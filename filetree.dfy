/**
 * The project directory as the generator sees it: a map from relative
 * paths to directories and files, changed one filesystem call at a time.
 * `mkdir(parents=True, exist_ok=True)`, `mkdir(exist_ok=True)` and
 * `write_text` are steps that either succeed with a new tree or fail the
 * way the operating system would (a file where a directory is needed, a
 * directory where a file is written, a missing parent).
 */
module FileTree {

  datatype Option<T> = None | Some(value: T)

  /** A path relative to the project directory, one component per element. */
  type Path = p: seq<string> | |p| > 0 witness ["main"]

  datatype Entry = Dir | File(content: string)

  type Tree = map<Path, Entry>

  datatype Step =
    | MakeDirs(path: Path)                 // mkdir(parents=True, exist_ok=True)
    | MakeDir(path: Path)                  // mkdir(exist_ok=True)
    | Write(path: Path, content: string)   // write_text

  predicate IsDir(t: Tree, p: Path)
  {
    p in t && t[p] == Dir
  }

  predicate IsFile(t: Tree, p: Path)
  {
    p in t && t[p].File?
  }

  /** The parent is the project directory itself or a directory of the tree. */
  predicate ParentIsDir(t: Tree, p: Path)
  {
    |p| == 1 || IsDir(t, p[..|p| - 1])
  }

  /** The parent of `p` is the project directory itself or one of the directories `ds`. */
  predicate ParentIn(p: Path, ds: set<Path>)
  {
    |p| == 1 || p[..|p| - 1] in ds
  }

  /** The non-empty prefixes of a path: the directories `parents=True` makes. */
  function Prefixes(p: Path): set<Path>
    decreases |p|
  {
    if |p| == 1 then {p} else Prefixes(p[..|p| - 1]) + {p}
  }

  function AddDirs(t: Tree, ds: set<Path>): Tree
  {
    map q | q in t.Keys + ds :: if q in ds then Dir else t[q]
  }

  /** What a step does to the tree when it succeeds. */
  function Apply(t: Tree, s: Step): Tree
  {
    match s
    case MakeDirs(p) => AddDirs(t, Prefixes(p))
    case MakeDir(p) => t[p := Dir]
    case Write(p, c) => t[p := File(c)]
  }

  /** Whether the operating system lets the step through. */
  predicate Allowed(t: Tree, s: Step)
  {
    match s
    case MakeDirs(p) => forall q | q in Prefixes(p) :: !IsFile(t, q)
    case MakeDir(p) => !IsFile(t, p) && ParentIsDir(t, p)
    case Write(p, _) => !IsDir(t, p) && ParentIsDir(t, p)
  }

  function Perform(t: Tree, s: Step): (r: Option<Tree>)
  {
    if Allowed(t, s) then Some(Apply(t, s)) else None
  }

  /** The steps one after the other; the first failure ends the run. */
  function Replay(start: Option<Tree>, steps: seq<Step>): Option<Tree>
    decreases |steps|
  {
    if steps == [] then start
    else
      match Replay(start, steps[..|steps| - 1])
      case None => None
      case Some(t) => Perform(t, steps[|steps| - 1])
  }

  /** The steps applied without regard to failures. */
  function ApplyAll(t: Tree, steps: seq<Step>): Tree
    decreases |steps|
  {
    if steps == [] then t else Apply(ApplyAll(t, steps[..|steps| - 1]), steps[|steps| - 1])
  }

  /** Whether a step can change the entry at `p`. */
  predicate Touches(s: Step, p: Path)
  {
    match s
    case MakeDirs(q) => p in Prefixes(q)
    case MakeDir(q) => p == q
    case Write(q, _) => p == q
  }

  lemma {:induction false} ReplayAppend(start: Option<Tree>, a: seq<Step>, b: seq<Step>)
    ensures Replay(start, a + b) == Replay(Replay(start, a), b)
    decreases |b|
  {
    if b == [] {
      assert a + b == a;
    } else {
      var b' := b[..|b| - 1];
      assert (a + b)[..|a + b| - 1] == a + b';
      ReplayAppend(start, a, b');
    }
  }

  /** A run that succeeds ends in the tree its steps produce. */
  lemma {:induction false} ReplaySucceeds(t: Tree, steps: seq<Step>, r: Tree)
    requires Replay(Some(t), steps) == Some(r)
    ensures r == ApplyAll(t, steps)
    decreases |steps|
  {
    if steps != [] {
      var front := steps[..|steps| - 1];
      match Replay(Some(t), front)
      case None =>
        assert false;
      case Some(before) =>
        ReplaySucceeds(t, front, before);
    }
  }

  /** After a failure nothing more happens. */
  lemma {:induction false} ReplayFromNone(steps: seq<Step>)
    ensures Replay(None, steps) == None
    decreases |steps|
  {
    if steps != [] {
      ReplayFromNone(steps[..|steps| - 1]);
    }
  }

  /**
   * The calls from `start` stop at the `i`-th: those before it all go
   * through and leave `t`, and the `i`-th is refused on `t`. Nothing after
   * it runs, since the exception it raises ends the run.
   */
  predicate StopsAt(start: Tree, steps: seq<Step>, i: int, t: Tree)
  {
    0 <= i < |steps| && Replay(Some(start), steps[..i]) == Some(t) && !Allowed(t, steps[i])
  }

  /** Calls that stop somewhere fail as a whole. */
  lemma StopsAtFails(start: Tree, steps: seq<Step>, i: int, t: Tree)
    requires StopsAt(start, steps, i, t)
    ensures Replay(Some(start), steps) == None
  {
    var front := steps[..i + 1];
    assert front[..|front| - 1] == steps[..i];
    assert Replay(Some(start), front) == None;
    ReplayAppend(Some(start), front, steps[i + 1..]);
    ReplayFromNone(steps[i + 1..]);
    assert front + steps[i + 1..] == steps;
  }

  /** Calls that fail as a whole stop at some call, leaving what the calls before it made. */
  lemma {:induction false} FailureStops(start: Tree, steps: seq<Step>)
    requires Replay(Some(start), steps) == None
    ensures exists i, t :: StopsAt(start, steps, i, t)
    decreases |steps|
  {
    var front := steps[..|steps| - 1];
    match Replay(Some(start), front)
    case None =>
      FailureStops(start, front);
      var i, t :| StopsAt(start, front, i, t);
      assert steps[..i] == front[..i];
      assert StopsAt(start, steps, i, t);
    case Some(t) =>
      assert StopsAt(start, steps, |steps| - 1, t);
  }

  /** Two runs of calls in a row stop where the first stops, or, when it goes through, where the second does. */
  lemma StopsInEither(start: Tree, a: seq<Step>, b: seq<Step>, mid: Tree, t: Tree)
    requires (exists i :: StopsAt(start, a, i, t))
      || (Replay(Some(start), a) == Some(mid) && exists j :: StopsAt(mid, b, j, t))
    ensures exists k :: StopsAt(start, a + b, k, t)
  {
    if i :| StopsAt(start, a, i, t) {
      StopsInFirst(start, a, b, i, t);
    } else {
      var j :| StopsAt(mid, b, j, t);
      StopsInSecond(start, a, b, mid, j, t);
    }
  }

  lemma StopsInFirst(start: Tree, a: seq<Step>, b: seq<Step>, i: int, t: Tree)
    requires StopsAt(start, a, i, t)
    ensures StopsAt(start, a + b, i, t)
  {
    assert (a + b)[..i] == a[..i];
  }

  lemma StopsInSecond(start: Tree, a: seq<Step>, b: seq<Step>, mid: Tree, j: int, t: Tree)
    requires Replay(Some(start), a) == Some(mid) && StopsAt(mid, b, j, t)
    ensures StopsAt(start, a + b, |a| + j, t)
  {
    assert (a + b)[..|a| + j] == a + b[..j];
    ReplayAppend(Some(start), a, b[..j]);
  }

  lemma {:induction false} ApplyAllAppend(t: Tree, a: seq<Step>, b: seq<Step>)
    ensures ApplyAll(t, a + b) == ApplyAll(ApplyAll(t, a), b)
    decreases |b|
  {
    if b == [] {
      assert a + b == a;
    } else {
      var b' := b[..|b| - 1];
      assert (a + b)[..|a + b| - 1] == a + b';
      ApplyAllAppend(t, a, b');
    }
  }

  /** Steps that never touch `p` leave its entry as it was. */
  lemma {:induction false} ApplyAllUntouched(t: Tree, steps: seq<Step>, p: Path)
    requires forall i :: 0 <= i < |steps| ==> !Touches(steps[i], p)
    ensures p in ApplyAll(t, steps) <==> p in t
    ensures p in t ==> ApplyAll(t, steps)[p] == t[p]
    decreases |steps|
  {
    if steps != [] {
      var front := steps[..|steps| - 1];
      assert forall i :: 0 <= i < |front| ==> front[i] == steps[i];
      ApplyAllUntouched(t, front, p);
    }
  }

  /** The last step to touch a path decides its entry: a file holds what was last written. */
  lemma LastWriteWins(t: Tree, steps: seq<Step>, i: nat, p: Path, c: string)
    requires i < |steps| && steps[i] == Write(p, c)
    requires forall j :: i < j < |steps| ==> !Touches(steps[j], p)
    ensures p in ApplyAll(t, steps) && ApplyAll(t, steps)[p] == File(c)
  {
    var front := steps[..i + 1];
    var back := steps[i + 1..];
    assert steps == front + back;
    ApplyAllAppend(t, front, back);
    assert front[..|front| - 1] == steps[..i];
    forall j | 0 <= j < |back| ensures !Touches(back[j], p) {
      assert back[j] == steps[i + 1 + j];
    }
    ApplyAllUntouched(ApplyAll(t, front), back, p);
  }

  /** A file of the result was written by some step, or was there before. */
  lemma {:induction false} FilesComeFromWrites(t: Tree, steps: seq<Step>, p: Path)
    requires IsFile(ApplyAll(t, steps), p)
    ensures IsFile(t, p) || exists i :: 0 <= i < |steps| && steps[i].Write? && steps[i].path == p
    decreases |steps|
  {
    if steps != [] {
      var front := steps[..|steps| - 1];
      var last := steps[|steps| - 1];
      if last.Write? && last.path == p {
        assert steps[|steps| - 1].Write? && steps[|steps| - 1].path == p;
      } else {
        var before := ApplyAll(t, front);
        assert IsFile(before, p) by {
          match last
          case MakeDirs(q) =>
          case MakeDir(q) =>
          case Write(q, c) =>
        }
        FilesComeFromWrites(t, front, p);
        if !IsFile(t, p) {
          var i :| 0 <= i < |front| && front[i].Write? && front[i].path == p;
          assert steps[i] == front[i];
        }
      }
    }
  }

  /** The tree holding exactly the directories `ds`. */
  function DirTree(ds: set<Path>): Tree
  {
    map q | q in ds :: Dir
  }

  /** The directories a sequence of `mkdir(parents=True)` calls makes. */
  function DirsMade(ps: seq<Path>): set<Path>
    decreases |ps|
  {
    if ps == [] then {} else DirsMade(ps[..|ps| - 1]) + Prefixes(ps[|ps| - 1])
  }

  /** A directory is made by the call for one of the paths it prefixes. */
  lemma {:induction false} DirsMadeMembers(ps: seq<Path>, q: Path)
    ensures q in DirsMade(ps) <==> exists i :: 0 <= i < |ps| && q in Prefixes(ps[i])
    decreases |ps|
  {
    if ps != [] {
      var front := ps[..|ps| - 1];
      DirsMadeMembers(front, q);
      if q in DirsMade(front) {
        var i :| 0 <= i < |front| && q in Prefixes(front[i]);
        assert ps[i] == front[i];
      }
      if exists i :: 0 <= i < |ps| && q in Prefixes(ps[i]) {
        var i :| 0 <= i < |ps| && q in Prefixes(ps[i]);
        if i < |front| {
          assert front[i] == ps[i];
        }
      }
    }
  }

  /** `mkdir(parents=True)` of a one- or two-component path. */
  lemma ShortPrefixes(p: Path)
    requires |p| <= 2
    ensures Prefixes(p) == if |p| == 1 then {p} else {[p[0]], p}
  {
    if |p| == 2 {
      assert p[..1] == [p[0]];
    }
  }

  function MakeDirsSteps(ps: seq<Path>): (steps: seq<Step>)
    ensures |steps| == |ps|
  {
    seq(|ps|, i requires 0 <= i < |ps| => MakeDirs(ps[i]))
  }

  /** Making directories in a tree of directories always succeeds and adds their ancestors. */
  lemma {:induction false} MakeDirsSucceed(ds: set<Path>, ps: seq<Path>)
    ensures Replay(Some(DirTree(ds)), MakeDirsSteps(ps)) == Some(DirTree(ds + DirsMade(ps)))
    decreases |ps|
  {
    if ps == [] {
      assert ds + DirsMade(ps) == ds;
    } else {
      var front := ps[..|ps| - 1];
      var steps := MakeDirsSteps(ps);
      assert steps[..|steps| - 1] == MakeDirsSteps(front);
      MakeDirsSucceed(ds, front);
      var t := DirTree(ds + DirsMade(front));
      var last := ps[|ps| - 1];
      assert Allowed(t, MakeDirs(last));
      assert AddDirs(t, Prefixes(last)) == DirTree(ds + DirsMade(ps));
    }
  }

  /**
   * `write_text` calls that each go to a path that is not a directory, in a
   * directory that exists, all succeed, and leave the directories as they were.
   */
  lemma {:induction false} WritesSucceed(t: Tree, steps: seq<Step>, ds: set<Path>)
    requires forall q :: IsDir(t, q) <==> q in ds
    requires forall i :: 0 <= i < |steps| ==> steps[i].Write? && steps[i].path !in ds
    requires forall i :: 0 <= i < |steps| ==> ParentIn(steps[i].path, ds)
    ensures Replay(Some(t), steps) == Some(ApplyAll(t, steps))
    ensures forall q :: IsDir(ApplyAll(t, steps), q) <==> q in ds
    decreases |steps|
  {
    if steps != [] {
      var front := steps[..|steps| - 1];
      assert forall i :: 0 <= i < |front| ==> front[i] == steps[i];
      WritesSucceed(t, front, ds);
      var before := ApplyAll(t, front);
      var last := steps[|steps| - 1];
      assert ParentIsDir(before, last.path) by {
        assert ParentIn(last.path, ds);
      }
      assert Allowed(before, last);
    }
  }

  /** A `write_text` to a path that is a directory throughout fails the whole sequence. */
  lemma {:induction false} WriteOntoDirFails(t: Tree, steps: seq<Step>, ds: set<Path>, k: nat)
    requires forall q :: IsDir(t, q) <==> q in ds
    requires forall i :: 0 <= i < |steps| ==> steps[i].Write?
    requires k < |steps| && steps[k].path in ds
    ensures Replay(Some(t), steps) == None
    decreases |steps|
  {
    var front := steps[..|steps| - 1];
    assert forall i :: 0 <= i < |front| ==> front[i] == steps[i];
    if k < |steps| - 1 {
      WriteOntoDirFails(t, front, ds, k);
    } else {
      match Replay(Some(t), front)
      case None =>
      case Some(before) =>
        WritesKeepDirs(t, front, before);
    }
  }

  /** Successful writes do not change which paths are directories. */
  lemma {:induction false} WritesKeepDirs(t: Tree, steps: seq<Step>, r: Tree)
    requires forall i :: 0 <= i < |steps| ==> steps[i].Write?
    requires Replay(Some(t), steps) == Some(r)
    ensures forall q :: IsDir(r, q) <==> IsDir(t, q)
    decreases |steps|
  {
    if steps != [] {
      var front := steps[..|steps| - 1];
      assert forall i :: 0 <= i < |front| ==> front[i] == steps[i];
      match Replay(Some(t), front)
      case None =>
        assert false;
      case Some(before) =>
        WritesKeepDirs(t, front, before);
    }
  }

  /**
   * The project directory on disk: whether it exists, and its contents.
   * Each method is one filesystem call.
   */
  class ProjectDir {
    var present: bool
    var tree: Tree

    constructor (present: bool, tree: Tree)
      ensures this.present == present && this.tree == tree
    {
      this.present := present;
      this.tree := tree;
    }

    /** `shutil.rmtree` */
    method RemoveTree()
      requires present
      modifies this
      ensures !present && tree == map[]
    {
      present := false;
      tree := map[];
    }

    /** `mkdir()` of the project directory itself, which must not exist yet. */
    method MakeRoot()
      requires !present
      modifies this
      ensures present && tree == map[]
    {
      present := true;
      tree := map[];
    }

    /** One call inside the directory; on failure nothing changes. */
    method Execute(s: Step) returns (ok: bool)
      requires present
      modifies this
      ensures present
      ensures ok <==> Allowed(old(tree), s)
      ensures Some(tree) == (if ok then Perform(old(tree), s) else Some(old(tree)))
    {
      ok := Allowed(tree, s);
      if ok {
        tree := Apply(tree, s);
      }
    }

    /** The calls one after the other, stopping at the first that fails. */
    method ExecuteAll(steps: seq<Step>) returns (ok: bool)
      requires present
      modifies this
      ensures present
      ensures ok <==> Replay(Some(old(tree)), steps).Some?
      ensures ok ==> Replay(Some(old(tree)), steps) == Some(tree)
      ensures !ok ==> exists i :: StopsAt(old(tree), steps, i, tree)
    {
      var i := 0;
      ok := true;
      while i < |steps|
        invariant 0 <= i <= |steps| && present
        invariant Replay(Some(old(tree)), steps[..i]) == Some(tree)
      {
        ok := Execute(steps[i]);
        assert steps[..i + 1][..i] == steps[..i];
        if !ok {
          assert StopsAt(old(tree), steps, i, tree);
          assert Replay(Some(old(tree)), steps[..i + 1]) == None;
          ReplayAppend(Some(old(tree)), steps[..i + 1], steps[i + 1..]);
          ReplayFromNone(steps[i + 1..]);
          assert steps[..i + 1] + steps[i + 1..] == steps;
          return;
        }
        i := i + 1;
      }
      assert steps[..i] == steps;
    }
  }
}
