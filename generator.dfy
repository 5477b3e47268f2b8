/**
 * `Generator.run`: clear the project directory, create the directory
 * skeleton, write every planned file, and report the features the project
 * was generated with.
 */
module Generate {
  import opened Configuration
  import opened Text
  import opened Order
  import opened FileTree
  import opened Plan

  /** A feature named in the completion message, in the order `run` lists them. */
  datatype Feature =
    | DatabaseTag(db: Database)
    | ApiTag(auth: AuthMethod)
    | JazzminTag
    | CustomUserTag
    | DockerTag

  /** The command-line spelling of a database choice. */
  function DatabaseName(db: Database): string
  {
    match db
    case Sqlite => "sqlite"
    case Postgresql => "postgresql"
    case Mysql => "mysql"
  }

  /** The command-line spelling of an authentication choice. */
  function AuthName(auth: AuthMethod): string
  {
    match auth
    case Session => "session"
    case Token => "token"
    case Jwt => "jwt"
  }

  /** How a feature is written in the completion message. */
  function Tag(f: Feature): string
  {
    match f
    case DatabaseTag(db) => Upper(DatabaseName(db))
    case ApiTag(auth) => "API(" + Upper(AuthName(auth)) + ")"
    case JazzminTag => "JAZZMIN"
    case CustomUserTag => "CUSTOM_USER"
    case DockerTag => "DOCKER"
  }

  /** The features of a configuration: the database always, then one per enabled option. */
  function Features(o: Options): seq<Feature>
  {
    [DatabaseTag(o.db)]
    + (if o.api then [ApiTag(o.auth)] else [])
    + (if o.admin == Jazzmin then [JazzminTag] else [])
    + (if o.user then [CustomUserTag] else [])
    + (if o.docker then [DockerTag] else [])
  }

  /** The feature list as the completion message prints it. */
  function Summary(o: Options): string
  {
    Join(Tags(Features(o)), ", ")
  }

  function Tags(fs: seq<Feature>): (tags: seq<string>)
    ensures |tags| == |fs|
  {
    seq(|fs|, i requires 0 <= i < |fs| => Tag(fs[i]))
  }

  /** A feature's place in the order in which `run` can add it. */
  function FeatureRank(f: Feature): int
  {
    match f
    case DatabaseTag(_) => 0
    case ApiTag(_) => 1
    case JazzminTag => 2
    case CustomUserTag => 3
    case DockerTag => 4
  }

  lemma FeaturesOrdered(o: Options)
    ensures Ascending(Features(o), FeatureRank)
  {
    var fs := Features(o);
    forall i, j | 0 <= i < j < |fs| ensures FeatureRank(fs[i]) < FeatureRank(fs[j]) {
      assert fs == [DatabaseTag(o.db)] + fs[1..];
    }
  }

  lemma FeaturesCount(o: Options)
    ensures var fs := Features(o);
      && |fs| == 1 + (if o.api then 1 else 0) + (if o.admin == Jazzmin then 1 else 0)
           + (if o.user then 1 else 0) + (if o.docker then 1 else 0)
      && fs[0] == DatabaseTag(o.db)
  {
  }

  lemma FeaturesNameSettings(o: Options)
    ensures var fs := Features(o);
      && (forall db :: DatabaseTag(db) in fs ==> db == o.db)
      && (forall auth :: ApiTag(auth) in fs <==> o.api && auth == o.auth)
  {
    var fs := Features(o);
    assert fs == [DatabaseTag(o.db)] + fs[1..];
  }

  lemma FeaturesNameOptions(o: Options)
    ensures var fs := Features(o);
      && (JazzminTag in fs <==> o.admin == Jazzmin)
      && (CustomUserTag in fs <==> o.user)
      && (DockerTag in fs <==> o.docker)
  {
  }

  /** Which features are reported: the database first, then exactly the enabled options, each once. */
  lemma FeaturesFollowFlags(o: Options)
    ensures var fs := Features(o);
      && |fs| == 1 + (if o.api then 1 else 0) + (if o.admin == Jazzmin then 1 else 0)
           + (if o.user then 1 else 0) + (if o.docker then 1 else 0)
      && fs[0] == DatabaseTag(o.db)
      && (forall db :: DatabaseTag(db) in fs ==> db == o.db)
      && (forall auth :: ApiTag(auth) in fs <==> o.api && auth == o.auth)
      && (JazzminTag in fs <==> o.admin == Jazzmin)
      && (CustomUserTag in fs <==> o.user)
      && (DockerTag in fs <==> o.docker)
      && (forall i, j :: 0 <= i < j < |fs| ==> fs[i] != fs[j])
  {
    FeaturesCount(o);
    FeaturesNameSettings(o);
    FeaturesNameOptions(o);
    FeaturesOrdered(o);
    AscendingOrders(Features(o), FeatureRank);
  }

  /**
   * For a configuration the derivation rules have settled, an API is never
   * reported with session authentication, and an API or the Jazzmin admin
   * always comes with the custom user model and Docker.
   */
  lemma NormalizedFeatures(o: Options)
    requires Normalized(o)
    ensures var fs := Features(o);
      && ApiTag(Session) !in fs
      && (ApiTag(o.auth) in fs || JazzminTag in fs ==> CustomUserTag in fs && DockerTag in fs)
  {
  }

  lemma ApiTagIsUpper(u: string)
    requires forall i :: 0 <= i < |u| ==> !('a' <= u[i] <= 'z')
    ensures var t := "API(" + u + ")";
      forall i :: 0 <= i < |t| ==> !('a' <= t[i] <= 'z')
  {
    var t := "API(" + u + ")";
    forall i | 0 <= i < |t| ensures !('a' <= t[i] <= 'z') {
      if 4 <= i < |t| - 1 {
        assert t[i] == u[i - 4];
      }
    }
  }

  /** Every tag is written in capitals. */
  lemma TagIsUpper(f: Feature)
    ensures forall i :: 0 <= i < |Tag(f)| ==> !('a' <= Tag(f)[i] <= 'z')
  {
    match f
    case DatabaseTag(db) =>
      UpperChars(DatabaseName(db));
    case ApiTag(auth) =>
      UpperChars(AuthName(auth));
      ApiTagIsUpper(Upper(AuthName(auth)));
    case _ =>
  }

  /** The length and first letter of a feature's tag. */
  function Signature(f: Feature): (int, char)
  {
    match f
    case DatabaseTag(Sqlite) => (6, 'S')
    case DatabaseTag(Postgresql) => (10, 'P')
    case DatabaseTag(Mysql) => (5, 'M')
    case ApiTag(Session) => (12, 'A')
    case ApiTag(Token) => (10, 'A')
    case ApiTag(Jwt) => (8, 'A')
    case JazzminTag => (7, 'J')
    case CustomUserTag => (11, 'C')
    case DockerTag => (6, 'D')
  }

  lemma SignatureInjective(f: Feature, g: Feature)
    requires Signature(f) == Signature(g)
    ensures f == g
  {
  }

  lemma UpperSignature(s: string)
    requires |s| > 0
    ensures |Upper(s)| == |s| && Upper(s)[0] == UpperChar(s[0])
  {
    UpperChars(s);
  }

  lemma TagSignature(f: Feature)
    ensures |Tag(f)| > 0 && Signature(f) == (|Tag(f)|, Tag(f)[0])
  {
    match f
    case DatabaseTag(db) =>
      UpperSignature(DatabaseName(db));
    case ApiTag(auth) =>
      UpperSignature(AuthName(auth));
    case _ =>
  }

  /** Different features are told apart in the message. */
  lemma TagInjective(f: Feature, g: Feature)
    requires Tag(f) == Tag(g)
    ensures f == g
  {
    TagSignature(f);
    TagSignature(g);
    SignatureInjective(f, g);
  }

  /** The message names each reported feature. */
  lemma SummaryNamesFeatures(o: Options, f: Feature)
    requires f in Features(o)
    ensures Contains(Summary(o), Tag(f))
  {
    var fs := Features(o);
    var i :| 0 <= i < |fs| && fs[i] == f;
    JoinContains(Tags(fs), ", ", i);
  }

  /** The features list, built with `append` as `run` does. */
  method BuildFeatures(o: Options) returns (fs: seq<Feature>)
    ensures fs == Features(o)
  {
    fs := [DatabaseTag(o.db)];
    if o.api {
      fs := fs + [ApiTag(o.auth)];
    }
    if o.admin == Jazzmin {
      fs := fs + [JazzminTag];
    }
    if o.user {
      fs := fs + [CustomUserTag];
    }
    if o.docker {
      fs := fs + [DockerTag];
    }
  }

  /** The generator for one configuration, working in the directory named after the project. */
  class Generator {
    const cfg: Config
    const dir: ProjectDir

    constructor (cfg: Config, dir: ProjectDir)
      ensures this.cfg == cfg && this.dir == dir
    {
      this.cfg := cfg;
      this.dir := dir;
    }

    /**
     * `run`: an existing project directory is removed, a fresh one made,
     * then `_create_dirs` and `_write_files` issue their calls in order.
     * The run goes through exactly when the project name does not clash
     * with a top-level entry of the project, and then leaves the planned
     * tree behind and reports the configuration's features; otherwise it
     * stops at the first failing call, leaving what the calls before it
     * made, and reports nothing.
     */
    method Run() returns (ok: bool, features: seq<Feature>)
      modifies dir
      ensures dir.present
      ensures ok <==> !Collides(cfg.Value())
      ensures ok ==> dir.tree == Generated(cfg.Value()) && features == Features(cfg.Value())
      ensures !ok ==> features == [] && exists i :: StopsAt(map[], RunSteps(cfg.Value()), i, dir.tree)
    {
      var o := cfg.Value();
      if dir.present {
        dir.RemoveTree();
      }
      dir.MakeRoot();
      var dirSteps := MakeDirsSteps(DirList(o));
      var fileSteps := FileSteps(o);
      ok := dir.ExecuteAll(dirSteps);
      ghost var mid := dir.tree;
      if ok {
        ok := dir.ExecuteAll(fileSteps);
      }
      if !ok {
        StopsInEither(map[], dirSteps, fileSteps, mid, dir.tree);
        RunInPhases(o);
      }
      RunByPhases(o);
      assert cfg.Value() == o;
      features := [];
      if ok {
        features := BuildFeatures(o);
      }
    }
  }
}
