/**
 * String helpers the generator relies on: Python's `sep.join(xs)`, the
 * `repr` of a list of strings, `str.upper()`, and the reading of a text
 * back into its lines (the inverse of writing one entry per line).
 */
module Text {

  /** `sep.join(xs)` */
  function Join(xs: seq<string>, sep: string): string
  {
    if |xs| == 0 then ""
    else if |xs| == 1 then xs[0]
    else xs[0] + sep + Join(xs[1..], sep)
  }

  /** Concatenation of the parts of a rendered file, in order. */
  function Concat(parts: seq<string>): string
  {
    if parts == [] then "" else parts[0] + Concat(parts[1..])
  }

  /** Python's `repr` of a list of strings that contain no quote: `['a', 'b']`. */
  function PyList(xs: seq<string>): string
  {
    "[" + Join(Quoted(xs), ", ") + "]"
  }

  /** The text of a Python tuple of such strings: `('a', 'b')`. */
  function PyTuple(xs: seq<string>): string
  {
    "(" + Join(Quoted(xs), ", ") + ")"
  }

  function Quoted(xs: seq<string>): seq<string>
  {
    seq(|xs|, i requires 0 <= i < |xs| => "'" + xs[i] + "'")
  }

  function UpperChar(c: char): char
  {
    if 'a' <= c <= 'z' then (c as int - 32) as char else c
  }

  /** `str.upper()` restricted to ASCII letters, which is all the generator feeds it. */
  function Upper(s: string): string
  {
    if s == [] then [] else [UpperChar(s[0])] + Upper(s[1..])
  }

  /** `upper()` keeps the length, maps each character on its own, and leaves no lower-case letter. */
  lemma {:induction false} UpperChars(s: string)
    ensures |Upper(s)| == |s|
    ensures forall i :: 0 <= i < |s| ==> Upper(s)[i] == UpperChar(s[i]) && !('a' <= Upper(s)[i] <= 'z')
  {
    if s != [] {
      UpperChars(s[1..]);
      assert Upper(s) == [UpperChar(s[0])] + Upper(s[1..]);
    }
  }

  /** `part` occurs somewhere in `s`. */
  ghost predicate Contains(s: string, part: string)
  {
    exists i :: OccursAt(s, part, i)
  }

  /** `part` occurs in `s` starting at index `i`. */
  predicate OccursAt(s: string, part: string, i: int)
  {
    0 <= i <= |s| - |part| && s[i..i + |part|] == part
  }

  predicate IsSuffix(part: string, s: string)
  {
    |part| <= |s| && s[|s| - |part|..] == part
  }

  lemma ContainsInfix(a: string, b: string, c: string)
    ensures Contains(a + b + c, b)
  {
    var s := a + b + c;
    assert OccursAt(s, b, |a|);
  }

  lemma ContainsInSuffix(a: string, b: string, part: string)
    requires Contains(b, part)
    ensures Contains(a + b, part)
  {
    var i :| OccursAt(b, part, i);
    var s := a + b;
    assert s[|a| + i..|a| + i + |part|] == b[i..i + |part|];
    assert OccursAt(s, part, |a| + i);
  }

  lemma ContainsTransitive(s: string, middle: string, part: string)
    requires Contains(s, middle) && Contains(middle, part)
    ensures Contains(s, part)
  {
    var i :| OccursAt(s, middle, i);
    var j :| OccursAt(middle, part, j);
    assert forall k :: 0 <= k < |middle| ==> s[i + k] == middle[k];
    assert forall k :: 0 <= k < |part| ==> middle[j + k] == part[k];
    assert s[i + j..i + j + |part|] == part;
    assert OccursAt(s, part, i + j);
  }

  /** Each joined entry occurs in the joined text. */
  lemma {:induction false} JoinContains(xs: seq<string>, sep: string, k: nat)
    requires k < |xs|
    ensures Contains(Join(xs, sep), xs[k])
  {
    var s := Join(xs, sep);
    if |xs| == 1 {
      assert OccursAt(s, xs[0], 0);
    } else if k == 0 {
      assert s == xs[0] + (sep + Join(xs[1..], sep));
      assert OccursAt(s, xs[0], 0);
    } else {
      JoinContains(xs[1..], sep, k - 1);
      ContainsInSuffix(xs[0] + sep, Join(xs[1..], sep), xs[k]);
    }
  }

  lemma PrefixOfConcat(a: string, b: string)
    ensures (a + b)[..|a|] == a
  {
  }

  /** A joined text starts with its first entry. */
  lemma JoinStartsWith(xs: seq<string>, sep: string)
    requires |xs| > 0
    ensures |xs[0]| <= |Join(xs, sep)| && Join(xs, sep)[..|xs[0]|] == xs[0]
  {
    if |xs| > 1 {
      PrefixOfConcat(xs[0], sep + Join(xs[1..], sep));
      assert Join(xs, sep) == xs[0] + (sep + Join(xs[1..], sep));
    }
  }

  /** A text that lacks one of `part`'s characters does not contain `part`. */
  lemma MissingCharNotContained(s: string, part: string, k: nat)
    requires k < |part| && part[k] !in s
    ensures !Contains(s, part)
  {
  }

  lemma ContainsInPrefix(a: string, b: string, part: string)
    requires Contains(a, part)
    ensures Contains(a + b, part)
  {
    var i :| OccursAt(a, part, i);
    var s := a + b;
    assert s[i..i + |part|] == a[i..i + |part|];
    assert OccursAt(s, part, i);
  }

  lemma ContainsSelf(s: string)
    ensures Contains(s, s)
  {
    assert OccursAt(s, s, 0);
  }

  /** Whatever contains a concatenation contains each of its two halves. */
  lemma ContainsHalves(s: string, a: string, b: string)
    requires Contains(s, a + b)
    ensures Contains(s, a) && Contains(s, b)
  {
    var i :| OccursAt(s, a + b, i);
    assert s[i..i + |a|] == (a + b)[..|a|] == a;
    assert s[i + |a|..i + |a| + |b|] == (a + b)[|a|..] == b;
    assert OccursAt(s, a, i);
    assert OccursAt(s, b, i + |a|);
  }

  /** Text between a fixed prefix and a fixed suffix is determined by the whole. */
  lemma InfixDetermined(p: string, a: string, b: string, q: string)
    requires p + a + q == p + b + q
    ensures a == b
  {
    var s := p + a + q;
    assert |a| == |b|;
    assert a == s[|p|..|p| + |a|];
    assert b == (p + b + q)[|p|..|p| + |b|];
  }

  /** Every part of a concatenation occurs in it. */
  lemma {:induction false} ConcatContains(parts: seq<string>, k: nat)
    requires k < |parts|
    ensures Contains(Concat(parts), parts[k])
  {
    if k == 0 {
      ContainsInfix("", parts[0], Concat(parts[1..]));
      assert "" + parts[0] + Concat(parts[1..]) == Concat(parts);
    } else {
      ConcatContains(parts[1..], k - 1);
      var rest := Concat(parts[1..]);
      var i :| OccursAt(rest, parts[k], i);
      var s := Concat(parts);
      assert s == parts[0] + rest;
      assert s[|parts[0]| + i..|parts[0]| + i + |parts[k]|] == rest[i..i + |parts[k]|];
      assert OccursAt(s, parts[k], |parts[0]| + i);
    }
  }

  /** The last part of a concatenation is a suffix of it. */
  lemma {:induction false} ConcatEndsWith(parts: seq<string>)
    requires |parts| > 0
    ensures IsSuffix(parts[|parts| - 1], Concat(parts))
  {
    if |parts| > 1 {
      ConcatEndsWith(parts[1..]);
      assert parts[1..][|parts[1..]| - 1] == parts[|parts| - 1];
      var s := Concat(parts);
      assert s == parts[0] + Concat(parts[1..]);
    } else {
      assert Concat(parts) == parts[0] + Concat([]);
    }
  }

  /** A character that neither half of a text holds is not in the text. */
  lemma NotInEither(c: char, a: string, b: string)
    requires c !in a && c !in b
    ensures c !in a + b
  {
  }

  /** An occurrence past the first half of a text is an occurrence in the second half. */
  lemma OccursPastPrefix(a: string, b: string, part: string, k: int)
    requires OccursAt(a + b, part, k) && k >= |a|
    ensures OccursAt(b, part, k - |a|)
  {
    assert b[k - |a|..k - |a| + |part|] == (a + b)[k..k + |part|];
  }

  /** An occurrence that ends within the first half of a text is an occurrence in the first half. */
  lemma OccursBeforeSuffix(a: string, b: string, part: string, k: int)
    requires OccursAt(a + b, part, k) && k + |part| <= |a|
    ensures OccursAt(a, part, k)
  {
    assert a[k..k + |part|] == (a + b)[k..k + |part|];
  }

  /** A text that opens with none of `part`'s first character holds `part` only after that opening. */
  lemma ContainsPastPrefix(a: string, b: string, part: string)
    requires |part| > 0 && part[0] !in a
    requires Contains(a + b, part)
    ensures Contains(b, part)
  {
    var s := a + b;
    var k :| OccursAt(s, part, k);
    assert s[k] == part[0];
    OccursPastPrefix(a, b, part, k);
  }

  /** A word that can stand between quotes in a Python list text: no quote, comma or bracket. */
  predicate IsListWord(f: string)
  {
    '\'' !in f && ',' !in f && ']' !in f
  }

  lemma JoinQuotedSplit(xs: seq<string>)
    requires |xs| > 0
    ensures Join(Quoted(xs), ", ")
      == "'" + xs[0] + "'" + (if |xs| == 1 then "" else ", " + Join(Quoted(xs[1..]), ", "))
  {
    if |xs| > 1 {
      assert Quoted(xs)[1..] == Quoted(xs[1..]);
    }
  }

  /** A quoted word that starts where a quoted entry starts is that entry. */
  lemma QuotedAtEntry(x: string, rest: string, f: string)
    requires '\'' !in x && '\'' !in f
    requires OccursAt("'" + x + "'" + rest, "'" + f + "'", 0)
    ensures f == x
  {
    var s := "'" + x + "'" + rest;
    var w := "'" + f + "'";
    assert forall j :: 0 <= j < |w| ==> s[j] == w[j];
    assert s[|x| + 1] == '\'' && w[|f| + 1] == '\'';
    assert forall j :: 1 <= j <= |x| ==> s[j] == x[j - 1];
    assert forall j :: 1 <= j <= |f| ==> w[j] == f[j - 1];
    assert |f| == |x|;
    assert f == s[1..|f| + 1];
  }

  /** A quoted word in a quoted entry followed by ", " and more starts at that entry or after the separator. */
  lemma QuotedStart(x: string, rest: string, f: string, k: int)
    requires '\'' !in x && IsListWord(f)
    requires rest == "" || (|rest| >= 2 && rest[0] == ',' && rest[1] == ' ')
    requires OccursAt("'" + x + "'" + rest, "'" + f + "'", k)
    ensures k == 0 || k >= |x| + 4
  {
    var s := "'" + x + "'" + rest;
    var w := "'" + f + "'";
    assert s[k] == w[0] == '\'';
    assert s[k + 1] == w[1] != ',';
    assert forall j :: 1 <= j <= |x| ==> s[j] == x[j - 1];
    assert s[|x| + 1] == '\'';
    assert |rest| >= 2 ==> s[|x| + 2] == ',' && s[|x| + 3] == ' ';
  }

  /** A quoted word occurs among quoted entries joined by ", " only as one of the entries. */
  lemma {:induction false} QuotedInJoin(xs: seq<string>, f: string)
    requires |xs| > 0 && forall i :: 0 <= i < |xs| ==> '\'' !in xs[i]
    requires IsListWord(f)
    requires Contains(Join(Quoted(xs), ", "), "'" + f + "'")
    ensures f in xs
    decreases |xs|
  {
    var w := "'" + f + "'";
    var rest := if |xs| == 1 then "" else ", " + Join(Quoted(xs[1..]), ", ");
    JoinQuotedSplit(xs);
    var k :| OccursAt("'" + xs[0] + "'" + rest, w, k);
    QuotedStart(xs[0], rest, f, k);
    if k == 0 {
      QuotedAtEntry(xs[0], rest, f);
    } else {
      var tail := Join(Quoted(xs[1..]), ", ");
      assert "'" + xs[0] + "'" + rest == ("'" + xs[0] + "', ") + tail;
      OccursPastPrefix("'" + xs[0] + "', ", tail, w, k);
      QuotedInJoin(xs[1..], f);
    }
  }

  /** A quoted word without a closing bracket lies inside the brackets of a list text, or after them. */
  lemma QuotedBracketStart(inner: string, rest: string, f: string, k: int)
    requires ']' !in f
    requires OccursAt("[" + inner + "]" + rest, "'" + f + "'", k)
    ensures k >= |inner| + 2 || (1 <= k && k + |f| + 2 <= |inner| + 1)
  {
    var s := "[" + inner + "]" + rest;
    var w := "'" + f + "'";
    assert s[0] == '[' && s[|inner| + 1] == ']';
    assert w[0] == '\'' && w[|f| + 1] == '\'';
    assert forall j :: 1 <= j <= |f| ==> w[j] == f[j - 1];
    assert forall j :: 0 <= j < |w| ==> s[k + j] == w[j];
  }

  /** A quoted word in a Python list text followed by more text is one of the entries, or lies in what follows. */
  lemma QuotedInPyList(xs: seq<string>, rest: string, f: string)
    requires |xs| > 0 && forall i :: 0 <= i < |xs| ==> '\'' !in xs[i]
    requires IsListWord(f)
    requires Contains(PyList(xs) + rest, "'" + f + "'")
    ensures f in xs || Contains(rest, "'" + f + "'")
  {
    var w := "'" + f + "'";
    var inner := Join(Quoted(xs), ", ");
    var s := "[" + inner + "]" + rest;
    assert PyList(xs) + rest == s;
    var k :| OccursAt(s, w, k);
    QuotedBracketStart(inner, rest, f, k);
    if k >= |inner| + 2 {
      OccursPastPrefix("[" + inner + "]", rest, w, k);
    } else {
      assert s == "[" + inner + ("]" + rest);
      OccursBeforeSuffix("[" + inner, "]" + rest, w, k);
      OccursPastPrefix("[", inner, w, k);
      QuotedInJoin(xs, f);
    }
  }

  /** A quoted word that is no entry of a list text is not in a quote-free opening, the list and text without it. */
  lemma QuotedNotInListText(head: string, xs: seq<string>, rest: string, f: string)
    requires '\'' !in head
    requires |xs| > 0 && forall i :: 0 <= i < |xs| ==> '\'' !in xs[i]
    requires IsListWord(f) && f !in xs
    requires !Contains(rest, "'" + f + "'")
    ensures !Contains(head + PyList(xs) + rest, "'" + f + "'")
  {
    var w := "'" + f + "'";
    if Contains(head + PyList(xs) + rest, w) {
      assert head + PyList(xs) + rest == head + (PyList(xs) + rest);
      ContainsPastPrefix(head, PyList(xs) + rest, w);
      QuotedInPyList(xs, rest, f);
      assert false;
    }
  }

  /** Index of the first newline in `s`, or `|s|` when it has none. */
  function LineEnd(s: string): (k: nat)
    ensures k <= |s|
    ensures k < |s| ==> s[k] == '\n'
    ensures forall j :: 0 <= j < k ==> s[j] != '\n'
  {
    if s == [] then 0 else if s[0] == '\n' then 0 else 1 + LineEnd(s[1..])
  }

  /** The lines of a text, each without its terminating newline. */
  function Lines(s: string): seq<string>
    decreases |s|
  {
    if s == [] then []
    else
      var k := LineEnd(s);
      if k == |s| then [s] else [s[..k]] + Lines(s[k + 1..])
  }

  lemma LineEndOfLine(line: string, rest: string)
    requires '\n' !in line
    ensures LineEnd(line + "\n" + rest) == |line|
  {
    var s := line + "\n" + rest;
    var k := LineEnd(s);
    assert s[|line|] == '\n';
    assert forall j :: 0 <= j < |line| ==> s[j] == line[j];
  }

  /** A text that opens with a whole line reads as that line followed by the lines of the rest. */
  lemma LinesAfterLine(line: string, rest: string)
    requires '\n' !in line
    ensures Lines(line + "\n" + rest) == [line] + Lines(rest)
  {
    var s := line + "\n" + rest;
    LineEndOfLine(line, rest);
    assert s[..|line|] == line;
    assert s[|line| + 1..] == rest;
  }

  /** Writing entries one per line (`"\n".join(xs) + "\n"`) and reading the lines back gives the entries. */
  lemma {:induction false} LinesOfJoin(xs: seq<string>)
    requires |xs| > 0
    requires forall i :: 0 <= i < |xs| ==> '\n' !in xs[i]
    ensures Lines(Join(xs, "\n") + "\n") == xs
  {
    var s := Join(xs, "\n") + "\n";
    if |xs| == 1 {
      assert s == xs[0] + "\n" + "";
      LinesAfterLine(xs[0], "");
    } else {
      var rest := Join(xs[1..], "\n") + "\n";
      assert s == xs[0] + "\n" + rest;
      LinesAfterLine(xs[0], rest);
      LinesOfJoin(xs[1..]);
      assert xs == [xs[0]] + xs[1..];
    }
  }
}
