/** The JavaScript string operations the estimate function relies on:
    `includes`, `split` with a non-empty separator, `join`, and `trim`. */
module Strings {

  import opened Wrappers

  /** `s.includes(pat)`: `pat` is a prefix of `s` or of one of its
      suffixes. */
  predicate Contains(s: string, pat: string)
    decreases |s|
  {
    pat <= s || (|s| > 0 && Contains(s[1..], pat))
  }

  /** `pat` occurs in `s` starting at index `i`: the reference reading of
      `includes`, against which `Contains` is checked. */
  predicate OccursAt(s: string, pat: string, i: int) {
    0 <= i <= |s| && pat <= s[i..]
  }

  /** An occurrence anywhere makes `Contains` true. */
  lemma {:induction false} OccursImpliesContains(s: string, pat: string, i: int)
    requires OccursAt(s, pat, i)
    ensures Contains(s, pat)
    decreases i
  {
    if i > 0 {
      assert s[1..][i - 1..] == s[i..];
      OccursImpliesContains(s[1..], pat, i - 1);
    }
  }

  /** `Contains` is true only because of an occurrence. */
  lemma {:induction false} ContainsHasOccurrence(s: string, pat: string) returns (i: nat)
    requires Contains(s, pat)
    ensures OccursAt(s, pat, i)
    decreases |s|
  {
    if pat <= s {
      i := 0;
    } else {
      var j := ContainsHasOccurrence(s[1..], pat);
      assert s[1..][j..] == s[j + 1..];
      i := j + 1;
    }
  }

  /** A pattern longer than the text never occurs in it. */
  lemma {:induction false} ShortNeverContains(s: string, pat: string)
    requires |s| < |pat|
    ensures !Contains(s, pat)
    decreases |s|
  {
    if |s| > 0 {
      ShortNeverContains(s[1..], pat);
    }
  }

  /** Removing the last character cannot create an occurrence. */
  lemma {:induction false} DropLastKeepsAbsence(s: string, pat: string)
    requires |s| > 0 && !Contains(s, pat)
    ensures !Contains(s[..|s| - 1], pat)
    decreases |s|
  {
    var t := s[..|s| - 1];
    if |t| > 0 {
      assert t[1..] == s[1..][..|s[1..]| - 1];
      DropLastKeepsAbsence(s[1..], pat);
    }
  }

  /** `s.split(sep)`: the pieces between consecutive occurrences of `sep`,
      scanning left to right. A separator at the front closes an empty
      piece; any other character extends the first piece. */
  function Split(s: string, sep: string): (pieces: seq<string>)
    requires |sep| > 0
    ensures |pieces| >= 1
    ensures |pieces| >= 2 <==> Contains(s, sep)
    ensures |pieces| == 1 ==> pieces[0] == s
    ensures pieces[0] <= s
    decreases |s|
  {
    if sep <= s then [""] + Split(s[|sep|..], sep)
    else if |s| == 0 then [s]
    else
      var rest := Split(s[1..], sep);
      [[s[0]] + rest[0]] + rest[1..]
  }

  /** No piece of a split contains the separator. */
  lemma {:induction false} SplitPiecesFree(s: string, sep: string)
    requires |sep| > 0
    ensures forall k :: 0 <= k < |Split(s, sep)| ==> !Contains(Split(s, sep)[k], sep)
    decreases |s|
  {
    if sep <= s {
      SplitPiecesFree(s[|sep|..], sep);
      ShortNeverContains("", sep);
    } else if |s| > 0 {
      var rest := Split(s[1..], sep);
      SplitPiecesFree(s[1..], sep);
      var head := [s[0]] + rest[0];
      assert head[1..] == rest[0];
      assert !(sep <= head);
    }
  }

  /** The text before a separator is the first piece, and the pieces of
      the rest follow, provided no occurrence of the separator begins
      inside that text. An occurrence starting inside `a` would lie within
      `a` and all but the last character of `sep`, which the second
      requirement rules out. */
  lemma {:induction false} SplitHead(a: string, sep: string, b: string)
    requires |sep| > 0
    requires !Contains(a + sep[..|sep| - 1], sep)
    ensures Split(a + sep + b, sep) == [a] + Split(b, sep)
    ensures Split(a + sep + b, sep)[0] == a
    decreases |a|
  {
    var x := a + sep + b;
    if |a| > 0 {
      var y := a + sep[..|sep| - 1];
      assert !(sep <= x);
      assert x[1..] == a[1..] + sep + b;
      assert y[1..] == a[1..] + sep[..|sep| - 1];
      SplitHead(a[1..], sep, b);
      assert [a[0]] + a[1..] == a;
    } else {
      assert sep <= x;
      assert x[|sep|..] == b;
    }
  }

  /** When no occurrence of the separator starts inside `a`, the first
      piece of `a + b` is `a` followed by the first piece of `b`. */
  lemma {:induction false} SplitFirstPiece(a: string, b: string, sep: string)
    requires |sep| > 0
    requires forall i :: 0 <= i < |a| ==> !OccursAt(a + b, sep, i)
    ensures Split(a + b, sep)[0] == a + Split(b, sep)[0]
    decreases |a|
  {
    var x := a + b;
    if |a| == 0 {
      assert x == b;
    } else {
      assert !OccursAt(x, sep, 0);
      assert x[1..] == a[1..] + b;
      forall i | 0 <= i < |a[1..]|
        ensures !OccursAt(a[1..] + b, sep, i)
      {
        assert !OccursAt(x, sep, i + 1);
        assert x[i + 1..] == (a[1..] + b)[i..];
      }
      SplitFirstPiece(a[1..], b, sep);
      assert [a[0]] + a[1..] == a;
    }
  }

  /** `pieces.join(sep)`. */
  function Join(pieces: seq<string>, sep: string): string
    requires |pieces| >= 1
  {
    if |pieces| == 1 then pieces[0] else pieces[0] + sep + Join(pieces[1..], sep)
  }

  /** Joining after extending the first piece extends the joined text. */
  lemma JoinConsHead(c: char, pieces: seq<string>, sep: string)
    requires |pieces| >= 1
    ensures Join([[c] + pieces[0]] + pieces[1..], sep) == [c] + Join(pieces, sep)
  {
    var q := [[c] + pieces[0]] + pieces[1..];
    if |pieces| > 1 {
      assert q[1..] == pieces[1..];
    }
  }

  /** Joining after an empty first piece starts with the separator. */
  lemma JoinEmptyHead(pieces: seq<string>, sep: string)
    requires |pieces| >= 1
    ensures Join([""] + pieces, sep) == sep + Join(pieces, sep)
  {
    assert ([""] + pieces)[1..] == pieces;
  }

  /** Splitting and joining again gives back the original string, so the
      pieces of `Split` are exactly the text between the separators. */
  lemma {:induction false} JoinSplit(s: string, sep: string)
    requires |sep| > 0
    ensures Join(Split(s, sep), sep) == s
    decreases |s|
  {
    if sep <= s {
      var rest := s[|sep|..];
      JoinSplit(rest, sep);
      JoinEmptyHead(Split(rest, sep), sep);
      assert s == sep + rest;
    } else if |s| > 0 {
      JoinSplit(s[1..], sep);
      JoinConsHead(s[0], Split(s[1..], sep), sep);
      assert [s[0]] + s[1..] == s;
    }
  }

  /** The characters `String.prototype.trim` removes: the ECMAScript
      WhiteSpace and LineTerminator code points. */
  predicate IsWhitespace(c: char) {
    || c == '\t' || c == '\n' || c == '\U{000B}' || c == '\U{000C}' || c == '\r'
    || c == ' ' || c == '\U{00A0}' || c == '\U{1680}'
    || ('\U{2000}' <= c <= '\U{200A}')
    || c == '\U{2028}' || c == '\U{2029}' || c == '\U{202F}' || c == '\U{205F}'
    || c == '\U{3000}' || c == '\U{FEFF}'
  }

  /** Neither the first nor the last character is whitespace. */
  predicate IsTrimmed(s: string) {
    s == [] || (!IsWhitespace(s[0]) && !IsWhitespace(s[|s| - 1]))
  }

  /** `s` with its leading whitespace removed: a suffix of `s`. */
  function TrimStart(s: string): (r: string)
    ensures |r| <= |s| && r == s[|s| - |r|..]
    ensures AllWhitespace(s[..|s| - |r|])
    ensures r == [] || !IsWhitespace(r[0])
    decreases |s|
  {
    if |s| > 0 && IsWhitespace(s[0]) then TrimStart(s[1..]) else s
  }

  /** `s` with its trailing whitespace removed: a prefix of `s`. */
  function TrimEnd(s: string): (r: string)
    ensures |r| <= |s| && r == s[..|r|]
    ensures AllWhitespace(s[|r|..])
    ensures r == [] || !IsWhitespace(r[|r| - 1])
    decreases |s|
  {
    if |s| > 0 && IsWhitespace(s[|s| - 1]) then TrimEnd(s[..|s| - 1]) else s
  }

  /** `s.trim()`: `s` without whitespace at either end. */
  function Trim(s: string): (r: string)
    ensures |r| <= |s|
    ensures IsTrimmed(r)
    ensures exists i, j :: 0 <= i <= j <= |s| && r == s[i..j] && AllWhitespace(s[..i]) && AllWhitespace(s[j..])
  {
    SliceBetweenWhitespace(s, TrimStart(s), TrimEnd(TrimStart(s)));
    TrimEnd(TrimStart(s))
  }

  /** Every character of `s` is whitespace. */
  predicate AllWhitespace(s: string) {
    forall k :: 0 <= k < |s| ==> IsWhitespace(s[k])
  }

  /** A prefix `u` of a suffix `t` of `s`, where what `t` drops and what
      `u` drops are whitespace, is the slice of `s` between two runs of
      whitespace. */
  lemma SliceBetweenWhitespace(s: string, t: string, u: string)
    requires |t| <= |s| && t == s[|s| - |t|..] && AllWhitespace(s[..|s| - |t|])
    requires |u| <= |t| && u == t[..|u|] && AllWhitespace(t[|u|..])
    ensures exists i, j :: 0 <= i <= j <= |s| && u == s[i..j] && AllWhitespace(s[..i]) && AllWhitespace(s[j..])
  {
    var i := |s| - |t|;
    assert t[|u|..] == s[i + |u|..];
    assert u == s[i..i + |u|];
  }

  /** A string with no whitespace at either end is its own trim. */
  lemma TrimOfTrimmed(s: string)
    requires IsTrimmed(s)
    ensures Trim(s) == s
  {
  }

  /** Trimming never introduces an occurrence of a pattern. */
  lemma {:induction false} TrimStartKeepsAbsence(s: string, pat: string)
    requires !Contains(s, pat)
    ensures !Contains(TrimStart(s), pat)
    decreases |s|
  {
    if |s| > 0 && IsWhitespace(s[0]) {
      TrimStartKeepsAbsence(s[1..], pat);
    }
  }

  lemma {:induction false} TrimEndKeepsAbsence(s: string, pat: string)
    requires !Contains(s, pat)
    ensures !Contains(TrimEnd(s), pat)
    decreases |s|
  {
    if |s| > 0 && IsWhitespace(s[|s| - 1]) {
      DropLastKeepsAbsence(s, pat);
      TrimEndKeepsAbsence(s[..|s| - 1], pat);
    }
  }

  lemma TrimKeepsAbsence(s: string, pat: string)
    requires !Contains(s, pat)
    ensures !Contains(Trim(s), pat)
  {
    TrimStartKeepsAbsence(s, pat);
    TrimEndKeepsAbsence(TrimStart(s), pat);
  }
}
