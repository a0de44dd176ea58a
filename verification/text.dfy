/** Character and string helpers shared by the models: decimal rendering of integers,
    Python's str.strip / str.lower, JavaScript's padStart, substring removal and
    splitting on a separator. */
module Text {

  /** The ASCII whitespace characters that both Python's str.strip() and JavaScript's
      String.prototype.trim() remove. Python's strip() and `\s` also remove the ASCII
      separators U+001C to U+001F, and both remove non-ASCII spaces; neither kind is in
      this set. */
  const Whitespace: set<char> := {' ', '\t', '\n', '\r', '\U{000B}', '\U{000C}'}

  predicate IsDigit(c: char) { '0' <= c <= '9' }

  function DigitValue(c: char): (d: nat)
    requires IsDigit(c)
    ensures d < 10
  {
    c as int - '0' as int
  }

  function DigitChar(d: nat): (c: char)
    requires d < 10
    ensures IsDigit(c) && DigitValue(c) == d
  {
    ('0' as int + d) as char
  }

  predicate AllDigits(s: string) { forall k :: 0 <= k < |s| ==> IsDigit(s[k]) }

  /** The number a string of decimal digits denotes, most significant digit first. */
  function DigitsValue(s: string): nat
    requires AllDigits(s)
  {
    if s == [] then 0 else DigitsValue(s[..|s| - 1]) * 10 + DigitValue(s[|s| - 1])
  }

  /** Decimal rendering of a natural number (Python's str(n), JavaScript's n.toString()):
      digits only, no leading zero, and it reads back as n. */
  function NatToString(n: nat): (r: string)
    ensures |r| >= 1 && AllDigits(r)
    ensures DigitsValue(r) == n
    ensures (n < 10) == (|r| == 1)
    ensures r[0] == '0' ==> n == 0
  {
    if n < 10 then [DigitChar(n)] else NatToString(n / 10) + [DigitChar(n % 10)]
  }

  /** Decimal rendering of an integer, with a leading '-' for negatives. */
  function IntToString(i: int): (r: string)
    ensures |r| >= 1
    ensures i >= 0 ==> r == NatToString(i)
    ensures i < 0 ==> r[0] == '-' && r[1..] == NatToString(-i)
  {
    if i < 0 then "-" + NatToString(-i) else NatToString(i)
  }

  /** JavaScript's s.padStart(2, '0'): left-pad with zeros up to two characters. */
  function PadStart2(s: string): (r: string)
    ensures |s| >= 2 ==> r == s
    ensures |s| < 2 ==> |r| == 2 && r[2 - |s|..] == s
    ensures forall k :: 0 <= k < |r| - |s| ==> r[k] == '0'
  {
    if |s| >= 2 then s else if |s| == 1 then "0" + s else "00"
  }

  /** Leading characters of s that belong to cs are dropped. */
  function TrimStartBy(s: string, cs: set<char>): (r: string)
    ensures |r| <= |s| && r == s[|s| - |r|..]
    ensures r == [] || r[0] !in cs
    ensures forall k :: 0 <= k < |s| - |r| ==> s[k] in cs
  {
    if s != [] && s[0] in cs then TrimStartBy(s[1..], cs) else s
  }

  /** Trailing characters of s that belong to cs are dropped. */
  function TrimEndBy(s: string, cs: set<char>): (r: string)
    ensures |r| <= |s| && r == s[..|r|]
    ensures r == [] || r[|r| - 1] !in cs
    ensures forall k :: |r| <= k < |s| ==> s[k] in cs
  {
    if s != [] && s[|s| - 1] in cs then TrimEndBy(s[..|s| - 1], cs) else s
  }

  /** Neither end of r is a character of cs. */
  predicate TrimmedBy(r: string, cs: set<char>)
  {
    r == [] || (r[0] !in cs && r[|r| - 1] !in cs)
  }

  /** Python's s.strip(chars): characters of cs are removed from both ends. */
  function StripBy(s: string, cs: set<char>): string
  {
    TrimEndBy(TrimStartBy(s, cs), cs)
  }

  /** Stripping only shortens, and leaves no character of cs at either end. */
  lemma StripByEnds(s: string, cs: set<char>)
    ensures |StripBy(s, cs)| <= |s| && TrimmedBy(StripBy(s, cs), cs)
  {
    var u := TrimStartBy(s, cs);
    var r := TrimEndBy(u, cs);
    assert r == [] || r[0] == u[0];
  }

  /** Python's s.strip() / JavaScript's s.trim() on ASCII whitespace. */
  function Strip(s: string): string
  {
    StripBy(s, Whitespace)
  }

  /** A string strips to nothing exactly when it is all whitespace. */
  lemma StripEmptyIffBlank(s: string)
    ensures Strip(s) == [] <==> forall k :: 0 <= k < |s| ==> s[k] in Whitespace
  {
    var t := TrimStartBy(s, Whitespace);
    if t != [] {
      assert t[0] == s[|s| - |t|] && t[0] !in Whitespace;
      assert TrimEndBy(t, Whitespace) != [];
    }
  }

  /** Text that does not start with a character of cs keeps its start. */
  lemma TrimStartNoop(s: string, cs: set<char>)
    requires s == [] || s[0] !in cs
    ensures TrimStartBy(s, cs) == s
  {
  }

  lemma {:induction false} StripByNoop(s: string, cs: set<char>)
    requires s == [] || (s[0] !in cs && s[|s| - 1] !in cs)
    ensures StripBy(s, cs) == s
  {
  }

  /** Python's str.lower() on ASCII letters; every other character is kept. */
  function LowerChar(c: char): char
  {
    if 'A' <= c <= 'Z' then (c as int + 32) as char else c
  }

  function Lower(s: string): (r: string)
    ensures |r| == |s| && forall k :: 0 <= k < |s| ==> r[k] == LowerChar(s[k])
  {
    seq(|s|, k requires 0 <= k < |s| => LowerChar(s[k]))
  }

  predicate StartsWith(s: string, p: string)
  {
    |p| <= |s| && s[..|p|] == p
  }

  /** Index of the first occurrence of c in s. */
  function IndexOf(s: string, c: char): (i: nat)
    requires c in s
    ensures i < |s| && s[i] == c && c !in s[..i]
  {
    if s[0] == c then 0 else 1 + IndexOf(s[1..], c)
  }

  /** Index of the last occurrence of c in s. */
  function LastIndexOf(s: string, c: char): (i: nat)
    requires c in s
    ensures i < |s| && s[i] == c && c !in s[i + 1..]
  {
    if s[|s| - 1] == c then |s| - 1 else LastIndexOf(s[..|s| - 1], c)
  }

  /** Python's s.split(sep) for a one-character separator: the pieces between
      separators, in order; there is always at least one piece. */
  function Split(s: string, sep: char): (r: seq<string>)
    ensures |r| >= 1
    ensures forall k :: 0 <= k < |r| ==> sep !in r[k]
    decreases |s|
  {
    if sep !in s then [s]
    else
      var i := IndexOf(s, sep);
      [s[..i]] + Split(s[i + 1..], sep)
  }

  /** Python's s.replace(pat, ''): every non-overlapping occurrence of pat, scanned
      from the left, is removed. */
  function RemoveAll(s: string, pat: string): (r: string)
    requires pat != []
    ensures |r| <= |s|
    decreases |s|
  {
    if |s| < |pat| then s
    else if s[..|pat|] == pat then RemoveAll(s[|pat|..], pat)
    else [s[0]] + RemoveAll(s[1..], pat)
  }

  /** pat occurs in s at position k. */
  predicate OccursAt(s: string, pat: string, k: nat)
  {
    k + |pat| <= |s| && s[k..k + |pat|] == pat
  }

  /** Without an occurrence of pat, removing it changes nothing. */
  lemma {:induction false} RemoveAllAbsent(s: string, pat: string)
    requires pat != [] && forall k :: 0 <= k <= |s| ==> !OccursAt(s, pat, k)
    ensures RemoveAll(s, pat) == s
    decreases |s|
  {
    if |s| >= |pat| {
      assert !OccursAt(s, pat, 0);
      var t := s[1..];
      forall k | 0 <= k <= |t|
        ensures !OccursAt(t, pat, k)
      {
        assert !OccursAt(s, pat, k + 1);
        if k + |pat| <= |t| {
          assert t[k..k + |pat|] == s[k + 1..k + 1 + |pat|];
        }
      }
      RemoveAllAbsent(t, pat);
    }
  }

  /** The text before the first occurrence is kept, the occurrence goes, and the scan
      goes on after it. */
  lemma {:induction false} RemoveAllFirst(a: string, pat: string, b: string)
    requires pat != [] && forall k :: 0 <= k < |a| ==> !OccursAt(a + pat + b, pat, k)
    ensures RemoveAll(a + pat + b, pat) == a + RemoveAll(b, pat)
    decreases |a|
  {
    var s := a + pat + b;
    if a == [] {
      assert s == pat + b && s[..|pat|] == pat && s[|pat|..] == b;
    } else {
      assert !OccursAt(s, pat, 0);
      var t := a[1..] + pat + b;
      assert s[1..] == t;
      forall k | 0 <= k < |a[1..]|
        ensures !OccursAt(t, pat, k)
      {
        assert !OccursAt(s, pat, k + 1);
        if k + |pat| <= |t| {
          assert t[k..k + |pat|] == s[k + 1..k + 1 + |pat|];
        }
      }
      RemoveAllFirst(a[1..], pat, b);
      assert [s[0]] + (a[1..] + RemoveAll(b, pat)) == a + RemoveAll(b, pat);
    }
  }

  /** A text that opens on pat and holds no further occurrence loses exactly that pat. */
  lemma RemoveAllLeading(pat: string, u: string)
    requires pat != [] && forall k :: 0 <= k <= |u| ==> !OccursAt(u, pat, k)
    ensures RemoveAll(pat + u, pat) == u
  {
    RemoveAllFirst([], pat, u);
    assert [] + pat + u == pat + u;
    RemoveAllAbsent(u, pat);
  }

  /** Characters of cs in front of a text that starts and ends outside cs are all that
      stripping removes. */
  lemma {:induction false} StripByLeading(edge: string, rest: string, cs: set<char>)
    requires forall k :: 0 <= k < |edge| ==> edge[k] in cs
    requires rest != [] && rest[0] !in cs && rest[|rest| - 1] !in cs
    ensures TrimStartBy(edge + rest, cs) == rest
    ensures StripBy(edge + rest, cs) == rest
    decreases |edge|
  {
    if edge == [] {
      assert edge + rest == rest;
    } else {
      assert (edge + rest)[1..] == edge[1..] + rest;
      StripByLeading(edge[1..], rest, cs);
    }
    StripByNoop(rest, cs);
  }

  /** Python's s.replace(prefix, replacement, 1) when s starts with prefix: the first
      occurrence is the prefix itself. */
  function ReplacePrefix(s: string, prefix: string, replacement: string): string
    requires StartsWith(s, prefix)
  {
    replacement + s[|prefix|..]
  }
}
