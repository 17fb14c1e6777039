/** The few Go `strings` and `filepath` operations the migration uses,
    on strings modelled as sequences of characters. */
module Text {

  /** strings.HasPrefix: a raw character prefix, not a path-component one. */
  predicate HasPrefix(s: string, prefix: string) {
    |prefix| <= |s| && s[..|prefix|] == prefix
  }

  predicate OccursAt(s: string, sub: string, i: nat) {
    i + |sub| <= |s| && s[i..i + |sub|] == sub
  }

  /** The first position at or after `from` where `sub` occurs, or -1. */
  function IndexFrom(s: string, sub: string, from: nat): (r: int)
    decreases |s| - from
    ensures r == -1 || (from <= r && OccursAt(s, sub, r))
    ensures forall j: nat :: from <= j && (r == -1 || j < r) ==> !OccursAt(s, sub, j)
  {
    if from + |sub| > |s| then -1
    else if OccursAt(s, sub, from) then from
    else IndexFrom(s, sub, from + 1)
  }

  /** strings.Index. */
  function Index(s: string, sub: string): int {
    IndexFrom(s, sub, 0)
  }

  predicate Contains(s: string, sub: string) {
    Index(s, sub) >= 0
  }

  /** `sub` occurs at `i` and nowhere before. */
  predicate FirstOccurrence(s: string, sub: string, i: nat) {
    OccursAt(s, sub, i) && forall j: nat :: j < i ==> !OccursAt(s, sub, j)
  }

  /** strings.Index finds the first occurrence, and -1 only when there is none. */
  lemma IndexIsFirst(s: string, sub: string)
    ensures Index(s, sub) >= 0 ==> FirstOccurrence(s, sub, Index(s, sub))
    ensures forall i: nat :: FirstOccurrence(s, sub, i) ==> Index(s, sub) == i
  {
  }

  /** strings.Replace(s, pattern, replacement, 1): the first occurrence of
      `pattern` is replaced by `replacement`; without an occurrence `s` is
      returned as it is. */
  function ReplaceFirst(s: string, pattern: string, replacement: string): string {
    var i := Index(s, pattern);
    if i < 0 then s else s[..i] + replacement + s[i + |pattern|..]
  }

  /** Without an occurrence nothing changes; otherwise the first occurrence,
      and only that one, is replaced. */
  lemma ReplaceFirstSpec(s: string, pattern: string, replacement: string)
    ensures var r := ReplaceFirst(s, pattern, replacement);
      && (!Contains(s, pattern) ==> r == s)
      && (forall i: nat :: FirstOccurrence(s, pattern, i) ==> r == s[..i] + replacement + s[i + |pattern|..])
  {
    IndexIsFirst(s, pattern);
  }

  lemma ReplaceFirstAtPrefix(s: string, pattern: string, replacement: string)
    requires HasPrefix(s, pattern)
    ensures ReplaceFirst(s, pattern, replacement) == replacement + s[|pattern|..]
  {
    assert FirstOccurrence(s, pattern, 0);
    ReplaceFirstSpec(s, pattern, replacement);
    assert s[..0] + replacement == replacement;
  }

  /** strings.Replace(s, string([c]), "", -1): every `c` removed, nothing else
      touched, order kept. */
  function Strip(s: string, c: char): (r: string)
    ensures |r| <= |s|
    ensures forall x :: x in r <==> x in s && x != c
    ensures |s| == 1 ==> r == (if s[0] == c then [] else s)
  {
    if s == [] then []
    else if s[0] == c then Strip(s[1..], c)
    else [s[0]] + Strip(s[1..], c)
  }

  /** Stripping works piece by piece, so with the one-character case above
      it keeps every other character in its place and order. */
  lemma {:induction false} StripAppend(a: string, b: string, c: char)
    ensures Strip(a + b, c) == Strip(a, c) + Strip(b, c)
    decreases |a|
  {
    if a != [] {
      assert (a + b)[0] == a[0];
      assert (a + b)[1..] == a[1..] + b;
      StripAppend(a[1..], b, c);
    } else {
      assert a + b == b;
    }
  }

  /** unicode.IsSpace, which strings.TrimSpace uses. */
  predicate IsSpace(c: char) {
    c == '\t' || c == '\n' || c == '\U{000B}' || c == '\U{000C}' || c == '\r' || c == ' '
    || c == '\U{0085}' || c == '\U{00A0}' || c == '\U{1680}'
    || ('\U{2000}' <= c <= '\U{200A}')
    || c == '\U{2028}' || c == '\U{2029}' || c == '\U{202F}' || c == '\U{205F}' || c == '\U{3000}'
  }

  /** strings.TrimLeftFunc: the leading characters satisfying `f` removed. */
  function TrimLeftFunc(s: string, f: char -> bool): string
    decreases |s|
  {
    if s != [] && f(s[0]) then TrimLeftFunc(s[1..], f) else s
  }

  /** TrimLeftFunc leaves the suffix after the leading characters that
      satisfy `f`, and it does not start with one. */
  lemma {:induction false} TrimLeftFuncAt(s: string, f: char -> bool) returns (i: nat)
    ensures i <= |s| && TrimLeftFunc(s, f) == s[i..]
    ensures forall k :: 0 <= k < i ==> f(s[k])
    ensures i < |s| ==> !f(s[i])
    decreases |s|
  {
    if s != [] && f(s[0]) {
      var n := TrimLeftFuncAt(s[1..], f);
      i := n + 1;
      assert s[1..][n..] == s[i..];
      forall k | 1 <= k < i ensures f(s[k]) {
        assert s[k] == s[1..][k - 1];
      }
      if i < |s| {
        assert s[i] == s[1..][n];
      }
    } else {
      i := 0;
      assert s[0..] == s;
    }
  }

  /** strings.TrimRightFunc: the trailing characters satisfying `f` removed. */
  function TrimRightFunc(s: string, f: char -> bool): string
    decreases |s|
  {
    if s != [] && f(s[|s| - 1]) then TrimRightFunc(s[..|s| - 1], f) else s
  }

  /** TrimRightFunc leaves the prefix before the trailing characters that
      satisfy `f`, and it does not end with one. */
  lemma {:induction false} TrimRightFuncAt(s: string, f: char -> bool) returns (j: nat)
    ensures j <= |s| && TrimRightFunc(s, f) == s[..j]
    ensures forall k :: j <= k < |s| ==> f(s[k])
    ensures 0 < j ==> !f(s[j - 1])
    decreases |s|
  {
    if s != [] && f(s[|s| - 1]) {
      var init := s[..|s| - 1];
      j := TrimRightFuncAt(init, f);
      assert init[..j] == s[..j];
      forall k | j <= k < |s| - 1 ensures f(s[k]) {
        assert s[k] == init[k];
      }
      if 0 < j {
        assert s[j - 1] == init[j - 1];
      }
    } else {
      j := |s|;
      assert s[..|s|] == s;
    }
  }

  /** strings.TrimFunc: both ends trimmed. */
  function TrimFunc(s: string, f: char -> bool): string {
    TrimRightFunc(TrimLeftFunc(s, f), f)
  }

  /** strings.TrimFunc keeps the slice of `s` between the leading and the
      trailing characters that satisfy `f`, and the slice's ends do not. */
  lemma TrimFuncSlice(s: string, f: char -> bool) returns (i: nat, j: nat)
    ensures i <= j <= |s| && TrimFunc(s, f) == s[i..j]
    ensures forall k :: 0 <= k < i ==> f(s[k])
    ensures forall k :: j <= k < |s| ==> f(s[k])
    ensures i < j ==> !f(s[i]) && !f(s[j - 1])
  {
    i := TrimLeftFuncAt(s, f);
    var l := s[i..];
    var n := TrimRightFuncAt(l, f);
    j := i + n;
    SliceOfSuffix(s, i, n, f);
  }

  /** The prefix of length `n` of the suffix `s[i..]`, in terms of `s`. */
  lemma SliceOfSuffix(s: string, i: nat, n: nat, f: char -> bool)
    requires i + n <= |s|
    requires forall k :: n <= k < |s[i..]| ==> f(s[i..][k])
    requires 0 < n ==> !f(s[i..][n - 1])
    ensures s[i..][..n] == s[i..i + n]
    ensures forall k :: i + n <= k < |s| ==> f(s[k])
    ensures 0 < n ==> !f(s[i + n - 1])
  {
    forall k | i + n <= k < |s| ensures f(s[k]) {
      assert s[k] == s[i..][k - i];
    }
    if 0 < n {
      assert s[i + n - 1] == s[i..][n - 1];
    }
  }

  /** strings.TrimSpace. */
  function TrimSpace(s: string): string {
    TrimFunc(s, IsSpace)
  }

  /** strings.TrimSpace keeps the slice of `s` between its leading and its
      trailing white space, whose ends are not white space. */
  lemma TrimSpaceSlice(s: string) returns (i: nat, j: nat)
    ensures i <= j <= |s| && TrimSpace(s) == s[i..j]
    ensures forall k :: 0 <= k < i ==> IsSpace(s[k])
    ensures forall k :: j <= k < |s| ==> IsSpace(s[k])
    ensures i < j ==> !IsSpace(s[i]) && !IsSpace(s[j - 1])
  {
    i, j := TrimFuncSlice(s, IsSpace);
  }

  /** strings.TrimSpace introduces no character. */
  lemma TrimSpaceWithin(s: string)
    ensures forall c :: c in TrimSpace(s) ==> c in s
  {
    var i, j := TrimFuncSlice(s, IsSpace);
    forall c | c in TrimSpace(s) ensures c in s {
      var k :| 0 <= k < j - i && s[i..j][k] == c;
      assert s[i + k] == c;
    }
  }

  /** The result of strings.TrimSpace neither starts nor ends with white space. */
  lemma TrimSpaceEnds(s: string)
    ensures var t := TrimSpace(s); t == [] || (!IsSpace(t[0]) && !IsSpace(t[|t| - 1]))
  {
    var i, j := TrimFuncSlice(s, IsSpace);
  }

  /** strings.Join. */
  function Join(xs: seq<string>, sep: string): string {
    if xs == [] then ""
    else if |xs| == 1 then xs[0]
    else xs[0] + sep + Join(xs[1..], sep)
  }

  /** filepath.Join of two non-empty parts (the lexical Clean is not modelled). */
  function JoinPath(dir: string, name: string): string {
    dir + "/" + name
  }
}
