/**
 * The few Python `str` operations the configuration loader and the
 * client rely on: `isspace`, `strip`, `rstrip(c)`, `'c' in s`,
 * `split(c, 1)` and substring containment.
 */
module Text {

  /** The characters Python's `str.isspace()` accepts. */
  predicate IsSpace(c: char) {
    if c <= ' ' then
      c == ' ' || '\t' <= c <= '\r' || '\U{1c}' <= c
    else
      c == '\U{85}' || c == '\U{a0}' || c == '\U{1680}' || '\U{2000}' <= c <= '\U{200a}'
      || c == '\U{2028}' || c == '\U{2029}' || c == '\U{202f}' || c == '\U{205f}' || c == '\U{3000}'
  }

  /** Every character of `s` is whitespace. */
  predicate AllSpace(s: string) {
    forall i | 0 <= i < |s| :: IsSpace(s[i])
  }

  /** Neither end of `s` is whitespace: what `strip()` leaves behind. */
  predicate IsTrimmed(s: string) {
    s == [] || (!IsSpace(s[0]) && !IsSpace(s[|s| - 1]))
  }

  /** The first index at or after `i` that does not hold whitespace, or `|s|`. */
  function SkipSpace(s: string, i: nat): (j: nat)
    requires i <= |s|
    ensures i <= j <= |s|
    ensures j == |s| || !IsSpace(s[j])
    decreases |s| - i
  {
    if i < |s| && IsSpace(s[i]) then SkipSpace(s, i + 1) else i
  }

  /**
   * Walking back from `j` towards `i` over whitespace: the end of the last
   * non-whitespace character in `s[i..j]`, or `i`.
   */
  function SkipSpaceBack(s: string, i: nat, j: nat): (k: nat)
    requires i <= j <= |s|
    ensures i <= k <= j
    ensures k == i || !IsSpace(s[k - 1])
    decreases j
  {
    if i < j && IsSpace(s[j - 1]) then SkipSpaceBack(s, i, j - 1) else j
  }

  /** Python's `strip()`: both margins of whitespace removed. */
  function Strip(s: string): (r: string)
    ensures IsTrimmed(r) && |r| <= |s|
  {
    var a := SkipSpace(s, 0);
    s[a..SkipSpaceBack(s, a, |s|)]
  }

  /** `SkipSpace` passes over whitespace only. */
  lemma {:induction false} SkipSpaceSkipsSpace(s: string, i: nat)
    requires i <= |s|
    ensures forall m | i <= m < SkipSpace(s, i) :: IsSpace(s[m])
    decreases |s| - i
  {
    if i < |s| && IsSpace(s[i]) {
      SkipSpaceSkipsSpace(s, i + 1);
    }
  }

  /** `SkipSpaceBack` passes over whitespace only. */
  lemma {:induction false} SkipSpaceBackSkipsSpace(s: string, i: nat, j: nat)
    requires i <= j <= |s|
    ensures forall m | SkipSpaceBack(s, i, j) <= m < j :: IsSpace(s[m])
    decreases j
  {
    if i < j && IsSpace(s[j - 1]) {
      SkipSpaceBackSkipsSpace(s, i, j - 1);
    }
  }

  /**
   * `strip()` removes whitespace and nothing else: `s` is the kept text
   * between a whitespace margin on either side.
   */
  lemma StripDropsOnlySpace(s: string)
    ensures exists a, b | 0 <= a <= b <= |s| ::
              && Strip(s) == s[a..b]
              && s == s[..a] + Strip(s) + s[b..]
              && AllSpace(s[..a]) && AllSpace(s[b..])
  {
    var a := SkipSpace(s, 0);
    var b := SkipSpaceBack(s, a, |s|);
    SkipSpaceSkipsSpace(s, 0);
    SkipSpaceBackSkipsSpace(s, a, |s|);
    assert s == s[..a] + s[a..b] + s[b..];
    assert AllSpace(s[..a]) by {
      forall m | 0 <= m < a ensures IsSpace(s[..a][m]) {
        assert s[..a][m] == s[m];
      }
    }
    assert AllSpace(s[b..]) by {
      forall m | 0 <= m < |s| - b ensures IsSpace(s[b..][m]) {
        assert s[b..][m] == s[b + m];
      }
    }
  }

  /** A string that already has no whitespace margins is left alone by `strip()`. */
  lemma StripTrimmed(s: string)
    requires IsTrimmed(s)
    ensures Strip(s) == s
  {
    if s != [] {
      assert SkipSpace(s, 0) == 0;
      assert SkipSpaceBack(s, 0, |s|) == |s|;
    }
  }

  /** Trailing whitespace after trimmed, non-empty text is dropped by `strip()`. */
  lemma StripTrailingSpace(s: string, tail: string)
    requires IsTrimmed(s) && s != [] && AllSpace(tail)
    ensures Strip(s + tail) == s
  {
    var t := s + tail;
    assert SkipSpace(t, 0) == 0 by {
      assert t[0] == s[0];
    }
    var b := SkipSpaceBack(t, 0, |t|);
    SkipSpaceBackSkipsSpace(t, 0, |t|);
    assert t[|s| - 1] == s[|s| - 1];
    assert b == |s|;
    assert t[..|s|] == s;
  }

  /** A string starting with a non-whitespace character strips to one starting with it. */
  lemma StripKeepsFirst(s: string)
    requires s != [] && !IsSpace(s[0])
    ensures Strip(s) != [] && Strip(s)[0] == s[0]
  {
    assert SkipSpace(s, 0) == 0;
    SkipSpaceBackSkipsSpace(s, 0, |s|);
  }

  /** `strip()` only removes characters: one absent from `s` is absent from the result. */
  lemma StripKeepsAbsent(s: string, c: char)
    requires c !in s
    ensures c !in Strip(s)
  {
    var a := SkipSpace(s, 0);
    var r := Strip(s);
    forall j | 0 <= j < |r| ensures r[j] != c {
      assert r[j] == s[a + j];
    }
  }

  /** Walking back from `j` over copies of `c`: where the trailing run of `c` starts. */
  function SkipCharBack(s: string, c: char, j: nat): (k: nat)
    requires j <= |s|
    ensures k <= j
    ensures k == 0 || s[k - 1] != c
    ensures forall m | k <= m < j :: s[m] == c
    decreases j
  {
    if 0 < j && s[j - 1] == c then SkipCharBack(s, c, j - 1) else j
  }

  /** Python's `rstrip(c)`: `s` with every trailing `c` removed. */
  function TrimEndChar(s: string, c: char): (r: string)
    ensures |r| <= |s| && r == s[..|r|]
    ensures forall i | |r| <= i < |s| :: s[i] == c
    ensures r == [] || r[|r| - 1] != c
  {
    s[..SkipCharBack(s, c, |s|)]
  }

  /** The position of the first `c` in `s`, where `s.split(c, 1)` cuts. */
  function FirstIndex(s: string, c: char): (i: nat)
    requires c in s
    ensures i < |s| && s[i] == c && c !in s[..i]
  {
    if s[0] == c then 0 else 1 + FirstIndex(s[1..], c)
  }

  predicate StartsWith(s: string, prefix: string) {
    |prefix| <= |s| && s[..|prefix|] == prefix
  }

  /** Python's `sub in s`. */
  predicate Contains(s: string, sub: string) {
    exists i | 0 <= i <= |s| :: StartsWith(s[i..], sub)
  }

  /** A string contains its own suffix. */
  lemma ContainsSuffix(a: string, b: string)
    ensures Contains(a + b, b)
  {
    assert (a + b)[|a|..][..|b|] == b;
  }

  /** Containment survives appending. */
  lemma ContainsExtend(s: string, sub: string, t: string)
    requires Contains(s, sub)
    ensures Contains(s + t, sub)
  {
    var i :| 0 <= i <= |s| && StartsWith(s[i..], sub);
    assert (s + t)[i..][..|sub|] == s[i..][..|sub|];
  }

  /** A piece of a piece of a string is a piece of the string. */
  lemma ContainsTransitive(s: string, mid: string, sub: string)
    requires Contains(s, mid) && Contains(mid, sub)
    ensures Contains(s, sub)
  {
    var i :| 0 <= i <= |s| && StartsWith(s[i..], mid);
    var k :| 0 <= k <= |mid| && StartsWith(mid[k..], sub);
    forall t | 0 <= t < |sub| ensures s[i + k + t] == sub[t] {
      assert mid[k..][..|sub|][t] == sub[t];
      assert s[i..][..|mid|][k + t] == mid[k + t];
    }
    assert s[i + k..][..|sub|] == sub;
  }
}
