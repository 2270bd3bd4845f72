/** Small value types and ASCII string helpers shared by the three components. */
module Common {

  datatype Option<+T> = None | Some(value: T) {
    function GetOr(default: T): T {
      if Some? then value else default
    }
  }

  /** Python's truthiness of an optional string: present and non-empty. */
  predicate Truthy(s: Option<string>) {
    s.Some? && s.value != ""
  }

  function Min(a: int, b: int): int {
    if a <= b then a else b
  }

  function Max(a: int, b: int): int {
    if a >= b then a else b
  }

  /** `str.lower()` restricted to ASCII letters. */
  function LowerChar(c: char): char {
    if 'A' <= c <= 'Z' then (c as int + 32) as char else c
  }

  function Lower(s: string): (r: string)
    ensures |r| == |s|
    ensures forall i :: 0 <= i < |s| ==> r[i] == LowerChar(s[i])
  {
    seq(|s|, i requires 0 <= i < |s| => LowerChar(s[i]))
  }

  lemma LowerSuffix(s: string, k: nat)
    requires k <= |s|
    ensures Lower(s)[k..] == Lower(s[k..])
  {
  }

  predicate StartsWith(s: string, prefix: string) {
    |prefix| <= |s| && s[..|prefix|] == prefix
  }

  predicate EndsWith(s: string, suffix: string) {
    |suffix| <= |s| && s[|s| - |suffix|..] == suffix
  }

  predicate OccursAt(s: string, sub: string, i: int) {
    0 <= i <= |s| - |sub| && s[i..i + |sub|] == sub
  }

  /** Python's `sub in s` for strings. */
  predicate Contains(s: string, sub: string) {
    exists i | 0 <= i <= |s| - |sub| :: OccursAt(s, sub, i)
  }

  /** A string that lacks the first character of `sub` does not contain `sub`. */
  lemma MissingFirstCharNotContained(s: string, sub: string)
    requires |sub| > 0 && sub[0] !in s
    ensures !Contains(s, sub)
  {
    forall i | 0 <= i <= |s| - |sub| ensures !OccursAt(s, sub, i) {
      assert s[i..i + |sub|][0] == s[i];
    }
  }

  lemma PrefixGrows<T>(s: seq<T>, i: nat)
    requires i < |s|
    ensures s[..i + 1] == s[..i] + [s[i]]
  {
  }

  /** Python's `s[:n]`. */
  function Take(s: string, n: nat): (r: string)
    ensures |r| == if |s| < n then |s| else n
    ensures StartsWith(s, r)
  {
    if |s| <= n then s else s[..n]
  }

  /** Python's `s.rstrip(c)` for a single character. */
  function RStrip(s: string, c: char): (r: string)
    ensures StartsWith(s, r)
    ensures r == [] || r[|r| - 1] != c
    ensures forall i :: |r| <= i < |s| ==> s[i] == c
    decreases |s|
  {
    if |s| > 0 && s[|s| - 1] == c then RStrip(s[..|s| - 1], c) else s
  }

  /** Python's `s.lstrip(c)` for a single character. */
  function LStrip(s: string, c: char): (r: string)
    ensures EndsWith(s, r)
    ensures r == [] || r[0] != c
    ensures forall i :: 0 <= i < |s| - |r| ==> s[i] == c
    decreases |s|
  {
    if |s| > 0 && s[0] == c then LStrip(s[1..], c) else s
  }

  /** Python's `s.strip(c)` for a single character. */
  function Strip(s: string, c: char): string {
    RStrip(LStrip(s, c), c)
  }

  /** `r` is the piece `s[a..b]`, and everything around it in `s` is `c`. */
  predicate PaddedBy(s: string, r: string, c: char, a: int, b: int) {
    && 0 <= a <= b <= |s| && s[a..b] == r
    && (forall i :: 0 <= i < a ==> s[i] == c)
    && (forall i :: b <= i < |s| ==> s[i] == c)
  }

  /** Where the piece that `strip` keeps sits in `s`. */
  lemma {:induction false} StripBounds(s: string, c: char) returns (a: int, b: int)
    ensures PaddedBy(s, Strip(s, c), c, a, b)
  {
    var l := LStrip(s, c);
    var r := RStrip(l, c);
    a := |s| - |l|;
    b := a + |r|;
    assert s[a..] == l;
    assert s[a..b] == r by {
      assert l[..|r|] == r;
      assert s[a..b] == s[a..][..|r|];
    }
    forall i | b <= i < |s| ensures s[i] == c {
      assert s[i] == l[i - a];
    }
  }

  /**
    `strip` removes only the character `c` and only at the ends: the result
    is a contiguous piece of `s`, surrounded in `s` by nothing but `c`, and
    neither starts nor ends with `c`.
  */
  lemma {:induction false} StripShape(s: string, c: char)
    ensures var r := Strip(s, c);
      (r == [] || (r[0] != c && r[|r| - 1] != c)) &&
      exists a, b :: PaddedBy(s, r, c, a, b)
  {
    var a, b := StripBounds(s, c);
    var l := LStrip(s, c);
    var r := RStrip(l, c);
    if r != [] {
      assert r[0] == l[0];
    }
  }
}
