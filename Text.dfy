/** The few string operations of Python the engine relies on. */
module Text {

  /** `c.lower()` for one character; only ASCII letters are folded. */
  function LowerChar(c: char): char {
    if 'A' <= c <= 'Z' then (c as int + 32) as char else c
  }

  /** `s.lower()` (ASCII case folding). */
  function Lower(s: string): (r: string)
    ensures |r| == |s|
    ensures forall i :: 0 <= i < |s| ==> r[i] == LowerChar(s[i])
  {
    seq(|s|, i requires 0 <= i < |s| => LowerChar(s[i]))
  }

  /** `sub` occurs in `s` starting at index `i`. */
  predicate OccursAt(s: string, sub: string, i: int) {
    0 <= i && i + |sub| <= |s| && s[i..i + |sub|] == sub
  }

  /** Python's `sub in s` for strings: `sub` occurs in `s` as a contiguous slice. */
  predicate Contains(s: string, sub: string) {
    exists i | 0 <= i <= |s| - |sub| :: OccursAt(s, sub, i)
  }

  /** `s.startswith(p)`. */
  predicate StartsWith(s: string, p: string) {
    |p| <= |s| && s[..|p|] == p
  }

  lemma ContainsPrefix(s: string, p: string)
    requires StartsWith(s, p)
    ensures Contains(s, p)
  {
    assert OccursAt(s, p, 0);
  }

  /** A string contains itself. */
  lemma ContainsSelf(s: string)
    ensures Contains(s, s)
  {
    assert OccursAt(s, s, 0);
  }

  /** If some character of `sub` never occurs in `s`, then `sub` is not a substring of `s`. */
  lemma {:induction false} NotContainsMissingChar(s: string, sub: string, k: int)
    requires 0 <= k < |sub| && sub[k] !in s
    ensures !Contains(s, sub)
  {
  }

  lemma StartsWithAppend(p: string, s: string)
    ensures StartsWith(p + s, p)
  {
    assert (p + s)[..|p|] == p;
  }

  /** A string occurs in any string that has it between two others. */
  lemma ContainsMiddle(p: string, s: string, q: string)
    ensures Contains(p + s + q, s)
  {
    assert (p + s + q)[|p|..|p| + |s|] == s;
    assert OccursAt(p + s + q, s, |p|);
  }

  /** Two strings whose first characters differ: one does not start with the other. */
  lemma NotStartsWithOtherHead(p: string, q: string, s: string)
    requires |p| > 0 && |q| > 0 && p[0] != q[0]
    ensures !StartsWith(p + s, q)
  {
    assert (p + s)[0] == p[0];
  }

  function DigitChar(d: nat): char
    requires d < 10
  {
    "0123456789"[d]
  }

  /** Decimal digits of `n` without leading zeros. */
  function Digits(n: nat): (r: string)
    ensures |r| >= 1
    decreases n
  {
    if n < 10 then [DigitChar(n)] else Digits(n / 10) + [DigitChar(n % 10)]
  }

  /** `str(i)` / `f"{i}"` for a Python int. */
  function IntToString(i: int): (r: string)
    ensures |r| >= 1
  {
    if i < 0 then "-" + Digits(-i) else Digits(i)
  }

  /** `f"{x:.2f}"`: two decimals, rounding half up on the exact value. */
  function FormatFixed2(x: real): (r: string)
    ensures |r| >= 4
  {
    var m := if x < 0.0 then -x else x;
    var cents := (m * 100.0 + 0.5).Floor;
    assert cents >= 0;
    (if x < 0.0 then "-" else "") + Digits(cents / 100) + "."
      + [DigitChar((cents % 100) / 10), DigitChar(cents % 10)]
  }
}
