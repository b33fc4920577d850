/**
 * Arithmetic shared by the panels: `Math.round` over exact rationals, and the sums that
 * `Array.prototype.reduce((acc, x) => acc + f(x), 0)` computes.
 */
module Numbers {

  /** `Math.round(x)`: the nearest integer, halves rounded up (towards +infinity). */
  function Round(x: real): (r: int)
    ensures x - 0.5 < r as real <= x + 0.5
  {
    (x + 0.5).Floor
  }

  /** Rounding never reverses the order of two values. */
  lemma RoundMonotone(x: real, y: real)
    requires x <= y
    ensures Round(x) <= Round(y)
  {
  }

  /** A value between two integers rounds to a value between them. */
  lemma RoundBetween(x: real, lo: int, hi: int)
    requires lo as real <= x <= hi as real
    ensures lo <= Round(x) <= hi
  {
  }

  /** `s.reduce((acc, e) => acc + f(e), 0)`. */
  function SumOf<T>(s: seq<T>, f: T -> int): int
  {
    if s == [] then 0 else f(s[0]) + SumOf(s[1..], f)
  }

  /** A sum of terms that each lie in [lo, hi] lies in [lo * n, hi * n]. */
  lemma {:induction false} SumOfBounds<T>(s: seq<T>, f: T -> int, lo: int, hi: int)
    requires forall i :: 0 <= i < |s| ==> lo <= f(s[i]) <= hi
    ensures lo * |s| <= SumOf(s, f) <= hi * |s|
  {
    if s != [] {
      SumOfBounds(s[1..], f, lo, hi);
    }
  }

  /** A sum of `n` equal terms is `n` times that term. */
  lemma {:induction false} SumOfConstant<T>(s: seq<T>, f: T -> int, c: int)
    requires forall i :: 0 <= i < |s| ==> f(s[i]) == c
    ensures SumOf(s, f) == c * |s|
  {
    if s != [] {
      SumOfConstant(s[1..], f, c);
    }
  }

  lemma {:induction false} SumOfAppend<T>(s: seq<T>, t: seq<T>, f: T -> int)
    ensures SumOf(s + t, f) == SumOf(s, f) + SumOf(t, f)
  {
    if s == [] {
      assert s + t == t;
    } else {
      assert (s + t)[1..] == s[1..] + t;
      SumOfAppend(s[1..], t, f);
    }
  }

  /** The arithmetic mean of `n > 0` terms lies between the bounds of the terms. */
  lemma MeanBetween<T>(s: seq<T>, f: T -> int, lo: int, hi: int)
    requires |s| > 0
    requires forall i :: 0 <= i < |s| ==> lo <= f(s[i]) <= hi
    ensures lo as real <= SumOf(s, f) as real / |s| as real <= hi as real
  {
    SumOfBounds(s, f, lo, hi);
    var n := |s| as real;
    assert lo as real * n <= SumOf(s, f) as real <= hi as real * n;
  }

  /** A quotient exceeds `c` when the dividend exceeds `c` times the positive divisor. */
  lemma QuotientAbove(x: real, n: real, c: real)
    requires n > 0.0 && x > c * n
    ensures x / n > c
  {
    assert x / n * n == x;
  }
}
