/** Small facts about integer and real arithmetic that the solver does not find unaided. */
module Arith {
  /** A non-negative number times a positive integer is at least the number. */
  lemma MulAtLeast(d: int, e: int)
    requires d >= 0 && e >= 1
    ensures d * e >= d
  {
    assert d * e == d + d * (e - 1);
  }

  /** A multiple of `d` strictly between `-d` and `d` is 0. */
  lemma MulSmall(d: int, e: int)
    requires d >= 1 && -d < d * e < d
    ensures e == 0
  {
    if e >= 1 {
      MulAtLeast(d, e);
      assert false;
    } else if e <= -1 {
      assert d * (-e) == -(d * e);
      MulAtLeast(d, -e);
      assert false;
    }
  }

  /** Quotient and remainder are the only such pair. */
  lemma DivModUnique(x: int, d: int, q: int, r: int)
    requires d >= 1 && 0 <= r < d && x == d * q + r
    ensures x / d == q && x % d == r
  {
    var q0, r0 := x / d, x % d;
    assert d * (q0 - q) == r - r0;
    MulSmall(d, q0 - q);
  }

  /** Adding the divisor keeps the remainder. */
  lemma ModShift(x: int, d: int)
    requires d >= 1
    ensures (x + d) % d == x % d
  {
    DivModUnique(x + d, d, x / d + 1, x % d);
  }

  /** With `gap = n / k + 1`, no more than `k` multiples of `gap` lie below `n`. */
  lemma GapBound(n: int, k: int, c: int)
    requires n >= 1 && k >= 1 && c >= 1
    requires (c - 1) * (n / k + 1) < n
    ensures c <= k
  {
    var g := n / k + 1;
    assert k * g == k * (n / k) + k;
    assert n < k * g;
    MulLessCancel(c - 1, k, g);
  }

  /** A positive factor cancels from a strict order. */
  lemma MulLessCancel(a: int, b: int, g: int)
    requires g > 0 && a * g < b * g
    ensures a < b
  {
    assert (b - a) * g == b * g - a * g;
  }

  /** A non-zero factor cancels. */
  lemma MulCancel(a: real, b: real, d: real)
    requires d != 0.0 && a * d == b * d
    ensures a == b
  {
    assert (a - b) * d == 0.0;
  }

  /** Multiplying by a non-zero factor keeps distinct values distinct. */
  lemma MulDistinct(a: real, b: real, d: real)
    requires d != 0.0 && a != b
    ensures a * d != b * d
  {
    assert (a - b) * d != 0.0;
    assert a * d - b * d == (a - b) * d;
  }

  lemma MulPositive(a: real, b: real)
    requires a > 0.0 && b > 0.0
    ensures a * b > 0.0
  {
  }

  lemma MulMonotone(k: real, x: real, y: real)
    requires k >= 0.0 && x <= y
    ensures k * x <= k * y
  {
    assert k * y - k * x == k * (y - x);
  }

  /** A number whose `n`-fold lies between the `n`-folds of two bounds lies between the bounds. */
  lemma MeanBetween(a: real, n: real, s: real, lo: real, hi: real)
    requires n > 0.0 && a * n == s && n * lo <= s <= n * hi
    ensures lo <= a <= hi
  {
  }
}
