/** `Math.round` applied to a quotient of integers. */
module JsMath {

  /** `Math.round(a / n)` for a positive `n`: the integer nearest to `a / n`, halves rounded up. */
  function RoundDiv(a: int, n: int): (r: int)
    requires n > 0
    ensures n * (2 * r - 1) <= 2 * a < n * (2 * r + 1)
  {
    (2 * a + n) / (2 * n)
  }

  /** Multiplying by a non-negative number keeps an inequality. */
  lemma MulMonotone(n: int, x: int, y: int)
    requires n >= 0 && x <= y
    ensures n * x <= n * y
  {
    assert n * y - n * x == n * (y - x);
  }

  /** Rounding a quotient whose value lies in `lo..hi` gives an integer in `lo..hi`. */
  lemma RoundDivBounds(a: int, n: int, lo: int, hi: int)
    requires n > 0 && lo * n <= a <= hi * n
    ensures lo <= RoundDiv(a, n) <= hi
  {
    var r := RoundDiv(a, n);
    if r < lo {
      MulMonotone(n, 2 * r + 1, 2 * lo - 1);
    }
    if r > hi {
      MulMonotone(n, 2 * hi + 1, 2 * r - 1);
    }
  }
}
