/**
 * JavaScript rounding on integer millisecond quantities.
 *
 * `Math.round(n / d)` rounds half up: it is the greatest integer r with
 * r - 1/2 <= n/d. For d > 0 that is floor((2n + d) / (2d)); Dafny's `/` on `int`
 * with a positive divisor is floor division, so the formula carries over as is.
 */
module JsMath {

  /** `Math.round(n / d)` for a positive divisor. */
  function RoundDiv(n: int, d: int): (r: int)
    requires d > 0
    ensures 2 * d * r - d <= 2 * n < 2 * d * r + d
  {
    var q := (2 * n + d) / (2 * d);
    assert 2 * n + d == (2 * d) * q + (2 * n + d) % (2 * d);
    q
  }

  /** `Math.floor(n / d)` for a positive divisor. */
  function FloorDiv(n: int, d: int): (r: int)
    requires d > 0
    ensures d * r <= n < d * r + d
  {
    var q := n / d;
    assert n == d * q + n % d;
    q
  }

  lemma RoundDivExamples()
    ensures RoundDiv(2500, 1000) == 3 && RoundDiv(2499, 1000) == 2 && RoundDiv(-2500, 1000) == -2
  {
  }
}
