/** `Math.round` on exact real numbers: the nearest integer, with halves
    rounded up. Floating-point representation error is not modelled. */
module Rounding {

  /** `Math.round(x)`: the integer `k` with `k - 0.5 <= x < k + 0.5`. */
  function Round(x: real): (k: int)
    ensures (k as real) <= x + 0.5 < (k as real) + 1.0
  {
    (x + 0.5).Floor
  }

  /** Rounding never reverses an order. */
  lemma RoundMonotone(x: real, y: real)
    requires x <= y
    ensures Round(x) <= Round(y)
  {
  }

  /** Rounding leaves whole numbers alone. */
  lemma RoundWhole(k: int)
    ensures Round(k as real) == k
  {
  }

  /** Scaling by a positive factor keeps a number's position relative to
      0 and to 1. */
  lemma ScaleSides(x: real, d: real)
    requires d > 0.0
    ensures x < 0.0 ==> x * d < 0.0
    ensures x > 0.0 ==> x * d > 0.0
    ensures x < 1.0 ==> x * d < d
    ensures x > 1.0 ==> x * d > d
  {
  }
}
