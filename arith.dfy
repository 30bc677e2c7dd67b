/** Arithmetic helpers shared by the components: `Math.min`, `Math.max`, and division by a positive number. */
module Arith {

  /** `Math.min` on integers. */
  function Min(a: int, b: int): (r: int)
    ensures r <= a && r <= b && (r == a || r == b)
  {
    if a <= b then a else b
  }

  /** `Math.max` on integers. */
  function Max(a: int, b: int): (r: int)
    ensures r >= a && r >= b && (r == a || r == b)
  {
    if a >= b then a else b
  }

  /** For `d > 0`: `x` lies in [0, d] exactly when `x / d` lies in [0, 1], and division keeps order. */
  lemma Fraction(x: real, x': real, d: real)
    requires d > 0.0
    ensures 0.0 <= x <= d <==> 0.0 <= x / d <= 1.0
    ensures x < x' ==> x / d < x' / d
  {
  }
}
