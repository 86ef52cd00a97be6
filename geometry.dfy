/** Integer geometry shared by the clock's measuring and drawing code:
    positive intrinsic sizes, rectangles, and Java's integer arithmetic
    (division by two and the (int) cast) written out over Dafny's
    unbounded integers and exact reals. */
module Geometry {

  /** An intrinsic width or height of one of the clock's images. */
  type pos = n: int | 0 < n witness 1

  /** Intrinsic size of an image. */
  datatype Size = Size(width: pos, height: pos)

  /** A destination rectangle, as handed to a drawable's setBounds. */
  datatype Rect = Rect(left: int, top: int, right: int, bottom: int)

  /** Java's `n / 2` on ints: the quotient is truncated toward zero
      (Dafny's own `/` rounds toward minus infinity for negative n). */
  function Half(n: int): (r: int)
    ensures 0 <= n ==> 0 <= n - 2 * r <= 1
    ensures n < 0 ==> 0 <= 2 * r - n <= 1
  {
    if 0 <= n then n / 2 else -((-n) / 2)
  }

  /** Java's `(int)` cast of a float, which truncates toward zero
      (float rounding is not modelled; the argument is an exact real). */
  function Trunc(x: real): (t: int)
    ensures 0.0 <= x ==> 0 <= t && t as real <= x < t as real + 1.0
    ensures x < 0.0 ==> t <= 0 && t as real - 1.0 < x <= t as real
  {
    if 0.0 <= x then x.Floor else -((-x).Floor)
  }

  /** Math.min on two floats that are not NaN. */
  function MinReal(a: real, b: real): (m: real)
    ensures m <= a && m <= b
    ensures m == a || m == b
  {
    if a <= b then a else b
  }
}
