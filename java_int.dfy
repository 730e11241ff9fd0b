/** Java's 32-bit `int` arithmetic, as the orientation code uses it:
    two's-complement wrap-around on `+` and `-`, and a remainder `%` that
    truncates toward zero (its sign follows the dividend). */
module JavaInt {

  const INT32_MIN: int := -0x8000_0000
  const INT32_MAX: int := 0x7fff_ffff

  newtype int32 = x: int | -0x8000_0000 <= x < 0x8000_0000

  /** The `int` that Java stores for the mathematical value `x`. */
  function Wrap(x: int): (r: int32)
    ensures INT32_MIN <= x <= INT32_MAX ==> r as int == x
    ensures (r as int - x) % 0x1_0000_0000 == 0
  {
    ((x + 0x8000_0000) % 0x1_0000_0000 - 0x8000_0000) as int32
  }

  /** Java's `a % 360`, the only remainder the orientation code takes. The
      four clauses below fix the result uniquely: it is congruent to `a`
      modulo 360, smaller than 360 in magnitude, and never of the opposite
      sign to `a`. */
  function Rem360(a: int): (r: int)
    ensures -360 < r < 360
    ensures a >= 0 ==> r >= 0
    ensures a <= 0 ==> r <= 0
    ensures (a - r) % 360 == 0
  {
    if a >= 0 then a % 360 else -((-a) % 360)
  }

  /** On a non-negative dividend Java's remainder and Dafny's Euclidean one agree. */
  lemma Rem360OfNonNegative(a: int)
    requires a >= 0
    ensures Rem360(a) == a % 360
  {
  }
}
