/**
 * Kotlin `Int` arithmetic: 32-bit two's-complement values, multiplication
 * that wraps around, and `/` and `%` that truncate toward zero (so the
 * remainder takes the sign of the dividend), unlike Dafny's Euclidean
 * operators.
 */
module KotlinInt {

  const MIN_INT: int := -0x8000_0000
  const MAX_INT: int := 0x7fff_ffff
  const MODULUS: int := 0x1_0000_0000

  type Int32 = x: int | -0x8000_0000 <= x <= 0x7fff_ffff

  /** The 32-bit value congruent to `x`: what the JVM keeps of an exact result. */
  function Wrap(x: int): (r: Int32)
    ensures MIN_INT <= x <= MAX_INT ==> r == x
    ensures (x - r) % MODULUS == 0
  {
    (x - MIN_INT) % MODULUS + MIN_INT
  }

  /** Integer quotient rounded toward zero, as `Int./` computes it before wrapping. */
  function Quot(a: int, b: int): (q: int)
    requires b != 0
    ensures 0 <= a && 0 < b ==> q == a / b
    ensures (a >= 0) == (b > 0) ==> q >= 0
    ensures (a >= 0) != (b > 0) ==> q <= 0
  {
    if a >= 0 then
      (if b > 0 then a / b else -(a / -b))
    else
      (if b > 0 then -((-a) / b) else (-a) / (-b))
  }

  /** Truncation is symmetric: negating either operand negates the quotient. */
  lemma QuotOddSymmetric(a: int, b: int)
    requires b != 0
    ensures Quot(-a, b) == -Quot(a, b) && Quot(a, -b) == -Quot(a, b)
  {
  }

  /** Remainder of `Quot`: `a - b * Quot(a, b)`, the value of Kotlin's `a % b`. */
  function Rem(a: int, b: int): (r: int)
    requires b != 0
    ensures a == b * Quot(a, b) + r
    ensures a >= 0 ==> 0 <= r < (if b > 0 then b else -b)
    ensures a < 0 ==> -(if b > 0 then b else -b) < r <= 0
  {
    a - b * Quot(a, b)
  }

  /** Kotlin `a * b` on `Int`. */
  function Mul32(a: Int32, b: Int32): Int32 {
    Wrap(a * b)
  }

  /** Kotlin `a / b` on `Int` (only `MIN_INT / -1` overflows, and wraps). */
  function Div32(a: Int32, b: Int32): Int32
    requires b != 0
  {
    Wrap(Quot(a, b))
  }

}
