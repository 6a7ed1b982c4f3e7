/** JavaScript's `Math.round`, on exact reals. */
module Money {

  /** `Math.round(x)`: the nearest integer, halves rounded toward +infinity. */
  function Round(x: real): (r: int)
    ensures r as real - 0.5 <= x < r as real + 0.5
  {
    (x + 0.5).Floor
  }

  /** Rounding an integer-valued real gives that integer back. */
  lemma RoundOfInt(n: int)
    ensures Round(n as real) == n
  {
  }

  /** Rounding never goes backwards. */
  lemma RoundMonotone(x: real, y: real)
    requires x <= y
    ensures Round(x) <= Round(y)
  {
  }

  /** A non-negative amount rounds to a non-negative integer. */
  lemma RoundNonNegative(x: real)
    requires 0.0 <= x
    ensures 0 <= Round(x)
  {
  }

  /** Multiplying by a non-negative factor preserves order (used for the
      monotonicity of every price formula). */
  lemma MulMonotone(a: real, b: real, c: real)
    requires a <= b
    requires 0.0 <= c
    ensures a * c <= b * c
  {
  }
}
