/** Scalar helpers of the math layer: the C `int` type and the two absolute values. */
module Scalars {

  /** The C++ `int` of the renderer: a 32-bit two's-complement integer. */
  newtype int32 = x: int | -0x8000_0000 <= x < 0x8000_0000

  const INT32_MIN: int := -0x8000_0000
  const INT32_MAX: int := 0x7FFF_FFFF

  /** `IntAbs`: negating INT32_MIN overflows, which C++ leaves undefined, so callers must avoid it. */
  function IntAbs(x: int32): (r: int32)
    requires x as int != INT32_MIN
    ensures 0 <= r
    ensures r == x || r == -x
    ensures x <= r
  {
    if x > 0 then x else -x
  }

  /** `Abs` on a float, with `float` modelled as `real`. */
  function Abs(x: real): real
  {
    if x > 0.0 then x else -x
  }

  /** `Abs` is the magnitude: non-negative, and `x` or `-x`. */
  lemma AbsIsMagnitude(x: real)
    ensures 0.0 <= Abs(x)
    ensures Abs(x) == x || Abs(x) == -x
    ensures x <= Abs(x) && -x <= Abs(x)
  {
  }
}
