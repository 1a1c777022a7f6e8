/** Java `int` values and the integer arithmetic the player code applies to them. */
module JavaInt {

  /** A Java 32-bit signed `int`. */
  type Int32 = x: int | -0x8000_0000 <= x <= 0x7FFF_FFFF

  /**
   * `ms / 1000` on Java ints: the quotient is truncated toward zero, so the
   * remainder has the sign of `ms` (Dafny's own `/` is Euclidean).
   */
  function SecondsOf(ms: Int32): (s: Int32)
    ensures ms >= 0 ==> 0 <= ms - s * 1000 < 1000
    ensures ms < 0 ==> -1000 < ms - s * 1000 <= 0
  {
    var m: int := ms;
    if m >= 0 then m / 1000 else -((-m) / 1000)
  }
}
