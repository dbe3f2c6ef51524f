/**
 * Integer widths of the AVR target the firmware is built for: `size_t` and
 * `unsigned int` are 16 bits wide, `unsigned long` and `long` are 32 bits wide.
 * Unsigned arithmetic wraps; the model writes each wrap out.
 */
module Machine {

  const SIZE_T_MODULUS: nat := 0x1_0000
  const U32_MODULUS: nat := 0x1_0000_0000
  const LONG_LIMIT: nat := 0x8000_0000

  /** A value of type `size_t`. */
  type SizeT = x: int | 0 <= x < 0x1_0000

  /** A value of type `unsigned long`, e.g. a `micros()` time stamp. */
  type U32 = x: int | 0 <= x < 0x1_0000_0000

  /** The `size_t` that an unsigned computation with mathematical result `x` yields. */
  function WrapSize(x: int): (r: SizeT)
    ensures 0 <= x < SIZE_T_MODULUS ==> r == x
    ensures (r - x) % SIZE_T_MODULUS == 0
  {
    x % SIZE_T_MODULUS
  }

  /** `now - since` computed on `unsigned long`: the time elapsed across a counter overflow. */
  function Elapsed(now: U32, since: U32): (d: U32)
    ensures (since + d) % U32_MODULUS == now
    ensures since <= now ==> d == now - since
  {
    (now - since) % U32_MODULUS
  }

  /** The conversion of an `unsigned long` to `long` (two's complement). */
  function ToLong(x: U32): (r: int)
    ensures -(LONG_LIMIT as int) <= r < LONG_LIMIT
    ensures (r - x) % U32_MODULUS == 0
    ensures r >= 0 <==> x < LONG_LIMIT
  {
    if x < LONG_LIMIT then x else x - U32_MODULUS
  }
}
