/**
 * The machine types of the ESP32 Arduino core that the sketch relies on:
 * 32-bit `unsigned long` arithmetic and the 32-bit `float` the sensor
 * readings are cached in.
 */
module Platform {

  /** 2^32: `unsigned long` is 32 bits wide on the ESP32. */
  const ULongModulus: int := 0x1_0000_0000

  /** A value of C type `unsigned long` on the ESP32. */
  type ULong = x: int | 0 <= x < ULongModulus

  /** `a - b` on `unsigned long`: the difference wraps modulo 2^32. */
  function WrapSub(a: ULong, b: ULong): ULong
  {
    if a >= b then a - b else a - b + ULongModulus
  }

  /** `a - b` on `unsigned long` is subtraction modulo 2^32. */
  lemma WrapSubIsModular(a: ULong, b: ULong)
    ensures WrapSub(a, b) == (a - b) % ULongModulus
  {
  }

  /**
   * A C `float`, kept as its 32-bit IEEE-754 pattern. The model never does
   * arithmetic on readings: it only copies them, NaN included.
   */
  datatype Float32 = Float32(bits: bv32)

  /** 0.0F, the initial value of the cached readings. */
  const FloatZero: Float32 := Float32(0)
}
