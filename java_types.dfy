/** The fixed-width Java integers the builder's parameters and fields use. */
module JavaTypes {

  newtype int8 = x: int | -0x80 <= x < 0x80
  newtype int16 = x: int | -0x8000 <= x < 0x8000
  newtype int32 = x: int | -0x8000_0000 <= x < 0x8000_0000

  /**
   * Java's narrowing cast `(byte) x`: keeps the low eight bits of the
   * two's-complement value, so the result is congruent to `x` modulo 256.
   */
  function ToByte(x: int32): (b: int8)
    ensures (x as int - b as int) % 256 == 0
    ensures -0x80 <= x as int < 0x80 ==> b as int == x as int
  {
    var low := x as int % 256;
    if low < 0x80 then low as int8 else (low - 256) as int8
  }
}
