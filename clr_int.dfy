/** The 32-bit signed integers of the CLR, as used for loop counters and
    array indices, with the two shift operators the decoder relies on. */
module ClrInt {

  newtype int32 = x: int | -0x8000_0000 <= x < 0x8000_0000

  /** `Array.MaxLength`, the largest length of any CLR array. Every
      `double[]` or `float[]` is at most this long. */
  const MaxArrayLength: int := 0x7FFF_FFC7

  /** C#'s `x << 1` on an `int`: the low 32 bits of `2 * x`, read back as a
      signed number. */
  function ShiftLeft1(x: int32): (r: int32)
    ensures (r as int - 2 * x as int) % 0x1_0000_0000 == 0
    ensures -0x4000_0000 <= x < 0x4000_0000 ==> r as int == 2 * x as int
  {
    var w := (2 * x as int) % 0x1_0000_0000;
    if w < 0x8000_0000 then w as int32 else (w - 0x1_0000_0000) as int32
  }

  /** C#'s `x >> 1` on an `int`: an arithmetic shift, which rounds toward
      negative infinity. */
  function ShiftRight1(x: int32): (r: int32)
    ensures 2 * r as int <= x as int < 2 * r as int + 2
  {
    (x as int / 2) as int32
  }
}
