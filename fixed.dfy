/** Machine integer widths of the game's C code, and the one wrapper type the model shares. */
module Fixed {

  /** An unsigned 8-bit value (`u8`). */
  type u8 = x: int | 0 <= x < 0x100

  /** A signed 16-bit value (`s16`), the width of coordinates, task data and sprite data. */
  type s16 = x: int | -0x8000 <= x < 0x8000

  /** A 4-bit bit-field (`range.as_nybbles.x`, `range.as_nybbles.y`). */
  type nybble = x: int | 0 <= x < 0x10

  /** The `s16` result of adding or subtracting two `s16` values: two's-complement wrap-around,
      as the target does. */
  function WrapS16(x: int): (r: s16)
    requires -0x1_0000 <= x < 0x1_0000
    ensures -0x8000 <= x < 0x8000 ==> r == x
    ensures x >= 0x8000 ==> r == x - 0x1_0000
    ensures x < -0x8000 ==> r == x + 0x1_0000
  {
    if x >= 0x8000 then x - 0x1_0000 else if x < -0x8000 then x + 0x1_0000 else x
  }

  /** The conversion of any int to `s16`: the low 16 bits, read as two's complement. */
  function TruncateS16(x: int): (r: s16)
    ensures -0x8000 <= x < 0x8000 ==> r == x
    ensures (x - r) % 0x1_0000 == 0
  {
    (x + 0x8000) % 0x1_0000 - 0x8000
  }

  datatype Option<T> = None | Some(value: T)
}
