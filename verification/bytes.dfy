/** The integer widths the controller works with: device ids and presets are
    C# `ushort`, frame bytes are C# `byte`. */
module Bytes {

  type byte = b: int | 0 <= b < 0x100
  type ushort = u: int | 0 <= u < 0x1_0000

  /** The C# `(byte)` cast of a non-negative int: keeps the low 8 bits. */
  function ToByte(x: nat): byte
  {
    x % 0x100
  }

  /** `(byte) (_id >> 8)`: the shift of a `ushort` promoted to `int`, then the cast. */
  function HighByte(id: ushort): byte
  {
    ToByte(id / 0x100)
  }

  /** `(byte) (_id & 0xFF)`: on a non-negative int, masking with 0xFF keeps the remainder mod 256. */
  function LowByte(id: ushort): byte
  {
    ToByte(id % 0x100)
  }
}
