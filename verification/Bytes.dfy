/** Bytes and Go's fixed-width integers, as subsets of int. */
module Bytes {
  type byte = x: int | 0 <= x < 256
  type bytes = seq<byte>
  type int32 = x: int | -0x8000_0000 <= x < 0x8000_0000
  type uint32 = x: int | 0 <= x < 0x1_0000_0000
  type uint16 = x: int | 0 <= x < 0x1_0000

  /** Go's uint32(v). */
  function Unsigned(v: int32): uint32 {
    if v < 0 then v + 0x1_0000_0000 else v
  }

  /** Go's int32(n): the low 32 bits of n, read as two's complement. */
  function Signed(n: int): int32 {
    var w := n % 0x1_0000_0000;
    if w < 0x8000_0000 then w else w - 0x1_0000_0000
  }

  /** binary.BigEndian.PutUint16 / Uint16. */
  function PutUint16(n: uint16): bytes {
    [n / 256, n % 256]
  }

  function Uint16(hi: byte, lo: byte): uint16 {
    hi * 256 + lo
  }
}
