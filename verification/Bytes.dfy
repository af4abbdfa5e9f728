/** Bytes and packets, shared by the RTL8139 rings and the mapped pages. */
module Bytes {
  type Byte = b: int | 0 <= b < 256

  type Packet = seq<Byte>

  function Max(a: int, b: int): int {
    if a >= b then a else b
  }
}
