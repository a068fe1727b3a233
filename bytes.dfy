/** Byte-sized values shared by the status register, the stores and the CPU. */
module Bytes {

  /** An unsigned 8-bit value (a `uint8_t`, or a `char` read back as `uint8_t`). */
  type Byte = x: int | 0 <= x < 256

  /** The truncating conversion of a wider unsigned integer to a byte. */
  function Truncate(v: nat): (b: Byte)
    ensures v < 256 ==> b == v
    ensures (v - b) % 256 == 0
  {
    v % 256
  }
}
