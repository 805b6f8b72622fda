/** Bytes as the program moves them between file descriptors and packets. */
module Octets {
  newtype byte = x: int | 0 <= x < 0x100

  type bytes = seq<byte>

  const MAX_PAYLOAD: nat := 4096
}
