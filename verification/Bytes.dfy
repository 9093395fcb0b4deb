/** Bytes and the 20-byte addresses made of them. */
module Bytes {

  type byte = x: int | 0 <= x < 256

  type Address = bytes: seq<byte> | |bytes| == 20 witness seq(20, i => 0)
}
