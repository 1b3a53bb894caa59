/** Bytes of files, streams and packets. */
module Bytes {
  newtype Byte = b: int | 0 <= b < 256
}
