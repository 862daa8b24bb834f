/**
 * Go strings and byte slices. A Go `string` is a sequence of bytes, and
 * `len` and slicing count bytes; a `GoString` is a sequence of characters
 * each of which is one byte, so text outside ASCII appears as its UTF-8 bytes.
 */
module GoBytes {

  /** One byte of a Go string. */
  type byte = c: char | c as int < 256

  type GoString = seq<byte>
}
