// Strings of bytes.
module ByteStrings {

  newtype byte = x: int | 0 <= x < 256
  type Bytes = seq<byte>

  // What is left of s after skipping n bytes, which may be more than it has.
  function Skip(s: Bytes, n: nat): Bytes {
    if n <= |s| then s[n..] else []
  }
}
