// The optional value shared by the platform modules: a committed console
// line, an engine key, an allocated voice.
module Wrappers {
  datatype Option<T> = None | Some(value: T)
}

// Bytes as C reads them into a plain (signed) char.
module CChar {
  type Byte = b: int | 0 <= b < 256

  /** The value of a byte read into a signed char: two's complement on 8 bits. */
  function Signed(b: Byte): (k: int)
    ensures -128 <= k < 128 && (k < 0 <==> b >= 128) && (k - b) % 256 == 0
  {
    if b >= 128 then b - 256 else b
  }
}
