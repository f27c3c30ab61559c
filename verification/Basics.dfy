/** Shared data types: bytes, the usual Option and Result, and machine word bounds. */
module Basics {

  type Byte = b: int | 0 <= b < 0x100

  const U31: int := 0x8000_0000
  const U32: int := 0x1_0000_0000
  const U61: int := 0x2000_0000_0000_0000
  const U63: int := 0x8000_0000_0000_0000
  const U64: int := 0x1_0000_0000_0000_0000

  datatype Option<+T> = None | Some(value: T) {
    function GetOr(default: T): T {
      match this
      case Some(v) => v
      case None => default
    }
  }

  datatype Result<+T, +E> = Ok(value: T) | Err(error: E)
}
