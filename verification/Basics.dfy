/** What several parts of the model share. */
module Basics {

  /** A value or its absence: a nullable column, a failed look-up, a failed decryption. */
  datatype Option<+T> = None | Some(value: T)

  datatype Result<+T, +E> = Ok(value: T) | Err(error: E)

  const TWO_32: nat := 0x1_0000_0000

  type byte = x: nat | x < 256

  function BigEndian(b: seq<byte>): (n: nat) {
    if b == [] then 0 else BigEndian(b[..|b| - 1]) * 256 + b[|b| - 1]
  }

  /** A number in `width` bytes, most significant first. */
  function ToBigEndian(n: nat, width: nat): (b: seq<byte>)
    ensures |b| == width
  {
    if width == 0 then [] else ToBigEndian(n / 256, width - 1) + [n % 256]
  }
}
