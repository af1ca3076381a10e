/**
  * External data representation of the basic types that the console protocol
  * uses: RFC 4506 sections 4.1 (integer), 4.2 (unsigned integer) and 4.3
  * (enumeration, encoded as an integer).  All are four bytes, big endian.
  */
module Xdr {
  type byte = x: int | 0 <= x < 0x100
  type uint32 = x: int | 0 <= x < 0x1_0000_0000
  type int32 = x: int | -0x8000_0000 <= x < 0x8000_0000

  function EncodeU32(x: uint32): (b: seq<byte>)
    ensures |b| == 4
  {
    [x / 0x100_0000, x / 0x1_0000 % 0x100, x / 0x100 % 0x100, x % 0x100]
  }

  function DecodeU32(b: seq<byte>): uint32
    requires |b| == 4
  {
    var b0: int, b1: int, b2: int, b3: int := b[0], b[1], b[2], b[3];
    b0 * 0x100_0000 + b1 * 0x1_0000 + b2 * 0x100 + b3
  }

  /** Two's complement. */
  function EncodeI32(x: int32): (b: seq<byte>)
    ensures |b| == 4
  {
    EncodeU32(if x < 0 then x + 0x1_0000_0000 else x)
  }

  function DecodeI32(b: seq<byte>): int32
    requires |b| == 4
  {
    var u := DecodeU32(b);
    if u < 0x8000_0000 then u else u - 0x1_0000_0000
  }

  lemma U32RoundTrip(x: uint32)
    ensures DecodeU32(EncodeU32(x)) == x
  {
    assert x == x / 0x100 * 0x100 + x % 0x100;
    assert x / 0x100 / 0x100 == x / 0x1_0000;
    assert x / 0x1_0000 / 0x100 == x / 0x100_0000;
  }

  lemma I32RoundTrip(x: int32)
    ensures DecodeI32(EncodeI32(x)) == x
  {
    U32RoundTrip(if x < 0 then x + 0x1_0000_0000 else x);
  }
}
