/**
 * Fixed-width unsigned integers and their little-endian byte images, as the
 * plugin's WAV header holds them in memory on a little-endian host.
 */
module Bytes {
  newtype uint8 = x: int | 0 <= x < 0x100
  newtype uint16 = x: int | 0 <= x < 0x1_0000
  newtype uint32 = x: int | 0 <= x < 0x1_0000_0000

  const TwoTo32: nat := 0x1_0000_0000

  /** The C conversion `(uint32_t)n` of a non-negative value: the low 32 bits. */
  function ToUint32(n: nat): (r: uint32)
    ensures n < TwoTo32 ==> r as int == n
    ensures r as int <= n && (n - r as int) % TwoTo32 == 0
  {
    (n % TwoTo32) as uint32
  }

  /** Little-endian image of a 16-bit value. */
  function Le16(x: uint16): (b: seq<uint8>)
    ensures |b| == 2
  {
    [(x % 0x100) as uint8, (x / 0x100) as uint8]
  }

  /** Little-endian image of a 32-bit value: low half first. */
  function Le32(x: uint32): (b: seq<uint8>)
    ensures |b| == 4
  {
    Le16((x % 0x1_0000) as uint16) + Le16((x / 0x1_0000) as uint16)
  }

  function ReadLe16(b: seq<uint8>): uint16
    requires |b| == 2
  {
    (b[0] as int + 0x100 * b[1] as int) as uint16
  }

  function ReadLe32(b: seq<uint8>): uint32
    requires |b| == 4
  {
    (ReadLe16(b[..2]) as int + 0x1_0000 * ReadLe16(b[2..]) as int) as uint32
  }

  lemma Le16RoundTrip(x: uint16)
    ensures ReadLe16(Le16(x)) == x
  {
  }

  lemma ReadLe16RoundTrip(b: seq<uint8>)
    requires |b| == 2
    ensures Le16(ReadLe16(b)) == b
  {
  }

  lemma Le32RoundTrip(x: uint32)
    ensures ReadLe32(Le32(x)) == x
  {
    var lo, hi := (x % 0x1_0000) as uint16, (x / 0x1_0000) as uint16;
    assert Le32(x)[..2] == Le16(lo);
    assert Le32(x)[2..] == Le16(hi);
    Le16RoundTrip(lo);
    Le16RoundTrip(hi);
  }

  lemma ReadLe32RoundTrip(b: seq<uint8>)
    requires |b| == 4
    ensures Le32(ReadLe32(b)) == b
  {
    var lo, hi := ReadLe16(b[..2]), ReadLe16(b[2..]);
    var x := ReadLe32(b);
    assert x as int == lo as int + 0x1_0000 * hi as int;
    assert (x % 0x1_0000) as uint16 == lo;
    assert (x / 0x1_0000) as uint16 == hi;
    ReadLe16RoundTrip(b[..2]);
    ReadLe16RoundTrip(b[2..]);
    assert b == b[..2] + b[2..];
  }

  /** The value of a little-endian word is the weighted sum of its bytes. */
  lemma ReadLe32Weights(b: seq<uint8>)
    requires |b| == 4
    ensures ReadLe32(b) as int
         == b[0] as int + 0x100 * b[1] as int + 0x1_0000 * b[2] as int + 0x100_0000 * b[3] as int
  {
    assert b[..2] == [b[0], b[1]];
    assert b[2..] == [b[2], b[3]];
  }
}
