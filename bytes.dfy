/**
 * Fixed-width integers of the PLC target and their little-endian byte
 * layout. The framework copies integers into byte buffers with memcpy on a
 * little-endian controller, so a value of width n occupies n bytes, least
 * significant first.
 */
module Bytes {

  type byte = x: int | 0 <= x < 256

  const UINT8_LIMIT: int := 0x100
  const UINT16_LIMIT: int := 0x1_0000
  const UINT32_LIMIT: int := 0x1_0000_0000
  const UINT64_LIMIT: int := 0x1_0000_0000_0000_0000

  const INT8_MIN: int := -0x80
  const INT8_MAX: int := 0x7F
  const INT16_MIN: int := -0x8000
  const INT16_MAX: int := 0x7FFF
  const INT32_MIN: int := -0x8000_0000
  const INT32_MAX: int := 0x7FFF_FFFF
  const INT64_MIN: int := -0x8000_0000_0000_0000
  const INT64_MAX: int := 0x7FFF_FFFF_FFFF_FFFF

  type uint16 = x: int | 0 <= x < UINT16_LIMIT
  type uint32 = x: int | 0 <= x < UINT32_LIMIT
  type uint64 = x: int | 0 <= x < UINT64_LIMIT
  type int8 = x: int | INT8_MIN <= x <= INT8_MAX
  type int16 = x: int | INT16_MIN <= x <= INT16_MAX
  type int32 = x: int | INT32_MIN <= x <= INT32_MAX
  type int64 = x: int | INT64_MIN <= x <= INT64_MAX

  /** 256^n, the number of values n bytes can hold. */
  function Pow256(n: nat): (r: nat)
    ensures r >= 1
  {
    if n == 0 then 1 else 256 * Pow256(n - 1)
  }

  /** The n little-endian bytes of v. */
  function EncodeLE(v: nat, n: nat): (r: seq<byte>)
    requires v < Pow256(n)
    ensures |r| == n
  {
    if n == 0 then [] else [v % 256] + EncodeLE(v / 256, n - 1)
  }

  /** The unsigned value of little-endian bytes. */
  function DecodeLE(s: seq<byte>): (r: nat)
    ensures r < Pow256(|s|)
  {
    if s == [] then 0 else s[0] + 256 * DecodeLE(s[1..])
  }

  lemma {:induction false} DecodeEncode(v: nat, n: nat)
    requires v < Pow256(n)
    ensures DecodeLE(EncodeLE(v, n)) == v
  {
    if n > 0 {
      DecodeEncode(v / 256, n - 1);
      assert EncodeLE(v, n)[1..] == EncodeLE(v / 256, n - 1);
    }
  }

  lemma {:induction false} EncodeDecode(s: seq<byte>)
    ensures EncodeLE(DecodeLE(s), |s|) == s
  {
    if s != [] {
      var d := DecodeLE(s[1..]);
      ByteAndRest(s[0] as nat, d);
      EncodeDecode(s[1..]);
      assert s == [s[0]] + s[1..];
    }
  }

  /** A byte and the value above it, taken apart again. */
  lemma ByteAndRest(a: nat, d: nat)
    requires a < 256
    ensures (a + 256 * d) % 256 == a && (a + 256 * d) / 256 == d
  {
  }

  /** Two's-complement reading of a 32-bit pattern, as a cast to int32_t does. */
  function ToInt32(u: uint32): (r: int32)
    ensures r % UINT32_LIMIT == u
    ensures r >= 0 <==> u <= INT32_MAX
  {
    if u <= INT32_MAX then u else u - UINT32_LIMIT
  }

  /** The 32-bit pattern of a signed value, as a cast to uint32_t does. */
  function FromInt32(i: int32): (r: uint32)
    ensures ToInt32(r) == i
  {
    if i >= 0 then i else i + UINT32_LIMIT
  }

  /** Two's-complement reading of a 16-bit pattern, as storing a uint16_t into an int16_t does. */
  function ToInt16(u: uint16): (r: int16)
    ensures r % UINT16_LIMIT == u
    ensures r >= 0 <==> u <= INT16_MAX
  {
    if u <= INT16_MAX then u else u - UINT16_LIMIT
  }

  /** The value an integer takes when it is converted to uint16_t (reduction modulo 2^16). */
  function Uint16Of(x: int): (r: uint16)
    ensures (x - r) % UINT16_LIMIT == 0
  {
    x % UINT16_LIMIT
  }

  /** A signed 16-bit value survives the trip through a uint16_t parameter into an int16_t. */
  lemma Int16ThroughUint16(x: int16)
    ensures ToInt16(Uint16Of(x)) == x
  {
  }

  /** Two's-complement reading of a 64-bit pattern, as a cast to int64_t does. */
  function ToInt64(u: uint64): (r: int64)
    ensures r % UINT64_LIMIT == u
  {
    if u <= INT64_MAX then u else u - UINT64_LIMIT
  }

  /** The 64-bit pattern of a signed value. */
  function FromInt64(i: int64): (r: uint64)
    ensures ToInt64(r) == i
  {
    if i >= 0 then i else i + UINT64_LIMIT
  }

  lemma Pow256Values()
    ensures Pow256(1) == UINT8_LIMIT && Pow256(2) == UINT16_LIMIT
    ensures Pow256(4) == UINT32_LIMIT && Pow256(8) == UINT64_LIMIT
  {
  }

  /** The 8 bytes of an int64_t in memory, as memcpy copies them on a little-endian PLC. */
  function EncodeInt64(i: int64): (r: seq<byte>)
    ensures |r| == 8
  {
    Pow256Values();
    EncodeLE(FromInt64(i), 8)
  }

  /** The int64_t that 8 little-endian bytes hold. */
  function DecodeInt64(s: seq<byte>): (r: int64)
    requires |s| == 8
  {
    Pow256Values();
    ToInt64(DecodeLE(s))
  }

  lemma Int64RoundTrip(i: int64)
    ensures DecodeInt64(EncodeInt64(i)) == i
  {
    Pow256Values();
    DecodeEncode(FromInt64(i), 8);
  }

  /** The two bytes of a uint16_t in memory. */
  function EncodeUint16(v: uint16): (r: seq<byte>)
    ensures |r| == 2 && DecodeLE(r) == v
  {
    Pow256Values();
    DecodeEncode(v, 2);
    EncodeLE(v, 2)
  }

  /** The four bytes of a uint32_t in memory. */
  function EncodeUint32(v: uint32): (r: seq<byte>)
    ensures |r| == 4 && DecodeLE(r) == v
  {
    Pow256Values();
    DecodeEncode(v, 4);
    EncodeLE(v, 4)
  }

  /** The uint32_t that four little-endian bytes hold. */
  function DecodeUint32(s: seq<byte>): (r: uint32)
    requires |s| == 4
  {
    Pow256Values();
    DecodeLE(s)
  }

  /** Four bytes decoded and encoded again are the same four bytes. */
  lemma EncodeDecodeUint32(s: seq<byte>)
    requires |s| == 4
    ensures EncodeUint32(DecodeUint32(s)) == s
  {
    Pow256Values();
    EncodeDecode(s);
  }

  /** The n-byte two's-complement pattern of v, as memcpy of an n-byte signed integer copies it. */
  function EncodeSigned(v: int, n: nat): (r: seq<byte>)
    requires -(Pow256(n) as int) <= 2 * v < Pow256(n)
    ensures |r| == n
  {
    EncodeLE(if v >= 0 then v else v + Pow256(n), n)
  }

  /** The signed value that n little-endian bytes hold in two's complement. */
  function DecodeSigned(s: seq<byte>): (r: int)
    ensures -(Pow256(|s|) as int) <= 2 * r < Pow256(|s|)
  {
    var u := DecodeLE(s);
    if 2 * u < Pow256(|s|) then u else u - Pow256(|s|)
  }

  lemma SignedRoundTrip(v: int, n: nat)
    requires -(Pow256(n) as int) <= 2 * v < Pow256(n)
    ensures DecodeSigned(EncodeSigned(v, n)) == v
  {
    DecodeEncode(if v >= 0 then v else v + Pow256(n), n);
  }

  /** The buffer with `source` copied in at `address`. */
  function Splice(buffer: seq<byte>, address: nat, source: seq<byte>): (r: seq<byte>)
    requires address + |source| <= |buffer|
    ensures |r| == |buffer|
    ensures r[address..address + |source|] == source
    ensures forall i :: 0 <= i < |buffer| && !(address <= i < address + |source|) ==> r[i] == buffer[i]
  {
    buffer[..address] + source + buffer[address + |source|..]
  }

  /** Writing one range leaves every disjoint range as it was. */
  lemma SpliceKeepsDisjoint(buffer: seq<byte>, address: nat, source: seq<byte>, other: nat, size: nat)
    requires address + |source| <= |buffer| && other + size <= |buffer|
    requires other + size <= address || address + |source| <= other
    ensures Splice(buffer, address, source)[other..other + size] == buffer[other..other + size]
  {
    var r := Splice(buffer, address, source);
    forall i | other <= i < other + size
      ensures r[i] == buffer[i]
    {
    }
    assert r[other..other + size] == buffer[other..other + size];
  }
}
