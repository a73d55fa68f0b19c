/** Fixed-width wire integers, little-endian byte order and the reader
    cursor that the decoders advance.  The reader stands for a
    `std::io::Cursor` over the datagram read through `byteorder`: every read
    takes a fixed number of bytes at the current position, decodes them
    little-endian and moves the position past them. */
module Wire {

  newtype u8 = x: int | 0 <= x < 0x100
  newtype u16 = x: int | 0 <= x < 0x1_0000
  newtype u32 = x: int | 0 <= x < 0x1_0000_0000
  newtype u64 = x: int | 0 <= x < 0x1_0000_0000_0000_0000
  newtype i8 = x: int | -0x80 <= x < 0x80

  /** An IEEE-754 single, carried as its 32-bit pattern; no float value
      is ever computed from it. */
  datatype F32 = F32(bits: u32)

  /** 256 to the power n: one more than the largest n-byte unsigned value. */
  function Pow256(n: nat): (r: nat)
    ensures r >= 1
  {
    if n == 0 then 1 else 256 * Pow256(n - 1)
  }

  /** The widths the decoders read: 2, 4 and 8 bytes span exactly the
      unsigned 16-, 32- and 64-bit ranges. */
  lemma Pow256Widths()
    ensures Pow256(1) == 0x100 && Pow256(2) == 0x1_0000
    ensures Pow256(4) == 0x1_0000_0000 && Pow256(8) == 0x1_0000_0000_0000_0000
  {
    assert Pow256(3) == 0x100_0000;
    assert Pow256(5) == 0x100_0000_0000;
    assert Pow256(6) == 0x1_0000_0000_0000;
    assert Pow256(7) == 0x100_0000_0000_0000;
  }

  /** The unsigned value of a little-endian byte string: the first byte is
      the least significant. */
  function LeValue(bytes: seq<u8>): (v: nat)
    ensures v < Pow256(|bytes|)
  {
    if |bytes| == 0 then 0
    else
      var rest := LeValue(bytes[1..]);
      assert 256 * rest <= 256 * (Pow256(|bytes| - 1) - 1);
      bytes[0] as nat + 256 * rest
  }

  /** The n-byte little-endian encoding of x. */
  function LeBytes(x: nat, n: nat): (bytes: seq<u8>)
    requires x < Pow256(n)
    ensures |bytes| == n
  {
    if n == 0 then [] else [(x % 256) as u8] + LeBytes(x / 256, n - 1)
  }

  /** Decoding an encoding gives the number back. */
  lemma {:induction false} LeValueOfLeBytes(x: nat, n: nat)
    requires x < Pow256(n)
    ensures LeValue(LeBytes(x, n)) == x
  {
    if n > 0 {
      LeValueOfLeBytes(x / 256, n - 1);
      assert LeBytes(x, n)[1..] == LeBytes(x / 256, n - 1);
    }
  }

  /** Encoding a decoded byte string gives the bytes back: no byte is lost. */
  lemma {:induction false} LeBytesOfLeValue(bytes: seq<u8>)
    ensures LeBytes(LeValue(bytes), |bytes|) == bytes
  {
    if |bytes| > 0 {
      LeBytesOfLeValue(bytes[1..]);
      var v := LeValue(bytes);
      assert v % 256 == bytes[0] as nat && v / 256 == LeValue(bytes[1..]);
    }
  }

  /** Reinterpretation of one byte as a two's-complement signed byte. */
  function AsI8(b: u8): (v: i8)
    ensures (v as int) % 256 == b as int
  {
    if b < 0x80 then b as int as i8 else (b as int - 0x100) as i8
  }

  /** The byte that carries a signed byte on the wire. */
  function I8Byte(v: i8): (b: u8)
    ensures AsI8(b) == v
  {
    if v >= 0 then v as int as u8 else (v as int + 0x100) as u8
  }

  /** The 16-bit little-endian field at offset p. */
  function U16At(data: seq<u8>, p: nat): u16
    requires p + 2 <= |data|
  {
    (data[p] as int + 0x100 * data[p + 1] as int) as u16
  }

  /** The 32-bit little-endian field at offset p. */
  function U32At(data: seq<u8>, p: nat): u32
    requires p + 4 <= |data|
  {
    (data[p] as int + 0x100 * data[p + 1] as int
     + 0x1_0000 * data[p + 2] as int + 0x100_0000 * data[p + 3] as int) as u32
  }

  /** The 64-bit little-endian field at offset p. */
  function U64At(data: seq<u8>, p: nat): u64
    requires p + 8 <= |data|
  {
    (U32At(data, p) as int + 0x1_0000_0000 * U32At(data, p + 4) as int) as u64
  }

  /** One step of the little-endian value of a slice: its first byte plus
      256 times the value of the rest. */
  lemma LeValueStep(data: seq<u8>, p: nat, n: nat)
    requires 0 < n && p + n <= |data|
    ensures LeValue(data[p..p + n]) == data[p] as nat + 256 * LeValue(data[p + 1..p + n])
  {
    assert data[p..p + n][1..] == data[p + 1..p + n];
  }

  /** The fixed-width reads are the little-endian values of their bytes. */
  lemma FieldsAreLittleEndian(data: seq<u8>, p: nat)
    ensures p + 2 <= |data| ==> U16At(data, p) as nat == LeValue(data[p..p + 2])
    ensures p + 4 <= |data| ==> U32At(data, p) as nat == LeValue(data[p..p + 4])
    ensures p + 8 <= |data| ==> U64At(data, p) as nat == LeValue(data[p..p + 8])
  {
    if p + 2 <= |data| {
      LeValueStep(data, p, 2);
      LeValueStep(data, p + 1, 1);
      assert LeValue(data[p + 2..p + 2]) == 0;
    }
    if p + 4 <= |data| {
      LeValueStep(data, p, 4);
      LeValueStep(data, p + 1, 3);
      LeValueStep(data, p + 2, 2);
      LeValueStep(data, p + 3, 1);
      assert LeValue(data[p + 4..p + 4]) == 0;
    }
    if p + 8 <= |data| {
      LeValueStep(data, p, 8);
      LeValueStep(data, p + 1, 7);
      LeValueStep(data, p + 2, 6);
      LeValueStep(data, p + 3, 5);
      LeValueStep(data, p + 4, 4);
      LeValueStep(data, p + 5, 3);
      LeValueStep(data, p + 6, 2);
      LeValueStep(data, p + 7, 1);
      assert LeValue(data[p + 8..p + 8]) == 0;
    }
  }

  function F32At(data: seq<u8>, p: nat): F32
    requires p + 4 <= |data|
  {
    F32(U32At(data, p))
  }

  /** A reader over an immutable datagram buffer.  A read past the end of
      the buffer makes the source panic (every read is unwrapped), so each
      read requires the bytes it takes. */
  class Cursor {
    const data: seq<u8>
    var pos: nat

    constructor (data: seq<u8>)
      ensures this.data == data && pos == 0
    {
      this.data := data;
      pos := 0;
    }

    method ReadU8() returns (v: u8)
      requires pos + 1 <= |data|
      modifies this
      ensures v == data[old(pos)] && pos == old(pos) + 1
    {
      v := data[pos];
      pos := pos + 1;
    }

    method ReadI8() returns (v: i8)
      requires pos + 1 <= |data|
      modifies this
      ensures v == AsI8(data[old(pos)]) && pos == old(pos) + 1
    {
      v := AsI8(data[pos]);
      pos := pos + 1;
    }

    method ReadU16() returns (v: u16)
      requires pos + 2 <= |data|
      modifies this
      ensures v == U16At(data, old(pos)) && pos == old(pos) + 2
    {
      v := U16At(data, pos);
      pos := pos + 2;
    }

    method ReadU32() returns (v: u32)
      requires pos + 4 <= |data|
      modifies this
      ensures v == U32At(data, old(pos)) && pos == old(pos) + 4
    {
      v := U32At(data, pos);
      pos := pos + 4;
    }

    method ReadU64() returns (v: u64)
      requires pos + 8 <= |data|
      modifies this
      ensures v == U64At(data, old(pos)) && pos == old(pos) + 8
    {
      v := U64At(data, pos);
      pos := pos + 8;
    }

    method ReadF32() returns (v: F32)
      requires pos + 4 <= |data|
      modifies this
      ensures v == F32At(data, old(pos)) && pos == old(pos) + 4
    {
      v := F32At(data, pos);
      pos := pos + 4;
    }
  }
}
