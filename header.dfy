/** The packet header and its 2019 decoder (f1_2019/header.rs).  The 2019
    header is nine fields read back to back from the start of the datagram;
    the second-player index, which the 2019 wire does not carry, is filled
    with the 255 "no car" sentinel. */
module Header2019 {
  import opened Wire

  datatype PacketHeader = PacketHeader(
    packetFormat: u16,
    gameMajorVersion: u8,
    gameMinorVersion: u8,
    packetVersion: u8,
    packetId: u8,
    sessionUid: u64,
    sessionTime: F32,
    frameIdentifier: u32,
    playerCarIndex: u8,
    secondaryPlayerCarIndex: u8)

  /** Bytes the 2019 header decoder consumes: 2+1+1+1+1+8+4+4+1. */
  const Width: nat := 23

  /** The value the 2019 `PacketHeader::size` reports. */
  function Size(): (n: nat)
    ensures n == Width + 1
  {
    24
  }

  /** The header the 2019 decoder reads at offset p. */
  function HeaderAt(data: seq<u8>, p: nat): (h: PacketHeader)
    requires p + Width <= |data|
    ensures h.packetId == data[p + 5] && h.playerCarIndex == data[p + 22]
    ensures h.packetFormat as int == data[p] as int + 256 * data[p + 1] as int
    ensures h.secondaryPlayerCarIndex == 255
  {
    PacketHeader(
      U16At(data, p),
      data[p + 2],
      data[p + 3],
      data[p + 4],
      data[p + 5],
      U64At(data, p + 6),
      F32At(data, p + 14),
      U32At(data, p + 18),
      data[p + 22],
      255)
  }

  /** The 2019 wire image of a header: its fields in read order,
      little-endian; the second-player index is not written. */
  function Encode(h: PacketHeader): (bytes: seq<u8>)
    ensures |bytes| == Width
  {
    Pow256Widths();
    LeBytes(h.packetFormat as nat, 2)
    + [h.gameMajorVersion, h.gameMinorVersion, h.packetVersion, h.packetId]
    + LeBytes(h.sessionUid as nat, 8)
    + LeBytes(h.sessionTime.bits as nat, 4)
    + LeBytes(h.frameIdentifier as nat, 4)
    + [h.playerCarIndex]
  }

  /** Decoding a header encoded field by field, whatever follows it,
      returns every field unchanged (the second-player index is the 2019
      sentinel). */
  lemma DecodeEncode(h: PacketHeader, rest: seq<u8>)
    requires h.secondaryPlayerCarIndex == 255
    ensures HeaderAt(Encode(h) + rest, 0) == h
  {
    Pow256Widths();
    var data := Encode(h) + rest;
    assert data[0..2] == LeBytes(h.packetFormat as nat, 2);
    assert data[6..14] == LeBytes(h.sessionUid as nat, 8);
    assert data[14..18] == LeBytes(h.sessionTime.bits as nat, 4);
    assert data[18..22] == LeBytes(h.frameIdentifier as nat, 4);
    FieldsAreLittleEndian(data, 0);
    FieldsAreLittleEndian(data, 6);
    FieldsAreLittleEndian(data, 14);
    FieldsAreLittleEndian(data, 18);
    LeValueOfLeBytes(h.packetFormat as nat, 2);
    LeValueOfLeBytes(h.sessionUid as nat, 8);
    LeValueOfLeBytes(h.sessionTime.bits as nat, 4);
    LeValueOfLeBytes(h.frameIdentifier as nat, 4);
  }

  /** The decoder drops no header byte: re-encoding what it read gives the
      23 bytes back. */
  lemma EncodeDecode(data: seq<u8>, p: nat)
    requires p + Width <= |data|
    ensures Encode(HeaderAt(data, p)) == data[p..p + Width]
  {
    Pow256Widths();
    var h := HeaderAt(data, p);
    var format := LeBytes(h.packetFormat as nat, 2);
    var uid := LeBytes(h.sessionUid as nat, 8);
    var time := LeBytes(h.sessionTime.bits as nat, 4);
    var frame := LeBytes(h.frameIdentifier as nat, 4);
    assert format == data[p..p + 2] by {
      FieldsAreLittleEndian(data, p);
      LeBytesOfLeValue(data[p..p + 2]);
    }
    assert uid == data[p + 6..p + 14] by {
      FieldsAreLittleEndian(data, p + 6);
      LeBytesOfLeValue(data[p + 6..p + 14]);
    }
    assert time == data[p + 14..p + 18] by {
      FieldsAreLittleEndian(data, p + 14);
      LeBytesOfLeValue(data[p + 14..p + 18]);
    }
    assert frame == data[p + 18..p + 22] by {
      FieldsAreLittleEndian(data, p + 18);
      LeBytesOfLeValue(data[p + 18..p + 22]);
    }
    assert [h.gameMajorVersion, h.gameMinorVersion, h.packetVersion, h.packetId] == data[p + 2..p + 6];
    assert [h.playerCarIndex] == data[p + 22..p + 23];
    assert data[p..p + Width] ==
      data[p..p + 2] + data[p + 2..p + 6] + data[p + 6..p + 14]
      + data[p + 14..p + 18] + data[p + 18..p + 22] + data[p + 22..p + 23];
  }

  /** The header depends on its 23 bytes only. */
  lemma HeaderOnlyReadsItsBytes(a: seq<u8>, b: seq<u8>)
    requires Width <= |a| && Width <= |b| && a[..Width] == b[..Width]
    ensures HeaderAt(a, 0) == HeaderAt(b, 0)
  {
    assert forall i | 0 <= i < Width :: a[i] == a[..Width][i] == b[..Width][i] == b[i];
  }

  /** `parse_header`: nine reads in wire order, each advancing the cursor. */
  method ParseHeader(c: Cursor) returns (h: PacketHeader)
    requires c.pos + Width <= |c.data|
    modifies c
    ensures c.pos == old(c.pos) + Width
    ensures h == HeaderAt(c.data, old(c.pos))
  {
    var packetFormat := c.ReadU16();
    var gameMajorVersion := c.ReadU8();
    var gameMinorVersion := c.ReadU8();
    var packetVersion := c.ReadU8();
    var packetId := c.ReadU8();
    var sessionUid := c.ReadU64();
    var sessionTime := c.ReadF32();
    var frameIdentifier := c.ReadU32();
    var playerCarIndex := c.ReadU8();
    h := PacketHeader(
      packetFormat,
      gameMajorVersion,
      gameMinorVersion,
      packetVersion,
      packetId,
      sessionUid,
      sessionTime,
      frameIdentifier,
      playerCarIndex,
      255);
  }
}
