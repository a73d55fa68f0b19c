/** Format-version dispatch (packet.rs of the library crate): the first two
    bytes of every datagram name the game format, 2019 and 2020 select
    their decoder set and any other value is rejected.  The 2020 decoder
    set is not part of this model and is a parameter. */
module FormatDispatch {
  import opened Wire
  import opened Unpack
  import opened Header2019
  import opened PacketTypes
  import opened Dispatch2019

  /** A whole-datagram decoder: the received size and the buffer. */
  type PacketDecoder = (nat, seq<u8>) -> Result<Packet>

  /** `parse_version`: the first byte ORed with the second shifted left
      by eight in a 16-bit word.  The two bytes occupy disjoint bits and
      the shift cannot overflow, so the OR is the sum written here; the
      format is the little-endian value of the first two bytes. */
  function ParseVersion(packet: seq<u8>): (v: u16)
    requires 2 <= |packet|
    ensures v as nat == LeValue(packet[..2])
  {
    LeValueStep(packet, 0, 2);
    LeValueStep(packet, 1, 1);
    assert LeValue(packet[2..2]) == 0;
    (packet[0] as int + packet[1] as int * 0x100) as u16
  }

  /** `parse_packet`: the datagram goes to the decoder set its format
      names, whose result (success or error) is returned unchanged. */
  function ParsePacket(size: nat, packet: seq<u8>, cfg: Config2019, parse2020: PacketDecoder)
    : (r: Result<Packet>)
    requires 2 <= |packet|
    requires ParseVersion(packet) == 2019 ==> Readable2019(size, packet, cfg.headerSize)
  {
    var packetFormat := ParseVersion(packet);
    match packetFormat
    case 2019 =>
      var p :- Parse2019(size, packet, cfg);
      Ok(p)
    case 2020 =>
      var p :- parse2020(size, packet);
      Ok(p)
    case _ => Err(UnknownFormat(packetFormat))
  }

  /** The two known formats reach their own decoder set and give exactly
      its result; every other format is rejected with its number. */
  lemma RoutesByFormat(size: nat, packet: seq<u8>, cfg: Config2019, parse2020: PacketDecoder)
    requires 2 <= |packet|
    requires ParseVersion(packet) == 2019 ==> Readable2019(size, packet, cfg.headerSize)
    ensures packet[0] == 0xE3 && packet[1] == 0x07 ==>
      ParsePacket(size, packet, cfg, parse2020) == Parse2019(size, packet, cfg)
    ensures packet[0] == 0xE4 && packet[1] == 0x07 ==>
      ParsePacket(size, packet, cfg, parse2020) == parse2020(size, packet)
    ensures ParseVersion(packet) != 2019 && ParseVersion(packet) != 2020 ==>
      ParsePacket(size, packet, cfg, parse2020) == Err(UnknownFormat(ParseVersion(packet)))
  {
  }

  /** An unknown format is rejected without any decoder having a say: the
      result is the same under any decoder sets. */
  lemma UnknownFormatCallsNoDecoder(size: nat, packet: seq<u8>, cfg: Config2019, cfg': Config2019,
                                    parse2020: PacketDecoder, parse2020': PacketDecoder)
    requires 2 <= |packet| && ParseVersion(packet) != 2019 && ParseVersion(packet) != 2020
    ensures ParsePacket(size, packet, cfg, parse2020) == ParsePacket(size, packet, cfg', parse2020')
    ensures ParsePacket(size, packet, cfg, parse2020).Err?
  {
  }

  /** The format is read from the first two bytes only. */
  lemma VersionReadsTwoBytes(a: seq<u8>, b: seq<u8>)
    requires 2 <= |a| && 2 <= |b| && a[..2] == b[..2]
    ensures ParseVersion(a) == ParseVersion(b)
  {
    assert a[0] == a[..2][0] && a[1] == a[..2][1];
  }

  /** The format the dispatcher routes on is the format field of the 2019
      header read from the same datagram. */
  lemma VersionIsHeaderFormat(packet: seq<u8>)
    requires Width <= |packet|
    ensures ParseVersion(packet) == HeaderAt(packet, 0).packetFormat
  {
  }

  /** A packet's header is the header of the decoded 2019 datagram, under
      the conditions of `DecodedHeaderIsWireHeader`. */
  lemma DispatchedHeader(size: nat, packet: seq<u8>, cfg: Config2019, parse2020: PacketDecoder)
    requires Width <= |packet| && packet[0] == 0xE3 && packet[1] == 0x07
    requires Readable2019(size, packet, cfg.headerSize) && CarStatusModelled(cfg)
    requires KeepsHeader(cfg) || packet[5] == 7
    ensures ParsePacket(size, packet, cfg, parse2020).Ok? ==>
      ParsePacket(size, packet, cfg, parse2020).value.Header() == HeaderAt(packet, 0)
      && ParsePacket(size, packet, cfg, parse2020).value.Header().packetFormat == 2019
  {
    DecodedHeaderIsWireHeader(size, packet, cfg);
  }
}
