/** Packet-type dispatch for the 2019 format (packet.rs of the 2019
    crate): a size check against the header size, the header read from a
    fresh cursor, the header's packet id mapped through the closed 0..7
    table, then the payload decoder for that type.  The session, lap,
    event, participants and telemetry decoders are not part of this
    model and are parameters; the car-status decoder is the one of
    `CarStatus2019`. */
module Dispatch2019 {
  import opened Wire
  import opened Unpack
  import opened Header2019
  import opened SessionData
  import opened CarStatus2019
  import opened PacketTypes

  /** The wire id of a packet type. */
  function PacketTypeId(t: PacketType): u8 {
    match t
    case Motion => 0
    case Session => 1
    case LapData => 2
    case Event => 3
    case Participants => 4
    case CarSetups => 5
    case CarTelemetry => 6
    case CarStatus => 7
  }

  /** `PacketType::try_from`: ids 0 to 7 name the eight types in table
      order; every other id is rejected with the id it carried. */
  function PacketTypeFrom(v: u8): (r: Result<PacketType>)
    ensures r.Ok? <==> v < 8
    ensures r.Ok? ==> PacketTypeId(r.value) == v
    ensures r.Err? ==> r.error == InvalidPacketType(v)
  {
    match v
    case 0 => Ok(PacketType.Motion)
    case 1 => Ok(PacketType.Session)
    case 2 => Ok(PacketType.LapData)
    case 3 => Ok(PacketType.Event)
    case 4 => Ok(PacketType.Participants)
    case 5 => Ok(PacketType.CarSetups)
    case 6 => Ok(PacketType.CarTelemetry)
    case 7 => Ok(PacketType.CarStatus)
    case _ => Err(InvalidPacketType(v))
  }

  /** Every packet type is recognised from its own id. */
  lemma PacketTypeIdRoundTrip(t: PacketType)
    ensures PacketTypeFrom(PacketTypeId(t)) == Ok(t)
  {
  }

  /** A payload decoder not part of this model: the buffer, the cursor
      position after the header, and the header already read. */
  type PayloadDecoder<T> = (seq<u8>, nat, PacketHeader) -> Result<T>

  /** What the 2019 dispatcher depends on besides the datagram: the size
      of the in-memory header struct, the payload decoders that are not
      part of this model and the flag validator. */
  datatype Config2019 = Config2019(
    headerSize: nat,
    session: PayloadDecoder<PacketSessionData>,
    lap: PayloadDecoder<PacketLapData>,
    event: PayloadDecoder<PacketEventData>,
    participants: PayloadDecoder<PacketParticipantsData>,
    carTelemetry: PayloadDecoder<PacketCarTelemetryData>,
    carStatus: PayloadDecoder<PacketCarStatusData>,
    flagOf: FlagDecoder)

  /** The decoder set's car-status entry is the car-status decoder of this
      model, over the set's own flag validator, wherever the buffer holds
      the twenty records. */
  ghost predicate CarStatusModelled(cfg: Config2019) {
    forall d, p: nat, h :: p + NumCars * CarWidth <= |d| ==>
      cfg.carStatus(d, p, h) == CarStatusPacketAt(d, p, h, cfg.flagOf)
  }

  /** The datagram holds every byte the dispatcher reads: nothing if the
      size check fails, else the header and, for a car-status packet, the
      twenty records after it.  The source panics when a read runs past the
      end; a car-status datagram shorter than this whose early record field
      fails validation is an error in the source instead, a case this
      precondition leaves out. */
  predicate Readable2019(size: nat, packet: seq<u8>, headerSize: nat) {
    size < headerSize
    || (Width <= |packet| && (packet[5] == 7 ==> Width + NumCars * CarWidth <= |packet|))
  }

  /** The payload step of `parse_packet`: the decoder for the recognised
      type runs from the end of the header and its result is wrapped in the
      matching variant; Motion and CarSetups have no decoder. */
  function Payload2019(packetId: PacketType, packet: seq<u8>, header: PacketHeader, cfg: Config2019)
    : (r: Result<Packet>)
    ensures r.Ok? ==> r.value.Kind() == packetId
    ensures packetId.Motion? || packetId.CarSetups? ==> r == Err(NotImplemented(packetId))
    ensures packetId.Session? && cfg.session(packet, Width, header).Ok? ==>
      r == Ok(Packet.Session(cfg.session(packet, Width, header).value))
    ensures packetId.LapData? && cfg.lap(packet, Width, header).Ok? ==>
      r == Ok(Packet.Lap(cfg.lap(packet, Width, header).value))
    ensures packetId.Event? && cfg.event(packet, Width, header).Ok? ==>
      r == Ok(Packet.Event(cfg.event(packet, Width, header).value))
    ensures packetId.Participants? && cfg.participants(packet, Width, header).Ok? ==>
      r == Ok(Packet.Participants(cfg.participants(packet, Width, header).value))
    ensures packetId.CarTelemetry? && cfg.carTelemetry(packet, Width, header).Ok? ==>
      r == Ok(Packet.CarTelemetry(cfg.carTelemetry(packet, Width, header).value))
    ensures packetId.CarStatus? && cfg.carStatus(packet, Width, header).Ok? ==>
      r == Ok(Packet.CarStatus(cfg.carStatus(packet, Width, header).value))
  {
    match packetId
    case Session =>
      var p :- cfg.session(packet, Width, header);
      Ok(Packet.Session(p))
    case LapData =>
      var p :- cfg.lap(packet, Width, header);
      Ok(Packet.Lap(p))
    case Event =>
      var p :- cfg.event(packet, Width, header);
      Ok(Packet.Event(p))
    case Participants =>
      var p :- cfg.participants(packet, Width, header);
      Ok(Packet.Participants(p))
    case CarTelemetry =>
      var p :- cfg.carTelemetry(packet, Width, header);
      Ok(Packet.CarTelemetry(p))
    case CarStatus =>
      var p :- cfg.carStatus(packet, Width, header);
      Ok(Packet.CarStatus(p))
    case _ => Err(NotImplemented(packetId))
  }

  /** `parse_packet` of the 2019 format: the size check, the header, the
      packet id, then the payload. */
  function Parse2019(size: nat, packet: seq<u8>, cfg: Config2019): (r: Result<Packet>)
    requires Readable2019(size, packet, cfg.headerSize)
    ensures size < cfg.headerSize ==> r == Err(TooSmall(size))
    ensures size >= cfg.headerSize && packet[5] >= 8 ==> r == Err(InvalidPacketType(packet[5]))
    ensures size >= cfg.headerSize && (packet[5] == 0 || packet[5] == 5) ==>
      r == Err(NotImplemented(PacketTypeFrom(packet[5]).value))
    ensures r.Ok? ==> size >= cfg.headerSize && PacketTypeId(r.value.Kind()) == packet[5]
    ensures size >= cfg.headerSize && packet[5] < 8 ==>
      r == Payload2019(PacketTypeFrom(packet[5]).value, packet, HeaderAt(packet, 0), cfg)
  {
    if size < cfg.headerSize then Err(TooSmall(size))
    else
      var header := HeaderAt(packet, 0);
      var packetId :- PacketTypeFrom(header.packetId);
      Payload2019(packetId, packet, header, cfg)
  }

  /** A packet smaller than the header is rejected whatever its bytes and
      whatever the payload decoders would do. */
  lemma TooSmallIgnoresContents(size: nat, a: seq<u8>, b: seq<u8>, cfg: Config2019, cfg': Config2019)
    requires size < cfg.headerSize && cfg'.headerSize == cfg.headerSize
    ensures Parse2019(size, a, cfg) == Parse2019(size, b, cfg') == Err(TooSmall(size))
  {
  }

  /** The decision before any payload decoder runs depends on the size
      and the header only: an out-of-table id or an unimplemented type
      gives the same error under any payload decoders. */
  lemma IdCheckPrecedesPayload(size: nat, packet: seq<u8>, cfg: Config2019, cfg': Config2019)
    requires Readable2019(size, packet, cfg.headerSize)
    requires cfg'.headerSize == cfg.headerSize && size >= cfg.headerSize
    requires packet[5] >= 8 || packet[5] == 0 || packet[5] == 5
    ensures Parse2019(size, packet, cfg) == Parse2019(size, packet, cfg')
    ensures Parse2019(size, packet, cfg).Err?
  {
  }

  /** An implemented type's decoder error comes back unchanged. */
  lemma PayloadErrorPassesThrough(size: nat, packet: seq<u8>, cfg: Config2019)
    requires Readable2019(size, packet, cfg.headerSize) && size >= cfg.headerSize
    ensures var h := HeaderAt(packet, 0);
      && (h.packetId == 1 && cfg.session(packet, Width, h).Err? ==>
            Parse2019(size, packet, cfg) == Err(cfg.session(packet, Width, h).error))
      && (h.packetId == 2 && cfg.lap(packet, Width, h).Err? ==>
            Parse2019(size, packet, cfg) == Err(cfg.lap(packet, Width, h).error))
      && (h.packetId == 3 && cfg.event(packet, Width, h).Err? ==>
            Parse2019(size, packet, cfg) == Err(cfg.event(packet, Width, h).error))
      && (h.packetId == 4 && cfg.participants(packet, Width, h).Err? ==>
            Parse2019(size, packet, cfg) == Err(cfg.participants(packet, Width, h).error))
      && (h.packetId == 6 && cfg.carTelemetry(packet, Width, h).Err? ==>
            Parse2019(size, packet, cfg) == Err(cfg.carTelemetry(packet, Width, h).error))
      && (h.packetId == 7 && cfg.carStatus(packet, Width, h).Err? ==>
            Parse2019(size, packet, cfg) == Err(cfg.carStatus(packet, Width, h).error))
  {
  }

  /** Each payload decoder returns the header it is handed. */
  ghost predicate KeepsHeader(cfg: Config2019) {
    && (forall d, p, h :: cfg.session(d, p, h).Ok? ==> cfg.session(d, p, h).value.header == h)
    && (forall d, p, h :: cfg.lap(d, p, h).Ok? ==> cfg.lap(d, p, h).value.header == h)
    && (forall d, p, h :: cfg.event(d, p, h).Ok? ==> cfg.event(d, p, h).value.header == h)
    && (forall d, p, h ::
          cfg.participants(d, p, h).Ok? ==> cfg.participants(d, p, h).value.header == h)
    && (forall d, p, h ::
          cfg.carTelemetry(d, p, h).Ok? ==> cfg.carTelemetry(d, p, h).value.header == h)
  }

  /** The modelled car-status decoder hands back the header it is given
      and exactly twenty records. */
  lemma ModelledCarStatusShape(cfg: Config2019, d: seq<u8>, p: nat, h: PacketHeader)
    requires CarStatusModelled(cfg) && p + NumCars * CarWidth <= |d|
    ensures cfg.carStatus(d, p, h).Ok? ==>
      cfg.carStatus(d, p, h).value.header == h
      && |cfg.carStatus(d, p, h).value.carStatusData| == NumCars
  {
  }

  /** The payload step hands back the header it is given when the decoder
      it runs does: for a car-status packet the car-status decoder on this
      buffer, for the other types every decoder of the set. */
  lemma PayloadKeepsHeader(packetId: PacketType, packet: seq<u8>, header: PacketHeader, cfg: Config2019)
    requires packetId.CarStatus? ==>
      (cfg.carStatus(packet, Width, header).Ok? ==>
         cfg.carStatus(packet, Width, header).value.header == header)
    requires KeepsHeader(cfg) || packetId.CarStatus?
    ensures Payload2019(packetId, packet, header, cfg).Ok? ==>
      Payload2019(packetId, packet, header, cfg).value.Header() == header
  {
  }

  /** The decoded packet's header is the one at the start of the
      datagram: for car-status packets whenever the modelled decoder is in
      use, for the other types when their decoders keep the header they
      are given. */
  lemma DecodedHeaderIsWireHeader(size: nat, packet: seq<u8>, cfg: Config2019)
    requires Readable2019(size, packet, cfg.headerSize)
    requires CarStatusModelled(cfg)
    requires KeepsHeader(cfg) || (|packet| > 5 && packet[5] == 7)
    ensures Parse2019(size, packet, cfg).Ok? ==>
      Parse2019(size, packet, cfg).value.Header() == HeaderAt(packet, 0)
  {
    if size >= cfg.headerSize {
      var header := HeaderAt(packet, 0);
      var packetId := PacketTypeFrom(header.packetId);
      if packetId.Ok? {
        if packetId.value.CarStatus? {
          ModelledCarStatusShape(cfg, packet, Width, header);
        }
        PayloadKeepsHeader(packetId.value, packet, header, cfg);
      }
    }
  }

  /** End to end: a 2019 car-status datagram decodes to the twenty records
      that follow the 23 header bytes, under the header read from them, or
      fails with the first failing record's error. */
  lemma CarStatusDatagramDecodes(size: nat, packet: seq<u8>, cfg: Config2019)
    requires Readable2019(size, packet, cfg.headerSize) && CarStatusModelled(cfg)
    requires size >= cfg.headerSize && packet[5] == 7
    ensures var body := CarStatusPacketAt(packet, Width, HeaderAt(packet, 0), cfg.flagOf);
      Parse2019(size, packet, cfg)
        == (if body.Ok? then Ok(Packet.CarStatus(body.value)) else Err(body.error))
  {
  }

  /** The 2019 `parse_packet`: a fresh cursor over the datagram, the
      header read through it, then the payload decoder reading on from
      where the header ended. */
  method ParsePacket2019(size: nat, packet: seq<u8>, cfg: Config2019) returns (r: Result<Packet>)
    requires Readable2019(size, packet, cfg.headerSize) && CarStatusModelled(cfg)
    ensures r == Parse2019(size, packet, cfg)
  {
    if size < cfg.headerSize {
      return Err(TooSmall(size));
    }
    var cursor := new Cursor(packet);
    var header := ParseHeader(cursor);
    var packetId :- PacketTypeFrom(header.packetId);
    r := ParsePayload2019(packetId, cursor, header, cfg);
  }

  /** The payload step over the cursor left after the header. */
  method ParsePayload2019(packetId: PacketType, cursor: Cursor, header: PacketHeader, cfg: Config2019)
    returns (r: Result<Packet>)
    requires cursor.pos == Width
    requires packetId.CarStatus? ==> Width + NumCars * CarWidth <= |cursor.data|
    requires CarStatusModelled(cfg)
    modifies cursor
    ensures r == Payload2019(packetId, cursor.data, header, cfg)
  {
    match packetId
    case Session =>
      var p :- cfg.session(cursor.data, cursor.pos, header);
      r := Ok(Packet.Session(p));
    case LapData =>
      var p :- cfg.lap(cursor.data, cursor.pos, header);
      r := Ok(Packet.Lap(p));
    case Event =>
      var p :- cfg.event(cursor.data, cursor.pos, header);
      r := Ok(Packet.Event(p));
    case Participants =>
      var p :- cfg.participants(cursor.data, cursor.pos, header);
      r := Ok(Packet.Participants(p));
    case CarTelemetry =>
      var p :- cfg.carTelemetry(cursor.data, cursor.pos, header);
      r := Ok(Packet.CarTelemetry(p));
    case CarStatus =>
      var p :- ParseCarStatusData(cursor, header, cfg.flagOf);
      r := Ok(Packet.CarStatus(p));
    case _ =>
      r := Err(NotImplemented(packetId));
  }
}
