/** The decoded packet kinds and the union `Packet` that a decoder returns
    (packet.rs).  The motion, car-setup, lap, event, participants and
    car-telemetry modules are not part of this model: their payloads hold
    the header and only the fields the display helpers read. */
module PacketTypes {
  import opened Wire
  import opened Unpack
  import opened Header2019
  import opened SessionData
  import opened CarStatus2019

  datatype PacketMotionData = PacketMotionData(header: PacketHeader)

  datatype PacketCarSetupData = PacketCarSetupData(header: PacketHeader)

  datatype PitStatus = None | Pitting | InPitArea

  /** A result status, kept as its wire code. */
  datatype ResultStatus = ResultStatus(code: u8)

  datatype LapData = LapData(
    lastLapTime: F32,
    currentLapTime: F32,
    bestLapTime: F32,
    lapDistance: F32,
    totalDistance: F32,
    carPosition: u8,
    currentLapNum: u8,
    pitStatus: PitStatus,
    penalties: u8,
    currentLapInvalid: bool,
    resultStatus: ResultStatus)

  datatype PacketLapData = PacketLapData(header: PacketHeader, lapData: seq<LapData>)

  /** A driver and a team, kept as their wire codes. */
  datatype Driver = Driver(code: u8)
  datatype Team = Team(code: u8)

  datatype ParticipantData = ParticipantData(name: string, driver: Driver, team: Team)

  datatype PacketParticipantsData = PacketParticipantsData(
    header: PacketHeader,
    participants: seq<ParticipantData>)

  /** An event: its description, the car it concerns if any and, for a
      fastest-lap event, the lap time. */
  datatype PacketEventData = PacketEventData(
    header: PacketHeader,
    description: string,
    vehicleIdx: Option<u8>,
    lapTime: Option<F32>)

  datatype CarTelemetryData = CarTelemetryData(
    speed: u16,
    throttle: F32,
    brake: F32,
    gear: i8,
    engineRpm: u16,
    drs: bool,
    revLightsPercent: u8,
    engineTemperature: u16)

  datatype PacketCarTelemetryData = PacketCarTelemetryData(
    header: PacketHeader,
    carTelemetryData: seq<CarTelemetryData>)

  /** A decoded packet of any of the eight kinds. */
  datatype Packet =
    | Motion(motion: PacketMotionData)
    | Session(session: PacketSessionData)
    | Lap(lap: PacketLapData)
    | Event(event: PacketEventData)
    | Participants(participants: PacketParticipantsData)
    | CarSetups(carSetups: PacketCarSetupData)
    | CarTelemetry(carTelemetry: PacketCarTelemetryData)
    | CarStatus(carStatus: PacketCarStatusData)
  {
    /** `Packet::header`: the header stored in whichever payload is held. */
    function Header(): PacketHeader {
      match this
      case Motion(p) => p.header
      case Session(p) => p.header
      case Lap(p) => p.header
      case Event(p) => p.header
      case Participants(p) => p.header
      case CarSetups(p) => p.header
      case CarTelemetry(p) => p.header
      case CarStatus(p) => p.header
    }

    /** The packet type whose decoder yields this variant. */
    function Kind(): PacketType {
      match this
      case Motion(_) => PacketType.Motion
      case Session(_) => PacketType.Session
      case Lap(_) => PacketType.LapData
      case Event(_) => PacketType.Event
      case Participants(_) => PacketType.Participants
      case CarSetups(_) => PacketType.CarSetups
      case CarTelemetry(_) => PacketType.CarTelemetry
      case CarStatus(_) => PacketType.CarStatus
    }
  }
}
