/** The display helpers of the telemetry viewer (f1-telemetry-display
    main.rs): pure conversions from decoded packets to the records the
    screens draw.  Indexing past the end of a vector panics in the source,
    so each helper requires the indices it uses to be in range. */
module Display {
  import opened Wire
  import opened Unpack
  import opened SessionData
  import opened PacketTypes

  datatype SessionInfo = SessionInfo(
    sessionName: string,
    trackName: string,
    elapsedTime: u16,
    duration: u16,
    currentLap: u8,
    numberOfLaps: u8)

  /** `parse_session_data`: the session and track names, the time elapsed
      as duration minus time left, and the lap counters.  The subtraction
      is on 16-bit unsigned values, which the source does not guard. */
  function ParseSessionData(session: PacketSessionData, currentLap: u8): (info: SessionInfo)
    requires session.sessionTimeLeft <= session.sessionDuration
    ensures info.elapsedTime as int + session.sessionTimeLeft as int == session.sessionDuration as int
    ensures info.elapsedTime <= info.duration == session.sessionDuration
    ensures info.sessionName == session.sessionType.Name() && info.trackName == session.track.Name()
    ensures info.currentLap == currentLap && info.numberOfLaps == session.totalLaps
  {
    SessionInfo(
      session.sessionType.Name(),
      session.track.Name(),
      session.sessionDuration - session.sessionTimeLeft,
      session.sessionDuration,
      currentLap,
      session.totalLaps)
  }

  datatype LapInfo = LapInfo(
    position: u8,
    name: string,
    driver: Driver,
    team: Team,
    currentLapTime: F32,
    lastLapTime: F32,
    bestLapTime: F32,
    status: ResultStatus,
    inPit: bool,
    lapInvalid: bool,
    penalties: u8,
    lapDistance: F32,
    totalDistance: F32)

  /** One row of the lap screen: the car's lap slot beside the participant
      slot of the same index. */
  function LapRow(ld: LapData, p: ParticipantData): (li: LapInfo)
    ensures li.inPit <==> ld.pitStatus != PitStatus.None
    ensures li.position == ld.carPosition && li.status == ld.resultStatus
    ensures li.name == p.name && li.driver == p.driver && li.team == p.team
    ensures li.currentLapTime == ld.currentLapTime && li.lastLapTime == ld.lastLapTime
    ensures li.bestLapTime == ld.bestLapTime && li.lapInvalid == ld.currentLapInvalid
    ensures li.penalties == ld.penalties
    ensures li.lapDistance == ld.lapDistance && li.totalDistance == ld.totalDistance
  {
    LapInfo(
      ld.carPosition,
      p.name,
      p.driver,
      p.team,
      ld.currentLapTime,
      ld.lastLapTime,
      ld.bestLapTime,
      ld.resultStatus,
      ld.pitStatus != PitStatus.None,
      ld.currentLapInvalid,
      ld.penalties,
      ld.lapDistance,
      ld.totalDistance)
  }

  /** `parse_lap_data`: nothing without participants; otherwise one row
      per lap slot, in slot order, pushed as the slots are enumerated. */
  method ParseLapData(lapData: PacketLapData, participants: Option<PacketParticipantsData>)
    returns (r: Option<seq<LapInfo>>)
    requires participants.Some? ==> |lapData.lapData| <= |participants.value.participants|
    ensures r.None? <==> participants.None?
    ensures r.Some? ==> |r.value| == |lapData.lapData|
    ensures r.Some? ==> forall i :: 0 <= i < |r.value| ==>
      r.value[i] == LapRow(lapData.lapData[i], participants.value.participants[i])
  {
    if participants.None? {
      return Option.None;
    }
    var slots := participants.value.participants;
    var lapInfo: seq<LapInfo> := [];
    var i := 0;
    while i < |lapData.lapData|
      invariant 0 <= i <= |lapData.lapData|
      invariant |lapInfo| == i
      invariant forall k :: 0 <= k < i ==> lapInfo[k] == LapRow(lapData.lapData[k], slots[k])
    {
      lapInfo := lapInfo + [LapRow(lapData.lapData[i], slots[i])];
      i := i + 1;
    }
    r := Some(lapInfo);
  }

  datatype EventInfo = EventInfo(
    timestamp: F32,
    description: string,
    driverName: Option<string>,
    lapTime: Option<F32>)

  /** `parse_event_data`: nothing when the event names a car but there are
      no participants to name it from; otherwise the event, stamped with the
      header's session time, with the named car's driver if there is one. */
  function ParseEventData(event: PacketEventData, participants: Option<PacketParticipantsData>)
    : (r: Option<EventInfo>)
    requires event.vehicleIdx.Some? && participants.Some? ==>
      event.vehicleIdx.value as int < |participants.value.participants|
    ensures r.None? <==> event.vehicleIdx.Some? && participants.None?
    ensures r.Some? ==> (r.value.driverName.Some? <==> event.vehicleIdx.Some?)
    ensures r.Some? && event.vehicleIdx.Some? ==>
      r.value.driverName.value == participants.value.participants[event.vehicleIdx.value].name
    ensures r.Some? ==>
      r.value.timestamp == event.header.sessionTime && r.value.description == event.description
      && r.value.lapTime == event.lapTime
  {
    if event.vehicleIdx.Some? && participants.None? then Option.None
    else
      var driverName :=
        match event.vehicleIdx
        case Some(idx) => Some(participants.value.participants[idx].name)
        case None => Option.None;
      Some(EventInfo(event.header.sessionTime, event.description, driverName, event.lapTime))
  }

  datatype TelemetryInfo = TelemetryInfo(
    speed: u16,
    throttle: F32,
    brake: F32,
    gear: i8,
    engineRpm: u16,
    drs: bool,
    revLightsPercent: u8,
    engineTemperature: u16)

  /** `parse_telemetry_data`: always a record, taken from the slot of the
      player's car.  The 255 "no car" index is outside every slot array. */
  function ParseTelemetryData(telemetry: PacketCarTelemetryData): (r: Option<TelemetryInfo>)
    requires telemetry.header.playerCarIndex as int < |telemetry.carTelemetryData|
    ensures r.Some?
    ensures var car := telemetry.carTelemetryData[telemetry.header.playerCarIndex];
      && r.value.speed == car.speed && r.value.throttle == car.throttle
      && r.value.brake == car.brake && r.value.gear == car.gear
      && r.value.engineRpm == car.engineRpm && r.value.drs == car.drs
      && r.value.revLightsPercent == car.revLightsPercent
      && r.value.engineTemperature == car.engineTemperature
  {
    var car := telemetry.carTelemetryData[telemetry.header.playerCarIndex];
    Some(TelemetryInfo(
      car.speed, car.throttle, car.brake, car.gear,
      car.engineRpm, car.drs, car.revLightsPercent, car.engineTemperature))
  }

  /** `get_current_lap`: the highest current-lap number over the lap
      slots, or 0 when there are none. */
  function GetCurrentLap(laps: seq<LapData>): (m: u8)
    ensures |laps| == 0 ==> m == 0
    ensures forall i :: 0 <= i < |laps| ==> laps[i].currentLapNum <= m
    ensures |laps| > 0 ==> exists i :: 0 <= i < |laps| && laps[i].currentLapNum == m
  {
    if |laps| == 0 then 0
    else
      var rest := GetCurrentLap(laps[..|laps| - 1]);
      var last := laps[|laps| - 1].currentLapNum;
      if last > rest then last else rest
  }
}
