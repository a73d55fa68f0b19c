/** The 2019 car-status decoder (f1_2019/car_status.rs): six closed
    code-to-enum validators, the fixed 56-byte per-car record and the
    20-car packet body. */
module CarStatus2019 {
  import opened Wire
  import opened Generic
  import opened Unpack
  import opened Header2019

  /** The flag validator of `packet/generic` (not part of this model): any
      total, fallible map from the signed flag code.  The error that
      `Flag::try_from` returns for a code it rejects is `FlagError(code)`. */
  type FlagDecoder = i8 -> Result<Flag>

  // ---------------------------------------------------------------- codes

  datatype TractionControl = Off | Low | High

  function TractionControlCode(t: TractionControl): u8 {
    match t
    case Off => 0
    case Low => 1
    case High => 2
  }

  function TractionControlFrom(v: u8): (r: Result<TractionControl>)
    ensures r.Ok? <==> v <= 2
    ensures r.Ok? ==> TractionControlCode(r.value) == v
    ensures r.Err? ==> r.error == InvalidValue(TractionControlField, v as int)
  {
    match v
    case 0 => Ok(TractionControl.Off)
    case 1 => Ok(TractionControl.Low)
    case 2 => Ok(TractionControl.High)
    case _ => Err(InvalidValue(TractionControlField, v as int))
  }

  datatype FuelMix = Lean | Standard | Rich | Max

  function FuelMixCode(f: FuelMix): u8 {
    match f
    case Lean => 0
    case Standard => 1
    case Rich => 2
    case Max => 3
  }

  function FuelMixFrom(v: u8): (r: Result<FuelMix>)
    ensures r.Ok? <==> v <= 3
    ensures r.Ok? ==> FuelMixCode(r.value) == v
    ensures r.Err? ==> r.error == InvalidValue(FuelMixField, v as int)
  {
    match v
    case 0 => Ok(FuelMix.Lean)
    case 1 => Ok(FuelMix.Standard)
    case 2 => Ok(FuelMix.Rich)
    case 3 => Ok(FuelMix.Max)
    case _ => Err(InvalidValue(FuelMixField, v as int))
  }

  /** DRS availability; the signed code -1 is its own variant. */
  datatype DRS = NotAllowed | Allowed | Unknown

  function DrsCode(d: DRS): i8 {
    match d
    case NotAllowed => 0
    case Allowed => 1
    case Unknown => -1
  }

  function DrsFrom(v: i8): (r: Result<DRS>)
    ensures r.Ok? <==> -1 <= v <= 1
    ensures r.Ok? ==> DrsCode(r.value) == v
    ensures r.Err? ==> r.error == InvalidValue(DrsField, v as int)
  {
    match v
    case 0 => Ok(DRS.NotAllowed)
    case 1 => Ok(DRS.Allowed)
    case -1 => Ok(DRS.Unknown)
    case _ => Err(InvalidValue(DrsField, v as int))
  }

  /** The compound actually fitted: current compounds C5 (softest) to C1
      on codes 16 to 20, historical and feeder-series compounds on 7 to 15. */
  datatype TyreCompound =
    | C5 | C4 | C3 | C2 | C1
    | Inter | Wet | ClassicDry | ClassicWet
    | F2SuperSoft | F2Soft | F2Medium | F2Hard | F2Wet
    | Invalid

  /** The canonical code of each compound; `Invalid` is written as 0. */
  function TyreCompoundCode(t: TyreCompound): u8 {
    match t
    case C5 => 16
    case C4 => 17
    case C3 => 18
    case C2 => 19
    case C1 => 20
    case Inter => 7
    case Wet => 8
    case ClassicDry => 9
    case ClassicWet => 10
    case F2SuperSoft => 11
    case F2Soft => 12
    case F2Medium => 13
    case F2Hard => 14
    case F2Wet => 15
    case Invalid => 0
  }

  function TyreCompoundFrom(v: u8): (r: Result<TyreCompound>)
    ensures r.Ok? <==> v == 0 || 7 <= v <= 20 || v == 255
    ensures r.Ok? ==> TyreCompoundCode(r.value) == v || (v == 255 && r.value == TyreCompound.Invalid)
    ensures r.Err? ==> r.error == InvalidValue(TyreCompoundField, v as int)
  {
    match v
    case 16 => Ok(C5)
    case 17 => Ok(C4)
    case 18 => Ok(C3)
    case 19 => Ok(C2)
    case 20 => Ok(C1)
    case 7 => Ok(TyreCompound.Inter)
    case 8 => Ok(TyreCompound.Wet)
    case 9 => Ok(TyreCompound.ClassicDry)
    case 10 => Ok(TyreCompound.ClassicWet)
    case 11 => Ok(TyreCompound.F2SuperSoft)
    case 12 => Ok(TyreCompound.F2Soft)
    case 13 => Ok(TyreCompound.F2Medium)
    case 14 => Ok(TyreCompound.F2Hard)
    case 15 => Ok(TyreCompound.F2Wet)
    case 0 => Ok(TyreCompound.Invalid)
    case 255 => Ok(TyreCompound.Invalid)
    case _ => Err(InvalidValue(TyreCompoundField, v as int))
  }

  /** The compound as shown to the player: Soft, Medium and Hard on 16 to
      18, the historical range 7 to 15 as for the fitted compound. */
  datatype TyreCompoundVisual =
    | Soft | Medium | Hard
    | Inter | Wet | ClassicDry | ClassicWet
    | F2SuperSoft | F2Soft | F2Medium | F2Hard | F2Wet
    | Invalid

  function TyreCompoundVisualCode(t: TyreCompoundVisual): u8 {
    match t
    case Soft => 16
    case Medium => 17
    case Hard => 18
    case Inter => 7
    case Wet => 8
    case ClassicDry => 9
    case ClassicWet => 10
    case F2SuperSoft => 11
    case F2Soft => 12
    case F2Medium => 13
    case F2Hard => 14
    case F2Wet => 15
    case Invalid => 0
  }

  function TyreCompoundVisualFrom(v: u8): (r: Result<TyreCompoundVisual>)
    ensures r.Ok? <==> v == 0 || 7 <= v <= 18
    ensures r.Ok? ==> TyreCompoundVisualCode(r.value) == v
    ensures r.Err? ==> r.error == InvalidValue(TyreCompoundVisualField, v as int)
  {
    match v
    case 16 => Ok(TyreCompoundVisual.Soft)
    case 17 => Ok(TyreCompoundVisual.Medium)
    case 18 => Ok(TyreCompoundVisual.Hard)
    case 7 => Ok(TyreCompoundVisual.Inter)
    case 8 => Ok(TyreCompoundVisual.Wet)
    case 9 => Ok(TyreCompoundVisual.ClassicDry)
    case 10 => Ok(TyreCompoundVisual.ClassicWet)
    case 11 => Ok(TyreCompoundVisual.F2SuperSoft)
    case 12 => Ok(TyreCompoundVisual.F2Soft)
    case 13 => Ok(TyreCompoundVisual.F2Medium)
    case 14 => Ok(TyreCompoundVisual.F2Hard)
    case 15 => Ok(TyreCompoundVisual.F2Wet)
    case 0 => Ok(TyreCompoundVisual.Invalid)
    case _ => Err(InvalidValue(TyreCompoundVisualField, v as int))
  }

  datatype ERSDeployMode = None | Low | Medium | High | Overtake | Hotlap

  function ErsDeployModeCode(m: ERSDeployMode): u8 {
    match m
    case None => 0
    case Low => 1
    case Medium => 2
    case High => 3
    case Overtake => 4
    case Hotlap => 5
  }

  function ErsDeployModeFrom(v: u8): (r: Result<ERSDeployMode>)
    ensures r.Ok? <==> v <= 5
    ensures r.Ok? ==> ErsDeployModeCode(r.value) == v
    ensures r.Err? ==> r.error == InvalidValue(ErsDeployModeField, v as int)
  {
    match v
    case 0 => Ok(ERSDeployMode.None)
    case 1 => Ok(ERSDeployMode.Low)
    case 2 => Ok(ERSDeployMode.Medium)
    case 3 => Ok(ERSDeployMode.High)
    case 4 => Ok(ERSDeployMode.Overtake)
    case 5 => Ok(ERSDeployMode.Hotlap)
    case _ => Err(InvalidValue(ErsDeployModeField, v as int))
  }

  // Every variant's canonical code is accepted and gives the variant back.

  lemma TractionControlRoundTrip(t: TractionControl)
    ensures TractionControlFrom(TractionControlCode(t)) == Ok(t)
  {
  }

  lemma FuelMixRoundTrip(f: FuelMix)
    ensures FuelMixFrom(FuelMixCode(f)) == Ok(f)
  {
  }

  lemma DrsRoundTrip(d: DRS)
    ensures DrsFrom(DrsCode(d)) == Ok(d)
  {
  }

  lemma TyreCompoundRoundTrip(t: TyreCompound)
    ensures TyreCompoundFrom(TyreCompoundCode(t)) == Ok(t)
  {
  }

  lemma TyreCompoundVisualRoundTrip(t: TyreCompoundVisual)
    ensures TyreCompoundVisualFrom(TyreCompoundVisualCode(t)) == Ok(t)
  {
  }

  lemma ErsDeployModeRoundTrip(m: ERSDeployMode)
    ensures ErsDeployModeFrom(ErsDeployModeCode(m)) == Ok(m)
  {
  }

  /** 0 and 255 are two codes for one and the same `Invalid` compound, and
      the fitted-compound decoder maps no other pair of codes together. */
  lemma TyreCompoundInvalidCodes(a: u8, b: u8)
    requires TyreCompoundFrom(a).Ok? && TyreCompoundFrom(b).Ok?
    requires a != b
    ensures TyreCompoundFrom(a) == TyreCompoundFrom(b) <==> {a, b} == {0, 255}
  {
    if TyreCompoundFrom(a) == TyreCompoundFrom(b) {
      var t := TyreCompoundFrom(a).value;
      assert a == 255 || TyreCompoundCode(t) == a;
      assert b == 255 || TyreCompoundCode(t) == b;
    }
  }

  /** The shown and the fitted compound agree on the codes they share
      (0 and 7 to 15); 19, 20 and 255 are fitted compounds only. */
  lemma VisualAgreesWithActual(v: u8)
    ensures TyreCompoundVisualFrom(v).Ok? && TyreCompoundFrom(v).Ok? ==>
      (16 <= v <= 18 || TyreCompoundVisualCode(TyreCompoundVisualFrom(v).value)
                        == TyreCompoundCode(TyreCompoundFrom(v).value))
    ensures v == 19 || v == 20 || v == 255 ==>
      TyreCompoundFrom(v).Ok? && TyreCompoundVisualFrom(v).Err?
  {
  }

  // --------------------------------------------------------- the car record

  /** Bytes of one car-status record. */
  const CarWidth: nat := 56
  /** Cars in one car-status packet. */
  const NumCars: nat := 20

  datatype CarStatusData = CarStatusData(
    tractionControl: TractionControl,
    antiLockBrakes: bool,
    fuelMix: FuelMix,
    frontBrakeBias: u8,
    pitLimiter: bool,
    fuelInTank: F32,
    fuelCapacity: F32,
    fuelRemainingLaps: F32,
    maxRpm: u16,
    idleRpm: u16,
    maxGears: u8,
    drsAllowed: DRS,
    tyresWear: WheelData,
    actualTyreCompound: TyreCompound,
    visualTyreCompound: TyreCompoundVisual,
    tyresDamage: WheelData,
    frontLeftWingDamage: u8,
    frontRightWingDamage: u8,
    rearWingDamage: u8,
    engineDamage: u8,
    gearBoxDamage: u8,
    vehicleFiaFlags: Flag,
    ersStoreEnergy: F32,
    ersDeployMode: ERSDeployMode,
    ersHarvestedThisLapMguk: F32,
    ersHarvestedThisLapMguh: F32,
    ersDeployedThisLap: F32)

  /** The record at offset p, or the error of the first coded field (in
      read order) that its validator rejects. */
  function CarAt(data: seq<u8>, p: nat, flagOf: FlagDecoder): (r: Result<CarStatusData>)
    requires p + CarWidth <= |data|
  {
    var tractionControl :- TractionControlFrom(data[p]);
    var fuelMix :- FuelMixFrom(data[p + 2]);
    var drsAllowed :- DrsFrom(AsI8(data[p + 22]));
    var actualTyreCompound :- TyreCompoundFrom(data[p + 27]);
    var visualTyreCompound :- TyreCompoundVisualFrom(data[p + 28]);
    var vehicleFiaFlags :- flagOf(AsI8(data[p + 38]));
    var ersDeployMode :- ErsDeployModeFrom(data[p + 43]);
    Ok(CarStatusData(
      tractionControl,
      data[p + 1] == 1,
      fuelMix,
      data[p + 3],
      data[p + 4] == 1,
      F32At(data, p + 5),
      F32At(data, p + 9),
      F32At(data, p + 13),
      U16At(data, p + 17),
      U16At(data, p + 19),
      data[p + 21],
      drsAllowed,
      WheelData(data[p + 23], data[p + 24], data[p + 25], data[p + 26]),
      actualTyreCompound,
      visualTyreCompound,
      WheelData(data[p + 29], data[p + 30], data[p + 31], data[p + 32]),
      data[p + 33],
      data[p + 34],
      data[p + 35],
      data[p + 36],
      data[p + 37],
      vehicleFiaFlags,
      F32At(data, p + 39),
      ersDeployMode,
      F32At(data, p + 44),
      F32At(data, p + 48),
      F32At(data, p + 52)))
  }

  /** A record decodes exactly when each of its seven coded fields does;
      otherwise the error is the one of the first rejected field. */
  lemma CarAtFailsAtFirstBadField(data: seq<u8>, p: nat, flagOf: FlagDecoder)
    requires p + CarWidth <= |data|
    ensures CarAt(data, p, flagOf).Ok? <==>
      TractionControlFrom(data[p]).Ok? && FuelMixFrom(data[p + 2]).Ok?
      && DrsFrom(AsI8(data[p + 22])).Ok? && TyreCompoundFrom(data[p + 27]).Ok?
      && TyreCompoundVisualFrom(data[p + 28]).Ok? && flagOf(AsI8(data[p + 38])).Ok?
      && ErsDeployModeFrom(data[p + 43]).Ok?
    ensures TractionControlFrom(data[p]).Err? ==>
      CarAt(data, p, flagOf) == Err(InvalidValue(TractionControlField, data[p] as int))
    ensures TractionControlFrom(data[p]).Ok? && FuelMixFrom(data[p + 2]).Err? ==>
      CarAt(data, p, flagOf) == Err(InvalidValue(FuelMixField, data[p + 2] as int))
    ensures (TractionControlFrom(data[p]).Ok? && FuelMixFrom(data[p + 2]).Ok?
       && DrsFrom(AsI8(data[p + 22])).Err?) ==>
      CarAt(data, p, flagOf) == Err(InvalidValue(DrsField, AsI8(data[p + 22]) as int))
    ensures (TractionControlFrom(data[p]).Ok? && FuelMixFrom(data[p + 2]).Ok?
       && DrsFrom(AsI8(data[p + 22])).Ok? && TyreCompoundFrom(data[p + 27]).Err?) ==>
      CarAt(data, p, flagOf) == Err(InvalidValue(TyreCompoundField, data[p + 27] as int))
    ensures (TractionControlFrom(data[p]).Ok? && FuelMixFrom(data[p + 2]).Ok?
       && DrsFrom(AsI8(data[p + 22])).Ok? && TyreCompoundFrom(data[p + 27]).Ok?
       && TyreCompoundVisualFrom(data[p + 28]).Err?) ==>
      CarAt(data, p, flagOf) == Err(InvalidValue(TyreCompoundVisualField, data[p + 28] as int))
    ensures (TractionControlFrom(data[p]).Ok? && FuelMixFrom(data[p + 2]).Ok?
       && DrsFrom(AsI8(data[p + 22])).Ok? && TyreCompoundFrom(data[p + 27]).Ok?
       && TyreCompoundVisualFrom(data[p + 28]).Ok? && flagOf(AsI8(data[p + 38])).Err?) ==>
      CarAt(data, p, flagOf) == Err(flagOf(AsI8(data[p + 38])).error)
    ensures (TractionControlFrom(data[p]).Ok? && FuelMixFrom(data[p + 2]).Ok?
       && DrsFrom(AsI8(data[p + 22])).Ok? && TyreCompoundFrom(data[p + 27]).Ok?
       && TyreCompoundVisualFrom(data[p + 28]).Ok? && flagOf(AsI8(data[p + 38])).Ok?
       && ErsDeployModeFrom(data[p + 43]).Err?) ==>
      CarAt(data, p, flagOf) == Err(InvalidValue(ErsDeployModeField, data[p + 43] as int))
  {
  }

  /** Where a decoded record's fields come from: each coded field is the
      code at its offset, the two flags are "byte equals 1" and the wear and
      damage quadruples are four consecutive bytes in order. */
  lemma CarAtLayout(data: seq<u8>, p: nat, flagOf: FlagDecoder)
    requires p + CarWidth <= |data|
    ensures var r := CarAt(data, p, flagOf);
      r.Ok? ==>
        && TractionControlCode(r.value.tractionControl) == data[p]
        && (r.value.antiLockBrakes <==> data[p + 1] == 1)
        && FuelMixCode(r.value.fuelMix) == data[p + 2]
        && (r.value.pitLimiter <==> data[p + 4] == 1)
        && DrsCode(r.value.drsAllowed) == AsI8(data[p + 22])
        && r.value.tyresWear == WheelData(data[p + 23], data[p + 24], data[p + 25], data[p + 26])
        && TyreCompoundVisualCode(r.value.visualTyreCompound) == data[p + 28]
        && r.value.tyresDamage == WheelData(data[p + 29], data[p + 30], data[p + 31], data[p + 32])
        && r.value.vehicleFiaFlags == flagOf(AsI8(data[p + 38])).value
        && ErsDeployModeCode(r.value.ersDeployMode) == data[p + 43]
    ensures var r := CarAt(data, p, flagOf);
      r.Ok? ==>
        TyreCompoundCode(r.value.actualTyreCompound) == data[p + 27]
        || (data[p + 27] == 255 && r.value.actualTyreCompound == TyreCompound.Invalid)
  {
  }

  /** A 4-byte float word encoded little-endian reads back unchanged. */
  lemma F32AtLeBytes(data: seq<u8>, p: nat, x: F32)
    requires p + 4 <= |data|
    requires (Pow256Widths(); data[p..p + 4] == LeBytes(x.bits as nat, 4))
    ensures F32At(data, p) == x
  {
    Pow256Widths();
    FieldsAreLittleEndian(data, p);
    LeValueOfLeBytes(x.bits as nat, 4);
  }

  /** A 16-bit word encoded little-endian reads back unchanged. */
  lemma U16AtLeBytes(data: seq<u8>, p: nat, x: u16)
    requires p + 2 <= |data|
    requires (Pow256Widths(); data[p..p + 2] == LeBytes(x as nat, 2))
    ensures U16At(data, p) == x
  {
    Pow256Widths();
    FieldsAreLittleEndian(data, p);
    LeValueOfLeBytes(x as nat, 2);
  }

  /** Bytes 0 to 20 of a record: the driving aids, brake bias, fuel and
      engine-speed limits. */
  function EncodeCarFront(c: CarStatusData): (bytes: seq<u8>)
    ensures |bytes| == 21
  {
    Pow256Widths();
    [TractionControlCode(c.tractionControl), if c.antiLockBrakes then 1 else 0,
     FuelMixCode(c.fuelMix), c.frontBrakeBias, if c.pitLimiter then 1 else 0]
    + LeBytes(c.fuelInTank.bits as nat, 4)
    + LeBytes(c.fuelCapacity.bits as nat, 4)
    + LeBytes(c.fuelRemainingLaps.bits as nat, 4)
    + LeBytes(c.maxRpm as nat, 2)
    + LeBytes(c.idleRpm as nat, 2)
  }

  /** Bytes 21 to 38: gears, DRS, tyres, damage and the flag, one byte each. */
  function EncodeCarMiddle(c: CarStatusData): (bytes: seq<u8>)
    ensures |bytes| == 18
  {
    [c.maxGears, I8Byte(DrsCode(c.drsAllowed)),
     c.tyresWear.w0, c.tyresWear.w1, c.tyresWear.w2, c.tyresWear.w3,
     TyreCompoundCode(c.actualTyreCompound), TyreCompoundVisualCode(c.visualTyreCompound),
     c.tyresDamage.w0, c.tyresDamage.w1, c.tyresDamage.w2, c.tyresDamage.w3,
     c.frontLeftWingDamage, c.frontRightWingDamage, c.rearWingDamage,
     c.engineDamage, c.gearBoxDamage, I8Byte(c.vehicleFiaFlags.code)]
  }

  /** Bytes 39 to 55: the energy-recovery system. */
  function EncodeCarBack(c: CarStatusData): (bytes: seq<u8>)
    ensures |bytes| == 17
  {
    Pow256Widths();
    LeBytes(c.ersStoreEnergy.bits as nat, 4)
    + [ErsDeployModeCode(c.ersDeployMode)]
    + LeBytes(c.ersHarvestedThisLapMguk.bits as nat, 4)
    + LeBytes(c.ersHarvestedThisLapMguh.bits as nat, 4)
    + LeBytes(c.ersDeployedThisLap.bits as nat, 4)
  }

  /** The wire image of a record in read order; booleans are written as 0
      or 1 and `Invalid` compounds as 0. */
  function EncodeCar(c: CarStatusData): (bytes: seq<u8>)
    ensures |bytes| == CarWidth
  {
    EncodeCarFront(c) + EncodeCarMiddle(c) + EncodeCarBack(c)
  }

  lemma FrontReadsBack(data: seq<u8>, c: CarStatusData)
    requires 21 <= |data| && data[..21] == EncodeCarFront(c)
    ensures data[0] == TractionControlCode(c.tractionControl)
    ensures (data[1] == 1) == c.antiLockBrakes
    ensures data[2] == FuelMixCode(c.fuelMix) && data[3] == c.frontBrakeBias
    ensures (data[4] == 1) == c.pitLimiter
    ensures F32At(data, 5) == c.fuelInTank && F32At(data, 9) == c.fuelCapacity
    ensures F32At(data, 13) == c.fuelRemainingLaps
    ensures U16At(data, 17) == c.maxRpm && U16At(data, 19) == c.idleRpm
  {
    Pow256Widths();
    var e := EncodeCarFront(c);
    assert data[5..9] == e[5..9] == LeBytes(c.fuelInTank.bits as nat, 4);
    assert data[9..13] == e[9..13] == LeBytes(c.fuelCapacity.bits as nat, 4);
    assert data[13..17] == e[13..17] == LeBytes(c.fuelRemainingLaps.bits as nat, 4);
    assert data[17..19] == e[17..19] == LeBytes(c.maxRpm as nat, 2);
    assert data[19..21] == e[19..21] == LeBytes(c.idleRpm as nat, 2);
    F32AtLeBytes(data, 5, c.fuelInTank);
    F32AtLeBytes(data, 9, c.fuelCapacity);
    F32AtLeBytes(data, 13, c.fuelRemainingLaps);
    U16AtLeBytes(data, 17, c.maxRpm);
    U16AtLeBytes(data, 19, c.idleRpm);
  }

  lemma BackReadsBack(data: seq<u8>, c: CarStatusData)
    requires 56 <= |data| && data[39..56] == EncodeCarBack(c)
    ensures F32At(data, 39) == c.ersStoreEnergy
    ensures data[43] == ErsDeployModeCode(c.ersDeployMode)
    ensures F32At(data, 44) == c.ersHarvestedThisLapMguk
    ensures F32At(data, 48) == c.ersHarvestedThisLapMguh
    ensures F32At(data, 52) == c.ersDeployedThisLap
  {
    Pow256Widths();
    var e := EncodeCarBack(c);
    var energy := LeBytes(c.ersStoreEnergy.bits as nat, 4);
    var mguk := LeBytes(c.ersHarvestedThisLapMguk.bits as nat, 4);
    var mguh := LeBytes(c.ersHarvestedThisLapMguh.bits as nat, 4);
    var deployed := LeBytes(c.ersDeployedThisLap.bits as nat, 4);
    assert e == energy + [ErsDeployModeCode(c.ersDeployMode)] + mguk + mguh + deployed;
    assert data[43] == e[4];
    assert data[39..43] == energy by {
      assert forall i | 0 <= i < 4 :: data[39 + i] == e[i] == energy[i];
    }
    assert data[44..48] == mguk by {
      assert forall i | 0 <= i < 4 :: data[44 + i] == e[5 + i] == mguk[i];
    }
    assert data[48..52] == mguh by {
      assert forall i | 0 <= i < 4 :: data[48 + i] == e[9 + i] == mguh[i];
    }
    assert data[52..56] == deployed by {
      assert forall i | 0 <= i < 4 :: data[52 + i] == e[13 + i] == deployed[i];
    }
    F32AtLeBytes(data, 39, c.ersStoreEnergy);
    F32AtLeBytes(data, 44, c.ersHarvestedThisLapMguk);
    F32AtLeBytes(data, 48, c.ersHarvestedThisLapMguh);
    F32AtLeBytes(data, 52, c.ersDeployedThisLap);
  }

  /** Decoding an encoded record gives it back, whatever follows it,
      provided the flag validator accepts the record's own flag code. */
  lemma DecodeEncodeCar(c: CarStatusData, flagOf: FlagDecoder, rest: seq<u8>)
    requires flagOf(c.vehicleFiaFlags.code) == Ok(c.vehicleFiaFlags)
    ensures CarAt(EncodeCar(c) + rest, 0, flagOf) == Ok(c)
  {
    var data := EncodeCar(c) + rest;
    var m := EncodeCarMiddle(c);
    assert data[..21] == EncodeCarFront(c);
    assert data[21..39] == m;
    assert data[39..56] == EncodeCarBack(c);
    FrontReadsBack(data, c);
    BackReadsBack(data, c);
    assert data[22] == m[1] && data[27] == m[6] && data[28] == m[7] && data[38] == m[17];
    TractionControlRoundTrip(c.tractionControl);
    FuelMixRoundTrip(c.fuelMix);
    DrsRoundTrip(c.drsAllowed);
    TyreCompoundRoundTrip(c.actualTyreCompound);
    TyreCompoundVisualRoundTrip(c.visualTyreCompound);
    ErsDeployModeRoundTrip(c.ersDeployMode);
  }

  /** `parse_car`: the fields read one after another, each coded field
      validated as soon as it is read. */
  method ParseCar(c: Cursor, flagOf: FlagDecoder) returns (r: Result<CarStatusData>)
    requires c.pos + CarWidth <= |c.data|
    modifies c
    ensures r == CarAt(c.data, old(c.pos), flagOf)
    ensures r.Ok? ==> c.pos == old(c.pos) + CarWidth
  {
    var b := c.ReadU8();
    var tractionControl :- TractionControlFrom(b);
    b := c.ReadU8();
    var antiLockBrakes := b == 1;
    b := c.ReadU8();
    var fuelMix :- FuelMixFrom(b);
    var frontBrakeBias := c.ReadU8();
    b := c.ReadU8();
    var pitLimiter := b == 1;
    var fuelInTank := c.ReadF32();
    var fuelCapacity := c.ReadF32();
    var fuelRemainingLaps := c.ReadF32();
    var maxRpm := c.ReadU16();
    var idleRpm := c.ReadU16();
    var maxGears := c.ReadU8();
    var s := c.ReadI8();
    var drsAllowed :- DrsFrom(s);
    var w0 := c.ReadU8();
    var w1 := c.ReadU8();
    var w2 := c.ReadU8();
    var w3 := c.ReadU8();
    var tyresWear := WheelData(w0, w1, w2, w3);
    b := c.ReadU8();
    var actualTyreCompound :- TyreCompoundFrom(b);
    b := c.ReadU8();
    var visualTyreCompound :- TyreCompoundVisualFrom(b);
    w0 := c.ReadU8();
    w1 := c.ReadU8();
    w2 := c.ReadU8();
    w3 := c.ReadU8();
    var tyresDamage := WheelData(w0, w1, w2, w3);
    var frontLeftWingDamage := c.ReadU8();
    var frontRightWingDamage := c.ReadU8();
    var rearWingDamage := c.ReadU8();
    var engineDamage := c.ReadU8();
    var gearBoxDamage := c.ReadU8();
    s := c.ReadI8();
    var vehicleFiaFlags :- flagOf(s);
    var ersStoreEnergy := c.ReadF32();
    b := c.ReadU8();
    var ersDeployMode :- ErsDeployModeFrom(b);
    var ersHarvestedThisLapMguk := c.ReadF32();
    var ersHarvestedThisLapMguh := c.ReadF32();
    var ersDeployedThisLap := c.ReadF32();
    r := Ok(CarStatusData(
      tractionControl, antiLockBrakes, fuelMix, frontBrakeBias, pitLimiter,
      fuelInTank, fuelCapacity, fuelRemainingLaps, maxRpm, idleRpm, maxGears,
      drsAllowed, tyresWear, actualTyreCompound, visualTyreCompound, tyresDamage,
      frontLeftWingDamage, frontRightWingDamage, rearWingDamage, engineDamage,
      gearBoxDamage, vehicleFiaFlags, ersStoreEnergy, ersDeployMode,
      ersHarvestedThisLapMguk, ersHarvestedThisLapMguh, ersDeployedThisLap));
  }

  // ------------------------------------------------------------ the packet

  datatype PacketCarStatusData = PacketCarStatusData(
    header: PacketHeader,
    carStatusData: seq<CarStatusData>)

  /** The first n results of a per-index record decoder, in index order,
      or the error of the lowest index that fails; no partial list. */
  function Repeat<T>(dec: nat --> Result<T>, n: nat): (r: Result<seq<T>>)
    requires forall k :: 0 <= k < n ==> dec.requires(k)
    ensures r.Ok? ==> |r.value| == n
  {
    if n == 0 then Ok([])
    else
      var done :- Repeat(dec, n - 1);
      var last :- dec(n - 1);
      Ok(done + [last])
  }

  /** A run that succeeds holds every record's result at its own index; a
      run that fails carries the error of a record all of whose
      predecessors decode. */
  lemma {:induction false} RepeatInOrder<T>(dec: nat --> Result<T>, n: nat)
    requires forall k :: 0 <= k < n ==> dec.requires(k)
    ensures Repeat(dec, n).Ok? ==>
      forall k :: 0 <= k < n ==> dec(k) == Ok(Repeat(dec, n).value[k])
    ensures Repeat(dec, n).Err? ==>
      exists k :: (0 <= k < n && dec(k) == Err(Repeat(dec, n).error)
                   && forall j :: 0 <= j < k ==> dec(j).Ok?)
    decreases n
  {
    if n > 0 {
      RepeatInOrder(dec, n - 1);
      var run := Repeat(dec, n - 1);
      if run.Ok? && dec(n - 1).Ok? {
        var all := run.value + [dec(n - 1).value];
        assert Repeat(dec, n) == Ok(all);
        forall k | 0 <= k < n
          ensures dec(k) == Ok(all[k])
        {
          if k < n - 1 {
            assert all[k] == run.value[k];
          }
        }
      }
    }
  }

  /** Once a record has failed, reading on does not change the outcome. */
  lemma {:induction false} RepeatErrorPersists<T>(dec: nat --> Result<T>, i: nat, n: nat)
    requires i <= n && forall k :: 0 <= k < n ==> dec.requires(k)
    requires Repeat(dec, i).Err?
    ensures Repeat(dec, n) == Repeat(dec, i)
    decreases n
  {
    if i < n {
      RepeatErrorPersists(dec, i, n - 1);
    }
  }

  /** One turn of a record loop: a record that decodes extends the run,
      one that fails decides the run of all n records. */
  lemma RepeatStep<T>(dec: nat --> Result<T>, i: nat, n: nat, done: seq<T>, next: Result<T>)
    requires i < n && forall k :: 0 <= k < n ==> dec.requires(k)
    requires Repeat(dec, i) == Ok(done) && dec(i) == next
    ensures next.Ok? ==> Repeat(dec, i + 1) == Ok(done + [next.value])
    ensures next.Err? ==> Repeat(dec, n) == Err(next.error)
  {
    if next.Err? {
      RepeatErrorPersists(dec, i + 1, n);
    }
  }

  /** Record k of the run of records that starts at offset p. */
  function CarSlots(data: seq<u8>, p: nat, flagOf: FlagDecoder): (dec: nat --> Result<CarStatusData>)
    ensures forall k: nat :: p + (k + 1) * CarWidth <= |data| ==> dec.requires(k)
  {
    (k: nat) requires p + (k + 1) * CarWidth <= |data| => CarAt(data, p + k * CarWidth, flagOf)
  }

  /** Slot k is the record at offset p + 56k. */
  lemma CarSlotIs(data: seq<u8>, p: nat, k: nat, flagOf: FlagDecoder)
    requires p + (k + 1) * CarWidth <= |data|
    ensures CarSlots(data, p, flagOf)(k) == CarAt(data, p + k * CarWidth, flagOf)
  {
  }

  /** The body of a car-status packet: exactly 20 records read one after
      another from offset p, or the first failing record's error. */
  function CarStatusPacketAt(data: seq<u8>, p: nat, header: PacketHeader, flagOf: FlagDecoder)
    : (r: Result<PacketCarStatusData>)
    requires p + NumCars * CarWidth <= |data|
    ensures r.Ok? ==> r.value.header == header && |r.value.carStatusData| == NumCars
  {
    var cars :- Repeat(CarSlots(data, p, flagOf), NumCars);
    Ok(PacketCarStatusData(header, cars))
  }

  /** Record k of a decoded packet is the record at offset p + 56k, and a
      failed packet carries the error of the first record that fails, all
      records before it decoding. */
  lemma CarStatusRecordsInOrder(data: seq<u8>, p: nat, header: PacketHeader, flagOf: FlagDecoder)
    requires p + NumCars * CarWidth <= |data|
    ensures var r := CarStatusPacketAt(data, p, header, flagOf);
      && (r.Ok? ==> forall k :: 0 <= k < NumCars ==>
            CarSlots(data, p, flagOf)(k) == Ok(r.value.carStatusData[k]))
      && (r.Err? ==>
            exists k :: (0 <= k < NumCars && CarSlots(data, p, flagOf)(k) == Err(r.error)
                         && forall j :: 0 <= j < k ==> CarSlots(data, p, flagOf)(j).Ok?))
  {
    RepeatInOrder(CarSlots(data, p, flagOf), NumCars);
  }

  /** One turn of the packet loop over the records at offset p. */
  lemma CarSlotStep(data: seq<u8>, p: nat, i: nat, flagOf: FlagDecoder,
                    cars: seq<CarStatusData>, car: Result<CarStatusData>)
    requires i < NumCars && p + NumCars * CarWidth <= |data|
    requires Repeat(CarSlots(data, p, flagOf), i) == Ok(cars)
    requires car == CarAt(data, p + i * CarWidth, flagOf)
    ensures car.Ok? ==> Repeat(CarSlots(data, p, flagOf), i + 1) == Ok(cars + [car.value])
    ensures car.Err? ==> Repeat(CarSlots(data, p, flagOf), NumCars) == Err(car.error)
  {
    CarSlotIs(data, p, i, flagOf);
    RepeatStep(CarSlots(data, p, flagOf), i, NumCars, cars, car);
  }

  /** `parse_car_status_data`: twenty records pushed in read order; the
      first failing record ends the loop with its error. */
  method ParseCarStatusData(c: Cursor, header: PacketHeader, flagOf: FlagDecoder)
    returns (r: Result<PacketCarStatusData>)
    requires c.pos + NumCars * CarWidth <= |c.data|
    modifies c
    ensures r == CarStatusPacketAt(c.data, old(c.pos), header, flagOf)
    ensures r.Ok? ==> c.pos == old(c.pos) + NumCars * CarWidth
  {
    ghost var start := c.pos;
    var cars: seq<CarStatusData> := [];
    for i := 0 to NumCars
      invariant c.pos == start + i * CarWidth
      invariant Repeat(CarSlots(c.data, start, flagOf), i) == Ok(cars)
    {
      var car := ParseCar(c, flagOf);
      CarSlotStep(c.data, start, i, flagOf, cars, car);
      if car.Err? {
        return Err(car.error);
      }
      cars := cars + [car.value];
    }
    r := Ok(PacketCarStatusData(header, cars));
  }
}
