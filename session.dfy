/** Session-level domain types (packet/session.rs): the coded session
    enums, their defaults and display names, the forecast and marshal-zone
    records and the session packet whose trailing fields exist only in
    later format revisions. */
module SessionData {
  import opened Wire
  import opened Generic
  import opened Unpack
  import opened Header2019

  datatype Weather = Clear | LightCloud | Overcast | LightRain | HeavyRain | Storm {
    static function Default(): (w: Weather)
      ensures w.Clear?
    {
      Clear
    }
  }

  datatype TemperatureChange = Up | Down | NoChange {
    static function Default(): (t: TemperatureChange)
      ensures t.Up?
    {
      Up
    }
  }

  datatype SessionType =
    | Unknown
    | Practice1
    | Practice2
    | Practice3
    | PracticeShort
    | Qualifying1
    | Qualifying2
    | Qualifying3
    | QualifyingShort
    | OneShotQualifying
    | Race
    | Race2
    | TimeTrial
  {
    function Name(): string {
      match this
      case Unknown => "Unknown"
      case Practice1 => "Free Practice 1"
      case Practice2 => "Free Practice 2"
      case Practice3 => "Free Practice 3"
      case PracticeShort => "Free Practice (Short)"
      case Qualifying1 => "Qualifying 1"
      case Qualifying2 => "Qualifying 2"
      case Qualifying3 => "Qualifying 3"
      case QualifyingShort => "Qualifying (Short)"
      case OneShotQualifying => "One-Shot Qualifying"
      case Race => "Race"
      case Race2 => "Race 2"
      case TimeTrial => "Time Trial"
    }

    static function Default(): (t: SessionType)
      ensures t.Name() == "Unknown"
    {
      SessionType.Unknown
    }
  }

  datatype Track =
    | Melbourne
    | PaulRicard
    | Shanghai
    | Sakhir
    | Catalunya
    | Monaco
    | Montreal
    | Silverstone
    | Hockenheim
    | Hungaroring
    | Spa
    | Monza
    | Singapore
    | Suzuka
    | AbuDhabi
    | Texas
    | Brazil
    | Austria
    | Sochi
    | Mexico
    | Baku
    | SakhirShort
    | SilverstoneShort
    | TexasShort
    | SuzukaShort
    | Hanoi
    | Zandvoort
    | Unknown
  {
    function Name(): string {
      match this
      case Melbourne => "Melbourne Grand Prix Circuit"
      case PaulRicard => "Circuit Paul Ricard"
      case Shanghai => "Shanghai International Circuit"
      case Sakhir => "Bahrain International Circuit"
      case Catalunya => "Circuit de Barcelona-Catalunya"
      case Monaco => "Circuit de Monaco"
      case Montreal => "Circuit Gilles Villeneuve"
      case Silverstone => "Silverstone Circuit"
      case Hockenheim => "Hockenheimring"
      case Hungaroring => "Hungaroring"
      case Spa => "Circuit de Spa-Francorchamps"
      case Monza => "Autodromo Nazionale Monza"
      case Singapore => "Marina Bay Street Circuit"
      case Suzuka => "Suzuka International Racing Course"
      case AbuDhabi => "Yas Marina Circuit"
      case Texas => "Circuit of the Americas"
      case Brazil => "Autódromo José Carlos Pace"
      case Austria => "Red Bull Ring"
      case Sochi => "Sochi Autodrom"
      case Mexico => "Autódromo Hermanos Rodríguez"
      case Baku => "Baku City Circuit"
      case SakhirShort => "Bahrain International Circuit (Short)"
      case SilverstoneShort => "Silverstone Circuit (Short)"
      case TexasShort => "Circuit of the Americas (Short)"
      case SuzukaShort => "Suzuka International Racing Course (Short)"
      case Hanoi => "Hanoi Street Circuit"
      case Zandvoort => "Circuit Zandvoort"
      case Unknown => "[UNKNOWN]"
    }
  }

  datatype Formula = F1Modern | F1Classic | F2 | F1Generic

  datatype SafetyCar = None | Full | Virtual {
    function Name(): string {
      match this
      case None => "No Safety Car"
      case Virtual => "Virtual Safety Car"
      case Full => "Safety Car"
    }

    static function Default(): (s: SafetyCar)
      ensures s.Name() == "No Safety Car"
    {
      SafetyCar.None
    }
  }

  /** One sample of the weather forecast array. */
  datatype WeatherForecastSample = WeatherForecastSample(
    sessionType: SessionType,
    timeOffset: u8,
    weather: Weather,
    trackTemperature: i8,
    trackTemperatureChange: TemperatureChange,
    airTemperature: i8,
    airTemperatureChange: TemperatureChange,
    rainPercentage: u8)
  {
    /** The derived default: every field takes its own type's default. */
    static function Default(): (s: WeatherForecastSample)
      ensures s.sessionType.Unknown? && s.weather.Clear?
      ensures s.trackTemperatureChange.Up? && s.airTemperatureChange.Up?
      ensures s.timeOffset == 0 && s.trackTemperature == 0
      ensures s.airTemperature == 0 && s.rainPercentage == 0
    {
      WeatherForecastSample(
        SessionType.Default(), 0, Weather.Default(), 0,
        TemperatureChange.Default(), 0, TemperatureChange.Default(), 0)
    }
  }

  datatype MarshalZone = MarshalZone(zoneStart: F32, zoneFlag: Flag)

  datatype ForecastAccuracy = Perfect | Approximate
  datatype BrakingAssist = Off | Low | Medium | High
  datatype GearboxAssist = Manual | ManualAndSuggestedGear | Automatic
  datatype DynamicRacingLine = Off | CornersOnly | Full
  datatype DynamicRacingLineType = TwoDimensions | ThreeDimensions

  datatype DrivingAssists = DrivingAssists(
    steeringAssist: bool,
    brakingAssist: BrakingAssist,
    gearboxAssist: GearboxAssist,
    pitAssist: bool,
    pitReleaseAssist: bool,
    ersAssist: bool,
    drsAssist: bool,
    dynamicRacingLine: DynamicRacingLine,
    dynamicRacingLineType: DynamicRacingLineType)

  /** The session packet.  The nine fields from `forecastAccuracy` on exist
      only in later format revisions and are absent otherwise. */
  datatype PacketSessionData = PacketSessionData(
    header: PacketHeader,
    weather: Weather,
    trackTemperature: i8,
    airTemperature: i8,
    totalLaps: u8,
    trackLength: u16,
    sessionType: SessionType,
    track: Track,
    formula: Formula,
    sessionTimeLeft: u16,
    sessionDuration: u16,
    pitSpeedLimit: u8,
    gamePaused: bool,
    isSpectating: bool,
    spectatorCarIndex: u8,
    sliProNativeSupport: bool,
    numMarshalZones: u8,
    marshalZones: seq<MarshalZone>,
    safetyCarStatus: SafetyCar,
    networkGame: bool,
    numWeatherForecastSamples: u8,
    weatherForecastSamples: seq<WeatherForecastSample>,
    forecastAccuracy: Option<ForecastAccuracy>,
    aiDifficulty: Option<u8>,
    seasonIdentifier: Option<u32>,
    weekendIdentifier: Option<u32>,
    sessionIdentifier: Option<u32>,
    pitStopWindowIdealLap: Option<u8>,
    pitStopWindowLatestLap: Option<u8>,
    pitStopRejoinPosition: Option<u8>,
    drivingAssists: Option<DrivingAssists>)

  /** Distinct session types have distinct display names. */
  lemma SessionTypeNamesDistinct(a: SessionType, b: SessionType)
    requires a != b
    ensures a.Name() != b.Name()
  {
  }

  /** "[UNKNOWN]" is the display name of the unknown track and of no
      other. */
  lemma UnknownTrackName(t: Track)
    ensures t.Name() == "[UNKNOWN]" <==> t.Unknown?
  {
  }

  lemma SafetyCarNamesDistinct(a: SafetyCar, b: SafetyCar)
    requires a != b
    ensures a.Name() != b.Name()
  {
  }
}
