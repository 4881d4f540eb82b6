/**
 * Weather stations ("observing conditions" devices): the table of sensors the gateway
 * knows and which of them it serves, the current readings of a station, and the two
 * station drivers, one with fixed readings and one that polls a JSON endpoint.
 */
module Weather {
  import opened Wrappers
  import opened GoStrings
  import opened Io

  /** The sensors of an ASCOM observing-conditions device, one per reading. */
  datatype Sensor =
    | AveragePeriod | CloudCover | DewPoint | Humidity | Pressure | RainRate
    | SkyBrightness | SkyQuality | SkyTemperature | StarFWHM | Temperature
    | WindDirection | WindGust | WindSpeed

  /** The wire name of each sensor. */
  function SensorName(s: Sensor): string
  {
    match s
    case AveragePeriod => "AveragePeriod"
    case CloudCover => "CloudCover"
    case DewPoint => "DewPoint"
    case Humidity => "Humidity"
    case Pressure => "Pressure"
    case RainRate => "RainRate"
    case SkyBrightness => "SkyBrightness"
    case SkyQuality => "SkyQuality"
    case SkyTemperature => "SkyTemperature"
    case StarFWHM => "StarFWHM"
    case Temperature => "Temperature"
    case WindDirection => "WindDirection"
    case WindGust => "WindGust"
    case WindSpeed => "WindSpeed"
  }

  /** The name of the extra entry that closes a device-state listing. */
  const SensorTimeStamp: string := "TimeStamp"

  /** Every known sensor name, mapped to whether this gateway serves it. */
  const AvailableSensors: map<string, bool> := map[
    "AveragePeriod" := true,
    "CloudCover" := false,
    "DewPoint" := true,
    "Humidity" := true,
    "Pressure" := true,
    "RainRate" := true,
    "SkyBrightness" := false,
    "SkyQuality" := false,
    "SkyTemperature" := false,
    "StarFWHM" := false,
    "Temperature" := true,
    "WindDirection" := true,
    "WindGust" := true,
    "WindSpeed" := true
  ]

  /** A human-readable description of every known sensor. */
  const SensorDescriptions: map<string, string> := map[
    "AveragePeriod" := "Average period for weather measurements",
    "CloudCover" := "Cloud cover percentage",
    "DewPoint" := "Dew point temperature",
    "Humidity" := "Relative humidity percentage",
    "Pressure" := "Atmospheric pressure",
    "RainRate" := "Rain rate measurement",
    "SkyBrightness" := "Sky brightness measurement",
    "SkyQuality" := "Sky quality measurement",
    "SkyTemperature" := "Sky temperature measurement",
    "StarFWHM" := "Star full width at half maximum",
    "Temperature" := "Ambient temperature",
    "WindDirection" := "Wind direction in degrees",
    "WindGust" := "Wind gust speed",
    "WindSpeed" := "Wind speed measurement"
  ]

  /** Every sensor is listed in the table under its own name. */
  lemma SensorNamesKnown(s: Sensor)
    ensures SensorName(s) in AvailableSensors
  {
  }

  /** The table lists nothing but the fourteen sensors. */
  lemma KnownNamesAreSensors(k: string)
    requires k in AvailableSensors
    ensures exists s :: SensorName(s) == k
  {
    if k == "AveragePeriod" { assert SensorName(AveragePeriod) == k; }
    else if k == "CloudCover" { assert SensorName(CloudCover) == k; }
    else if k == "DewPoint" { assert SensorName(DewPoint) == k; }
    else if k == "Humidity" { assert SensorName(Humidity) == k; }
    else if k == "Pressure" { assert SensorName(Pressure) == k; }
    else if k == "RainRate" { assert SensorName(RainRate) == k; }
    else if k == "SkyBrightness" { assert SensorName(SkyBrightness) == k; }
    else if k == "SkyQuality" { assert SensorName(SkyQuality) == k; }
    else if k == "SkyTemperature" { assert SensorName(SkyTemperature) == k; }
    else if k == "StarFWHM" { assert SensorName(StarFWHM) == k; }
    else if k == "Temperature" { assert SensorName(Temperature) == k; }
    else if k == "WindDirection" { assert SensorName(WindDirection) == k; }
    else if k == "WindGust" { assert SensorName(WindGust) == k; }
    else { assert SensorName(WindSpeed) == k; }
  }

  /** Every known sensor has a description, and only known sensors do. */
  lemma DescriptionsCoverTable()
    ensures SensorDescriptions.Keys == AvailableSensors.Keys
  {
  }

  /** "TimeStamp" is not a sensor. */
  lemma TimeStampIsNoSensor()
    ensures SensorTimeStamp !in AvailableSensors
  {
  }

  /** `IsValidSensor`: the name is one of the known sensor names, ignoring case. */
  function IsValidSensor(sensorName: string): (r: bool)
    ensures r <==> exists s :: EqualFold(SensorName(s), sensorName)
  {
    assert forall key :: key in AvailableSensors ==> exists s :: SensorName(s) == key by {
      forall key | key in AvailableSensors ensures exists s :: SensorName(s) == key {
        KnownNamesAreSensors(key);
      }
    }
    assert forall s :: SensorName(s) in AvailableSensors by {
      forall s ensures SensorName(s) in AvailableSensors { SensorNamesKnown(s); }
    }
    exists key | key in AvailableSensors :: EqualFold(key, sensorName)
  }

  /**
   * `IsSensorAvailable`: a valid name whose exact spelling is enabled in the table.
   * The case-insensitive validity check never changes the answer: a differently-cased
   * spelling of a known sensor is valid but misses the exact lookup.
   */
  function IsSensorAvailable(sensorName: string): (r: bool)
    ensures r <==> sensorName in AvailableSensors && AvailableSensors[sensorName]
    ensures r ==> IsValidSensor(sensorName)
  {
    EqualFoldEquivalence(sensorName, sensorName, sensorName);
    if !IsValidSensor(sensorName) then false
    else sensorName in AvailableSensors && AvailableSensors[sensorName]
  }

  /** `GetSensorDescription`: the description of an exactly-spelled known sensor, if any. */
  function GetSensorDescription(sensorName: string): (r: Option<string>)
    ensures r.Some? <==> sensorName in AvailableSensors
    ensures r.Some? ==> r.value == SensorDescriptions[sensorName]
  {
    if sensorName in SensorDescriptions then Some(SensorDescriptions[sensorName]) else None
  }

  /** Whether the gateway serves a sensor (the second column of the table). */
  predicate Served(s: Sensor)
  {
    !(s.CloudCover? || s.SkyBrightness? || s.SkyQuality? || s.SkyTemperature? || s.StarFWHM?)
  }

  /** A sensor is available under its own name exactly when the gateway serves it. */
  lemma AvailableSensorSet(s: Sensor)
    ensures IsSensorAvailable(SensorName(s)) <==> Served(s)
  {
    var n := SensorName(s);
    assert n in AvailableSensors && AvailableSensors[n] == Served(s) by {
      match s
      case AveragePeriod =>
      case CloudCover =>
      case DewPoint =>
      case Humidity =>
      case Pressure =>
      case RainRate =>
      case SkyBrightness =>
      case SkyQuality =>
      case SkyTemperature =>
      case StarFWHM =>
      case Temperature =>
      case WindDirection =>
      case WindGust =>
      case WindSpeed =>
    }
  }

  /** A differently-cased spelling of a known sensor is a valid sensor name... */
  lemma CaseVariantIsValid()
    ensures IsValidSensor("temperature")
  {
    assert EqualFold("Temperature", "temperature");
    ValidIfFoldsToSensor("temperature", Temperature);
  }

  /** ...but only the exact spelling is available. */
  lemma CaseVariantIsNotAvailable()
    ensures !IsSensorAvailable("temperature")
    ensures IsSensorAvailable("Temperature")
  {
    TableNamesCapitalised();
    assert !IsUpper("temperature"[0]);
    AvailableSensorSet(Temperature);
  }

  /** Every name in the table starts with a capital letter. */
  lemma TableNamesCapitalised()
    ensures forall k :: k in AvailableSensors ==> |k| > 0 && IsUpper(k[0])
  {
    forall k | k in AvailableSensors ensures |k| > 0 && IsUpper(k[0]) {
      KnownNamesAreSensors(k);
      var s :| SensorName(s) == k;
      SensorNameCapitalised(s);
    }
  }

  lemma SensorNameCapitalised(s: Sensor)
    ensures |SensorName(s)| > 0 && IsUpper(SensorName(s)[0])
  {
    match s
    case AveragePeriod =>
    case CloudCover =>
    case DewPoint =>
    case Humidity =>
    case Pressure =>
    case RainRate =>
    case SkyBrightness =>
    case SkyQuality =>
    case SkyTemperature =>
    case StarFWHM =>
    case Temperature =>
    case WindDirection =>
    case WindGust =>
    case WindSpeed =>
  }

  lemma ValidIfFoldsToSensor(n: string, s: Sensor)
    requires EqualFold(SensorName(s), n)
    ensures IsValidSensor(n)
  {
  }

  function DistinctSeq(s: seq<string>): bool
  {
    forall i, j :: 0 <= i < j < |s| ==> s[i] != s[j]
  }

  /**
   * `GetAvailableSensors`: each enabled sensor once, in the (unspecified) order in which
   * the loop visits the table.
   */
  method GetAvailableSensors() returns (sensors: seq<string>)
    ensures forall n :: n in sensors <==> n in AvailableSensors && AvailableSensors[n]
    ensures DistinctSeq(sensors)
  {
    sensors := [];
    var remaining := AvailableSensors.Keys;
    while remaining != {}
      invariant remaining <= AvailableSensors.Keys
      invariant forall n :: n in sensors <==> n in AvailableSensors.Keys - remaining && AvailableSensors[n]
      invariant DistinctSeq(sensors)
      decreases |remaining|
    {
      var sensor :| sensor in remaining;
      if AvailableSensors[sensor] {
        sensors := sensors + [sensor];
      }
      remaining := remaining - {sensor};
    }
  }

  /** The readings of a station, one per sensor. */
  datatype WeatherCondition = WeatherCondition(
    averagePeriod: real, cloudCover: real, dewPoint: real, humidity: real,
    pressure: real, rainRate: real, skyBrightness: real, skyQuality: real,
    skyTemperature: real, starFWHM: real, temperature: real,
    windDirection: real, windGust: real, windSpeed: real)

  const ZeroCondition: WeatherCondition :=
    WeatherCondition(0.0, 0.0, 0.0, 0.0, 0.0, 0.0, 0.0, 0.0, 0.0, 0.0, 0.0, 0.0, 0.0, 0.0)

  /** The reading of one sensor (the `GetX` accessors of a station). */
  function Reading(c: WeatherCondition, s: Sensor): real
  {
    match s
    case AveragePeriod => c.averagePeriod
    case CloudCover => c.cloudCover
    case DewPoint => c.dewPoint
    case Humidity => c.humidity
    case Pressure => c.pressure
    case RainRate => c.rainRate
    case SkyBrightness => c.skyBrightness
    case SkyQuality => c.skyQuality
    case SkyTemperature => c.skyTemperature
    case StarFWHM => c.starFWHM
    case Temperature => c.temperature
    case WindDirection => c.windDirection
    case WindGust => c.windGust
    case WindSpeed => c.windSpeed
  }

  /** The fields of the station's JSON document that the HTTP driver copies into its readings. */
  datatype WeatherReport = WeatherReport(
    temp: real, dewPt: real, humidity: int, windSpeedMs: real,
    windGustMs: real, windDir: int, baroMin: real, rainIn: real)

  /** The sensors an HTTP refresh overwrites. */
  predicate ReportedBy(s: Sensor)
  {
    s in {Temperature, DewPoint, Humidity, Pressure, WindSpeed, WindGust, WindDirection, RainRate}
  }

  /** Copies a report into the readings: eight sensors take the reported values, the others keep theirs. */
  function ApplyReport(c: WeatherCondition, r: WeatherReport): (c': WeatherCondition)
    ensures Reading(c', Temperature) == r.temp && Reading(c', DewPoint) == r.dewPt
    ensures Reading(c', Humidity) == r.humidity as real && Reading(c', Pressure) == r.baroMin
    ensures Reading(c', WindSpeed) == r.windSpeedMs && Reading(c', WindGust) == r.windGustMs
    ensures Reading(c', WindDirection) == r.windDir as real && Reading(c', RainRate) == r.rainIn
    ensures forall s :: !ReportedBy(s) ==> Reading(c', s) == Reading(c, s)
  {
    c.(temperature := r.temp, dewPoint := r.dewPt, humidity := r.humidity as real,
       pressure := r.baroMin, windSpeed := r.windSpeedMs, windGust := r.windGustMs,
       windDirection := r.windDir as real, rainRate := r.rainIn)
  }

  datatype WeatherError =
    | ErrInvalidPeriod
    | ErrInvalidURL
    | RequestFailed
    | StatusNotOk(code: int)
    | BodyReadFailed
    | ParseFailed

  /**
   * One poll of the station's endpoint: the request failed, or a response arrived with a
   * status code, the error of reading its body once into the 4096-byte buffer, and the
   * result of decoding that text as the station's JSON document.
   */
  datatype WeatherFetch =
    | TransportFailed
    | Response(status: int, readError: ReadError, decoded: Option<WeatherReport>)

  /** The error `Refresh` of the HTTP driver reports for a poll, if any, in the order it checks. */
  function FetchError(f: WeatherFetch): (e: Option<WeatherError>)
    ensures e.None? <==> f.Response? && f.status == 200 && f.readError != OtherError && f.decoded.Some?
  {
    match f
    case TransportFailed => Some(RequestFailed)
    case Response(status, readError, decoded) =>
      if status != 200 then Some(StatusNotOk(status))
      else if readError == OtherError then Some(BodyReadFailed)
      else if decoded.None? then Some(ParseFailed)
      else None
  }

  datatype StationKind = DummyStation | HttpStation(url: string)

  /** A weather station driver, with the readings and refresh time its methods update. */
  class ObservingConditions {
    const id: string
    const name: string
    const description: string
    const kind: StationKind
    var condition: WeatherCondition
    var lastRefreshTime: Time

    /** `NewObservingConditionsDummy`: all readings zero, never refreshed. */
    constructor Dummy(id: string, name: string, description: string)
      ensures this.id == id && this.name == name && this.description == description
      ensures kind == DummyStation
      ensures condition == ZeroCondition && lastRefreshTime == ZeroTime
    {
      this.id := id;
      this.name := name;
      this.description := description;
      kind := DummyStation;
      condition := ZeroCondition;
      lastRefreshTime := ZeroTime;
    }

    /** The zero-valued HTTP station before its first poll. */
    constructor Http(id: string, name: string, description: string, url: string)
      ensures this.id == id && this.name == name && this.description == description
      ensures kind == HttpStation(url)
      ensures condition == ZeroCondition && lastRefreshTime == ZeroTime
    {
      this.id := id;
      this.name := name;
      this.description := description;
      kind := HttpStation(url);
      condition := ZeroCondition;
      lastRefreshTime := ZeroTime;
    }

    /** Neither the readings nor the refresh time have changed. */
    twostate predicate Unpolled()
      reads this
    {
      condition == old(condition) && lastRefreshTime == old(lastRefreshTime)
    }

    function GetReading(s: Sensor): real
      reads this
    {
      Reading(condition, s)
    }

    function GetTimeSinceLastUpdate(now: Time): real
      reads this
    {
      SecondsSince(now, lastRefreshTime)
    }

    /** `SetAveragePeriod`: a negative period is refused; any other value replaces the average period alone. */
    method SetAveragePeriod(period: real) returns (err: Option<WeatherError>)
      modifies this
      ensures period < 0.0 ==> err == Some(ErrInvalidPeriod) && condition == old(condition)
      ensures period >= 0.0 ==> err == None && condition == old(condition).(averagePeriod := period)
      ensures period >= 0.0 ==> GetReading(AveragePeriod) == period
      ensures period >= 0.0 ==> forall s :: s != AveragePeriod ==> GetReading(s) == old(GetReading(s))
      ensures lastRefreshTime == old(lastRefreshTime)
    {
      if period < 0.0 {
        return Some(ErrInvalidPeriod);
      }
      condition := condition.(averagePeriod := period);
      err := None;
    }

    /**
     * `Refresh`: the dummy station does nothing; the HTTP station copies a successfully
     * decoded report into its readings and records the time, and on any error leaves
     * everything as it was.
     */
    method Refresh(fetch: WeatherFetch, now: Time) returns (err: Option<WeatherError>)
      modifies this
      ensures kind.DummyStation? ==> err == None && condition == old(condition) && lastRefreshTime == old(lastRefreshTime)
      ensures kind.HttpStation? ==> err == FetchError(fetch)
      ensures kind.HttpStation? && err.None? ==>
        condition == ApplyReport(old(condition), fetch.decoded.value) && lastRefreshTime == now
      ensures kind.HttpStation? && err.Some? ==> condition == old(condition) && lastRefreshTime == old(lastRefreshTime)
    {
      if kind.DummyStation? {
        return None;
      }
      match fetch {
        case TransportFailed =>
          return Some(RequestFailed);
        case Response(status, readError, decoded) =>
          if status != 200 {
            return Some(StatusNotOk(status));
          }
          if readError != NoError && readError != EndOfFile {
            return Some(BodyReadFailed);
          }
          if decoded.None? {
            return Some(ParseFailed);
          }
          condition := ApplyReport(condition, decoded.value);
          lastRefreshTime := now;
          err := None;
      }
    }
  }

  /**
   * `NewObservingConditionsHttp`: an empty URL is refused; otherwise the station sets its
   * average period to 0 and polls once, ignoring the outcome of that poll.
   */
  method NewObservingConditionsHttp(id: string, name: string, description: string, url: string,
                                    firstFetch: WeatherFetch, now: Time)
    returns (r: Result<ObservingConditions, WeatherError>)
    ensures url == "" <==> r.Failure?
    ensures r.Failure? ==> r.error == ErrInvalidURL
    ensures r.Success? ==> fresh(r.value) && r.value.kind == HttpStation(url)
    ensures r.Success? ==> r.value.id == id && r.value.name == name && r.value.description == description
    ensures r.Success? && FetchError(firstFetch).None? ==>
      r.value.condition == ApplyReport(ZeroCondition, firstFetch.decoded.value) && r.value.lastRefreshTime == now
    ensures r.Success? && FetchError(firstFetch).Some? ==>
      r.value.condition == ZeroCondition && r.value.lastRefreshTime == ZeroTime
  {
    if url == "" {
      return Failure(ErrInvalidURL);
    }
    var station := new ObservingConditions.Http(id, name, description, url);
    var _ := station.SetAveragePeriod(0.0);
    assert station.condition == ZeroCondition;
    var _ := station.Refresh(firstFetch, now);
    r := Success(station);
  }
}
