/**
 * The observing-conditions half of the device API
 * (`/api/v1/observingconditions/{device_number}/...`): one handler per route, each run
 * after the middleware has admitted the request, and the dispatcher in front of them.
 *
 * The station's clock reading, the outcome of a poll of its endpoint and Go's
 * `strconv.ParseFloat` are parameters.
 */
module WeatherApi {
  import opened Wrappers
  import opened GoStrings
  import opened Io
  import opened Protocol
  import opened Sessions
  import opened Middleware
  import opened Weather
  import opened Api

  const DriverInfo: string := "Alpaca Barn observing conditions"
  const RefreshAction: string := "Refresh"
  const RefreshFailed: string := "Failed to refresh weather data"
  const AveragePeriodRequired: string := "AveragePeriod parameter is required"
  const InvalidAveragePeriod: string := "Invalid AveragePeriod value"
  const SetAveragePeriodFailed: string := "Failed to set average period"
  const SensorNameRequired: string := "SensorName parameter is required"

  /** The sensors whose GET handler asks the availability table before answering. */
  predicate Checked(s: Sensor)
  {
    s.SkyBrightness? || s.SkyQuality? || s.SkyTemperature? || s.StarFWHM? || s.Temperature?
  }

  /** The 0x400 message of a checked sensor the gateway does not serve. */
  function UnsupportedSensor(s: Sensor): string
  {
    "Sensor " + SensorName(s) + " is not supported by this device"
  }

  /** The 0x400 message for a sensor named in a query. */
  function UnsupportedSensorName(n: string): string
  {
    "Sensor '" + n + "' is not supported by this device"
  }

  /** A sensor GET answered with 0x400: the sensor is checked and the gateway does not serve it. */
  predicate Refused(s: Sensor)
  {
    Checked(s) && !IsSensorAvailable(SensorName(s))
  }

  /**
   * Exactly four sensor GETs are refused: Temperature is checked but served, and CloudCover
   * is answered although the gateway does not serve it, because it is not checked.
   */
  lemma RefusedSensors(s: Sensor)
    ensures Refused(s) <==> s.SkyBrightness? || s.SkyQuality? || s.SkyTemperature? || s.StarFWHM?
  {
    if Checked(s) {
      AvailableSensorSet(s);
    }
  }

  /** CloudCover is not served, yet its GET is answered with the reading. */
  lemma CloudCoverIsAnswered()
    ensures !Refused(CloudCover) && !IsSensorAvailable(SensorName(CloudCover))
  {
    AvailableSensorSet(CloudCover);
  }

  /** The error a station's `Refresh` reports for a poll: none for the dummy driver. */
  function RefreshError(kind: StationKind, fetch: WeatherFetch): Option<WeatherError>
  {
    if kind.DummyStation? then None else FetchError(fetch)
  }

  /** The names of a device-state listing, in order. */
  function StateNames(states: seq<DeviceStateEntry>): (names: seq<string>)
    ensures |names| == |states| && forall i :: 0 <= i < |states| ==> names[i] == states[i].name
  {
    if states == [] then [] else [states[0].name] + StateNames(states[1..])
  }

  /** Each sensor the table enables exactly once, each with the value true. */
  predicate ListsEnabled(states: seq<DeviceStateEntry>, table: map<string, bool>)
  {
    (forall i :: 0 <= i < |states| ==> states[i].value == StateBool(true)) &&
    (forall n :: n in StateNames(states) ==> n in table && table[n]) &&
    (forall n :: n in table && table[n] ==> n in StateNames(states)) &&
    DistinctSeq(StateNames(states))
  }

  /**
   * The loop of `handleDeviceState` over the availability table (`AvailableSensors`), in
   * the order the loop visits it.
   */
  method EnabledStates(table: map<string, bool>) returns (states: seq<DeviceStateEntry>)
    ensures ListsEnabled(states, table)
  {
    states := [];
    var remaining := table.Keys;
    while remaining != {}
      invariant remaining <= table.Keys
      invariant forall i :: 0 <= i < |states| ==> states[i].value == StateBool(true)
      invariant forall n :: n in StateNames(states) <==> n in table && n !in remaining && table[n]
      invariant DistinctSeq(StateNames(states))
      decreases |remaining|
    {
      var name :| name in remaining;
      if table[name] {
        var entry := DeviceStateEntry(name, StateBool(true));
        assert StateNames(states + [entry]) == StateNames(states) + [name];
        states := states + [entry];
      }
      remaining := remaining - {name};
    }
  }

  /** The properties whose value does not depend on the device. */
  datatype FixedProperty = Connecting | DriverInfoProperty | DriverVersion | SupportedActions | InterfaceVersion

  /** The routes of an observing-conditions device; `GetSensor` covers the thirteen sensor readings. */
  datatype WeatherRoute =
    | PutConnect | PutDisconnect | PutConnected | PutAction | PutRefresh | PutAveragePeriod
    | GetConnected | GetFixed(property: FixedProperty) | GetName | GetDescription
    | GetAveragePeriod | GetSensor(sensor: Sensor) | GetSensorInfo | GetTimeSinceLastUpdate
    | GetDeviceState

  function RouteVerb(route: WeatherRoute): Verb
  {
    match route
    case PutConnect => Put
    case PutDisconnect => Put
    case PutConnected => Put
    case PutAction => Put
    case PutRefresh => Put
    case PutAveragePeriod => Put
    case _ => Get
  }

  /** There is a route for every sensor but the average period, which has its own. */
  predicate ValidRoute(route: WeatherRoute)
  {
    route.GetSensor? ==> route.sensor != AveragePeriod
  }

  function ConnectedArgument(req: Request): string
  {
    ToLower(PostForm(req.form, "Connected"))
  }

  class ObservingConditionsApi {
    const srv: ApiServer

    constructor (srv: ApiServer)
      ensures this.srv == srv
    {
      this.srv := srv;
    }

    /**
     * What the middleware hands a handler (`AdmitGuarantees`): the context describes this
     * request, and the device is the one filed under its number.
     */
    ghost predicate Admitted(req: Request, ctx: ValidationContext, dev: Device)
      reads srv
    {
      WeatherKind in srv.devices && ctx.deviceId in srv.devices[WeatherKind] &&
      srv.devices[WeatherKind][ctx.deviceId] == dev &&
      ctx.clientTransactionId == GetClientTransactionId(req)
    }

    /** The station the registry lists under the request's device number. */
    ghost function Target(ctx: ValidationContext): Option<ObservingConditions>
      reads srv.barn
    {
      srv.barn.WeatherAt(ctx.deviceId)
    }

    /** The station a handler may refresh: the target, if there is one. */
    ghost function Station(ctx: ValidationContext): set<ObservingConditions>
      reads srv.barn
    {
      if Target(ctx).Some? then {Target(ctx).value} else {}
    }

    /** Lookup and connection both pass. */
    ghost predicate Reachable(ctx: ValidationContext, dev: Device)
      reads srv.barn, dev
    {
      Target(ctx).Some? && dev.IsConnected(ctx.fullClientId)
    }

    function FixedValue(property: FixedProperty): Value
    {
      match property
      case Connecting => BoolValue(false)
      case DriverInfoProperty => StringValue(DriverInfo)
      case DriverVersion => StringValue(srv.buildVersion)
      case SupportedActions => StringListValue([RefreshAction])
      case InterfaceVersion => IntValue(2)
    }

    /** `handleConnectedGet`: whether this client is connected to the device. */
    method HandleConnected(req: Request, ctx: ValidationContext, dev: Device) returns (resp: Response)
      requires Admitted(req, ctx, dev)
      modifies srv
      ensures srv.Stamped(resp, ctx.clientTransactionId)
      ensures Carries(resp, BoolValue(dev.IsConnected(ctx.fullClientId)))
    {
      // `isRequestConnected` looks the device up again by number; it is `dev`.
      var device := srv.devices[WeatherKind][ctx.deviceId];
      var result := device.IsConnected(ctx.fullClientId);
      resp := srv.PrepareAlpacaResponse(req, 0, "", BoolValue(result));
    }

    /** `handleConnecting`, `handleDriverInfo`, `handleDriverVersion`, `handleSupportedActions`, `handleInterfaceVersion`. */
    method HandleFixed(req: Request, ctx: ValidationContext, dev: Device, property: FixedProperty)
      returns (resp: Response)
      requires Admitted(req, ctx, dev)
      modifies srv
      ensures srv.Stamped(resp, ctx.clientTransactionId)
      ensures property == Connecting ==> Carries(resp, BoolValue(false))
      ensures property == DriverInfoProperty ==> Carries(resp, StringValue(DriverInfo))
      ensures property == DriverVersion ==> Carries(resp, StringValue(srv.buildVersion))
      ensures property == SupportedActions ==> Carries(resp, StringListValue(["Refresh"]))
      ensures property == InterfaceVersion ==> Carries(resp, IntValue(2))
    {
      resp := srv.PrepareAlpacaResponse(req, 0, "", FixedValue(property));
    }

    /** `handleName`: the station's name, or "Device not found". */
    method HandleName(req: Request, ctx: ValidationContext, dev: Device) returns (resp: Response)
      requires Admitted(req, ctx, dev)
      modifies srv
      ensures srv.Stamped(resp, ctx.clientTransactionId)
      ensures Target(ctx).None? ==> resp == Text(400, DeviceNotFound)
      ensures Target(ctx).Some? ==> Carries(resp, StringValue(Target(ctx).value.name))
    {
      var device := srv.barn.GetWeatherByIndex(ctx.deviceId);
      if device.Failure? {
        return Text(400, DeviceNotFound);
      }
      resp := srv.PrepareAlpacaResponse(req, 0, "", StringValue(device.value.name));
    }

    /** `handleDescription`: the station's description, or "Device not found". */
    method HandleDescription(req: Request, ctx: ValidationContext, dev: Device) returns (resp: Response)
      requires Admitted(req, ctx, dev)
      modifies srv
      ensures srv.Stamped(resp, ctx.clientTransactionId)
      ensures Target(ctx).None? ==> resp == Text(400, DeviceNotFound)
      ensures Target(ctx).Some? ==> Carries(resp, StringValue(Target(ctx).value.description))
    {
      var device := srv.barn.GetWeatherByIndex(ctx.deviceId);
      if device.Failure? {
        return Text(400, DeviceNotFound);
      }
      resp := srv.PrepareAlpacaResponse(req, 0, "", StringValue(device.value.description));
    }

    /**
     * `handleAveragePeriodGet`: the period this client set, if it set one, and otherwise the
     * station's own; the device lookup comes before the connection check.
     */
    method HandleAveragePeriod(req: Request, ctx: ValidationContext, dev: Device) returns (resp: Response)
      requires Admitted(req, ctx, dev)
      modifies srv
      ensures srv.Stamped(resp, ctx.clientTransactionId)
      ensures Target(ctx).None? ==> resp == Text(400, DeviceNotFound)
      ensures Target(ctx).Some? && !dev.IsConnected(ctx.fullClientId) ==> resp == Text(400, NotConnected)
      ensures Reachable(ctx, dev) ==>
        var (own, found) := AveragePeriodOf(dev.connectedClients, ctx.fullClientId);
        Carries(resp, RealValue(if found then own else Target(ctx).value.GetReading(AveragePeriod)))
    {
      var device := srv.barn.GetWeatherByIndex(ctx.deviceId);
      if device.Failure? {
        return Text(400, DeviceNotFound);
      }
      if !dev.IsConnected(ctx.fullClientId) {
        return Text(400, NotConnected);
      }
      var averagePeriod, found := dev.GetWeatherAveragePeriod(ctx.fullClientId);
      if !found {
        averagePeriod := device.value.GetReading(AveragePeriod);
      }
      resp := srv.PrepareAlpacaResponse(req, 0, "", RealValue(averagePeriod));
    }

    /**
     * The thirteen sensor GETs (`handleCloudCover` ... `handleWindSpeed`): the reading, except
     * that a checked sensor the gateway does not serve gets a 0x400 envelope instead.
     */
    method HandleSensor(req: Request, ctx: ValidationContext, dev: Device, sensor: Sensor) returns (resp: Response)
      requires Admitted(req, ctx, dev) && sensor != AveragePeriod
      modifies srv
      ensures srv.Stamped(resp, ctx.clientTransactionId)
      ensures Target(ctx).None? ==> resp == Text(400, DeviceNotFound)
      ensures Target(ctx).Some? && !dev.IsConnected(ctx.fullClientId) ==> resp == Text(400, NotConnected)
      ensures Reachable(ctx, dev) && Refused(sensor) ==>
        EnvelopeOf(resp, NotImplemented, UnsupportedSensor(sensor), NoValue)
      ensures Reachable(ctx, dev) && !Refused(sensor) ==>
        Carries(resp, RealValue(Target(ctx).value.GetReading(sensor)))
    {
      var device := srv.barn.GetWeatherByIndex(ctx.deviceId);
      if device.Failure? {
        return Text(400, DeviceNotFound);
      }
      if !dev.IsConnected(ctx.fullClientId) {
        return Text(400, NotConnected);
      }
      if Refused(sensor) {
        resp := srv.PrepareAlpacaResponse(req, NotImplemented, UnsupportedSensor(sensor), NoValue);
        return;
      }
      resp := srv.PrepareAlpacaResponse(req, 0, "", RealValue(device.value.GetReading(sensor)));
    }

    /**
     * `handleTimeSinceLastUpdate`: seconds since the station's last successful poll; a
     * SensorName, when given, must name a served sensor (exact spelling).
     */
    method HandleTimeSinceLastUpdate(req: Request, ctx: ValidationContext, dev: Device, now: Time)
      returns (resp: Response)
      requires Admitted(req, ctx, dev)
      modifies srv
      ensures srv.Stamped(resp, ctx.clientTransactionId)
      ensures Target(ctx).None? ==> resp == Text(400, DeviceNotFound)
      ensures Target(ctx).Some? && !dev.IsConnected(ctx.fullClientId) ==> resp == Text(400, NotConnected)
      ensures Reachable(ctx, dev) ==>
        var n := GetQuery(req.query, "SensorName");
        if n != "" && !IsSensorAvailable(n)
        then EnvelopeOf(resp, NotImplemented, UnsupportedSensorName(n), NoValue)
        else Carries(resp, RealValue(Target(ctx).value.GetTimeSinceLastUpdate(now)))
    {
      var device := srv.barn.GetWeatherByIndex(ctx.deviceId);
      if device.Failure? {
        return Text(400, DeviceNotFound);
      }
      if !dev.IsConnected(ctx.fullClientId) {
        return Text(400, NotConnected);
      }
      var sensorName := GetQuery(req.query, "SensorName");
      if sensorName != "" && !IsSensorAvailable(sensorName) {
        resp := srv.PrepareAlpacaResponse(req, NotImplemented, UnsupportedSensorName(sensorName), NoValue);
        return;
      }
      resp := srv.PrepareAlpacaResponse(req, 0, "", RealValue(device.value.GetTimeSinceLastUpdate(now)));
    }

    /**
     * `handleSensorDescription`: the description of a served sensor (exact spelling); a
     * missing SensorName is a plain 400, an unserved one a 0x400 envelope.
     */
    method HandleSensorDescription(req: Request, ctx: ValidationContext, dev: Device) returns (resp: Response)
      requires Admitted(req, ctx, dev)
      modifies srv
      ensures srv.Stamped(resp, ctx.clientTransactionId)
      ensures Target(ctx).None? ==> resp == Text(400, DeviceNotFound)
      ensures Target(ctx).Some? && !dev.IsConnected(ctx.fullClientId) ==> resp == Text(400, NotConnected)
      ensures Reachable(ctx, dev) ==>
        var n := GetQuery(req.query, "SensorName");
        if n == "" then resp == Text(400, SensorNameRequired)
        else if !IsSensorAvailable(n) then EnvelopeOf(resp, NotImplemented, UnsupportedSensorName(n), NoValue)
        else Carries(resp, StringValue(SensorDescriptions[n]))
    {
      var device := srv.barn.GetWeatherByIndex(ctx.deviceId);
      if device.Failure? {
        return Text(400, DeviceNotFound);
      }
      if !dev.IsConnected(ctx.fullClientId) {
        return Text(400, NotConnected);
      }
      var sensorName := GetQuery(req.query, "SensorName");
      if sensorName == "" {
        return Text(400, SensorNameRequired);
      }
      if !IsSensorAvailable(sensorName) {
        resp := srv.PrepareAlpacaResponse(req, NotImplemented, UnsupportedSensorName(sensorName), NoValue);
        return;
      }
      var description := GetSensorDescription(sensorName);
      match description {
        case None =>
          // "Sensor '<name>' not found": every served sensor has a description.
          assert false;
        case Some(text) =>
          resp := srv.PrepareAlpacaResponse(req, 0, "", StringValue(text));
      }
    }

    /**
     * `handleDeviceState`: for a connected client, an entry per served sensor (in table
     * iteration order) and a final TimeStamp entry, all with the value true.
     */
    method HandleDeviceState(req: Request, ctx: ValidationContext, dev: Device) returns (resp: Response)
      requires Admitted(req, ctx, dev)
      modifies srv
      ensures srv.Stamped(resp, ctx.clientTransactionId)
      ensures Target(ctx).None? ==> resp == Text(400, DeviceNotFound)
      ensures Target(ctx).Some? && !dev.IsConnected(ctx.fullClientId) ==> resp == Text(400, NotConnected)
      ensures Reachable(ctx, dev) ==>
        resp.Envelope? && resp.errorNumber == 0 && resp.value.StateListValue? &&
        var states := resp.value.states;
        |states| > 0 && states[|states| - 1] == DeviceStateEntry(SensorTimeStamp, StateBool(true)) &&
        ListsEnabled(states[..|states| - 1], AvailableSensors)
    {
      var device := srv.barn.GetWeatherByIndex(ctx.deviceId);
      if device.Failure? {
        return Text(400, DeviceNotFound);
      }
      if !dev.IsConnected(ctx.fullClientId) {
        return Text(400, NotConnected);
      }
      var states := EnabledStates(AvailableSensors);
      var all := states + [DeviceStateEntry(SensorTimeStamp, StateBool(true))];
      assert all[..|all| - 1] == states;
      resp := srv.PrepareAlpacaResponse(req, 0, "", StateListValue(all));
    }

    /** `handleConnected` (PUT): "true" connects this client and "false" disconnects it, in any letter case. */
    method HandleSetConnected(req: Request, ctx: ValidationContext, dev: Device) returns (resp: Response)
      requires Admitted(req, ctx, dev)
      modifies srv, dev
      ensures srv.Stamped(resp, ctx.clientTransactionId)
      ensures Target(ctx).None? ==> resp == Text(400, DeviceNotFound) && unchanged(dev)
      ensures Target(ctx).Some? && ConnectedArgument(req) == "true" ==>
        Carries(resp, NoValue) && dev.connectedClients == WithConnected(old(dev.connectedClients), ctx.fullClientId)
      ensures Target(ctx).Some? && ConnectedArgument(req) == "false" ==>
        Carries(resp, NoValue) && dev.connectedClients == WithoutClient(old(dev.connectedClients), ctx.fullClientId)
      ensures Target(ctx).Some? && ConnectedArgument(req) != "true" && ConnectedArgument(req) != "false" ==>
        resp == Text(400, InvalidRequest) && unchanged(dev)
    {
      var connected := PostForm(req.form, "Connected");
      var station := srv.barn.GetWeatherByIndex(ctx.deviceId);
      if station.Failure? {
        return Text(400, DeviceNotFound);
      }
      var target := srv.devices[WeatherKind][ctx.deviceId];
      var id := ctx.fullClientId;  // `getFullClientId` again, which the context already holds
      if ToLower(connected) == "true" {
        target.ConnectClient(id);
      } else if ToLower(connected) == "false" {
        target.DisconnectClient(id);
      } else {
        return Text(400, InvalidRequest);
      }
      resp := srv.PrepareAlpacaResponse(req, 0, "", NoValue);
    }

    /**
     * `handleRefreshAction`: polls the station; a failed poll is a plain 500 and no
     * envelope, a good one an empty envelope.
     */
    method RefreshStation(req: Request, ctx: ValidationContext, station: ObservingConditions,
                          fetch: WeatherFetch, now: Time) returns (resp: Response)
      requires ctx.clientTransactionId == GetClientTransactionId(req)
      modifies srv, station
      ensures srv.Stamped(resp, ctx.clientTransactionId)
      ensures RefreshError(station.kind, fetch).Some? ==>
        resp == Text(500, RefreshFailed) && station.Unpolled()
      ensures RefreshError(station.kind, fetch).None? ==> Carries(resp, NoValue)
      ensures station.kind.HttpStation? && RefreshError(station.kind, fetch).None? ==>
        station.condition == ApplyReport(old(station.condition), fetch.decoded.value) && station.lastRefreshTime == now
      ensures station.kind.DummyStation? ==> station.Unpolled()
    {
      var err := station.Refresh(fetch, now);
      if err.Some? {
        return Text(500, RefreshFailed);
      }
      resp := srv.PrepareAlpacaResponse(req, 0, "", NoValue);
    }

    /**
     * `handleAction`: the one supported action, "Refresh" (exact spelling), polls the
     * station; the device is looked up and the connection checked first.
     */
    method HandleAction(req: Request, ctx: ValidationContext, dev: Device, fetch: WeatherFetch, now: Time)
      returns (resp: Response)
      requires Admitted(req, ctx, dev)
      modifies srv, Station(ctx)
      ensures srv.Stamped(resp, ctx.clientTransactionId)
      ensures Target(ctx).None? ==> resp == Text(400, DeviceNotFound)
      ensures Target(ctx).Some? && !dev.IsConnected(ctx.fullClientId) ==>
        resp == Text(400, NotConnected) && Target(ctx).value.Unpolled()
      ensures Reachable(ctx, dev) && PostForm(req.form, "Action") != RefreshAction ==>
        resp == Text(400, UnknownOperation) && Target(ctx).value.Unpolled()
      ensures Reachable(ctx, dev) && PostForm(req.form, "Action") == RefreshAction ==>
        var st := Target(ctx).value;
        if RefreshError(st.kind, fetch).Some? then resp == Text(500, RefreshFailed) && st.Unpolled()
        else Carries(resp, NoValue)
      ensures Reachable(ctx, dev) && PostForm(req.form, "Action") == RefreshAction ==>
        var st := Target(ctx).value;
        (st.kind.HttpStation? && RefreshError(st.kind, fetch).None? ==>
          st.condition == ApplyReport(old(st.condition), fetch.decoded.value) && st.lastRefreshTime == now) &&
        (st.kind.DummyStation? ==> st.Unpolled())
    {
      var device := srv.barn.GetWeatherByIndex(ctx.deviceId);
      if device.Failure? {
        return Text(400, DeviceNotFound);
      }
      var action := PostForm(req.form, "Action");
      if !dev.IsConnected(ctx.fullClientId) {
        return Text(400, NotConnected);
      }
      if action == RefreshAction {
        resp := RefreshStation(req, ctx, device.value, fetch, now);
      } else {
        resp := Text(400, UnknownOperation);
      }
    }

    /** `handleRefresh` (PUT /refresh): polls the station once the lookup and connection checks pass. */
    method HandleRefresh(req: Request, ctx: ValidationContext, dev: Device, fetch: WeatherFetch, now: Time)
      returns (resp: Response)
      requires Admitted(req, ctx, dev)
      modifies srv, Station(ctx)
      ensures srv.Stamped(resp, ctx.clientTransactionId)
      ensures Target(ctx).None? ==> resp == Text(400, DeviceNotFound)
      ensures Target(ctx).Some? && !dev.IsConnected(ctx.fullClientId) ==>
        resp == Text(400, NotConnected) && Target(ctx).value.Unpolled()
      ensures Reachable(ctx, dev) ==>
        var st := Target(ctx).value;
        if RefreshError(st.kind, fetch).Some? then resp == Text(500, RefreshFailed) && st.Unpolled()
        else Carries(resp, NoValue)
      ensures Reachable(ctx, dev) ==>
        var st := Target(ctx).value;
        (st.kind.HttpStation? && RefreshError(st.kind, fetch).None? ==>
          st.condition == ApplyReport(old(st.condition), fetch.decoded.value) && st.lastRefreshTime == now) &&
        (st.kind.DummyStation? ==> st.Unpolled())
    {
      var device := srv.barn.GetWeatherByIndex(ctx.deviceId);
      if device.Failure? {
        return Text(400, DeviceNotFound);
      }
      if !dev.IsConnected(ctx.fullClientId) {
        return Text(400, NotConnected);
      }
      resp := RefreshStation(req, ctx, device.value, fetch, now);
    }

    /**
     * `handleAveragePeriod` (PUT): stores this client's own averaging period. The value
     * must be present and parse as a float; it is not range-checked.
     */
    method HandleSetAveragePeriod(req: Request, ctx: ValidationContext, dev: Device,
                                  parseFloat: string -> Option<real>) returns (resp: Response)
      requires Admitted(req, ctx, dev)
      modifies srv, dev
      ensures srv.Stamped(resp, ctx.clientTransactionId)
      ensures Target(ctx).None? ==> resp == Text(400, DeviceNotFound) && unchanged(dev)
      ensures Target(ctx).Some? && !old(dev.IsConnected(ctx.fullClientId)) ==>
        resp == Text(400, NotConnected) && unchanged(dev)
      ensures Target(ctx).Some? && old(dev.IsConnected(ctx.fullClientId)) ==>
        var text := PostForm(req.form, "AveragePeriod");
        if text == "" then resp == Text(400, AveragePeriodRequired) && unchanged(dev)
        else if parseFloat(text).None? then resp == Text(400, InvalidAveragePeriod) && unchanged(dev)
        else (Carries(resp, NoValue) &&
          dev.connectedClients == WithAveragePeriod(old(dev.connectedClients), ctx.fullClientId, parseFloat(text).value).1)
    {
      var device := srv.barn.GetWeatherByIndex(ctx.deviceId);
      if device.Failure? {
        return Text(400, DeviceNotFound);
      }
      if !dev.IsConnected(ctx.fullClientId) {
        return Text(400, NotConnected);
      }
      var averagePeriodStr := PostForm(req.form, "AveragePeriod");
      if averagePeriodStr == "" {
        return Text(400, AveragePeriodRequired);
      }
      var averagePeriod := parseFloat(averagePeriodStr);
      if averagePeriod.None? {
        return Text(400, InvalidAveragePeriod);
      }
      var target := srv.devices[WeatherKind][ctx.deviceId];
      var success := target.SetWeatherAveragePeriod(ctx.fullClientId, averagePeriod.value);
      if !success {
        // "Failed to set average period": the client was found connected just above.
        assert false;
      }
      resp := srv.PrepareAlpacaResponse(req, 0, "", NoValue);
    }

    /** `handleConnect` (PUT /connect): connects this client at once. */
    method HandleConnect(req: Request, ctx: ValidationContext, dev: Device) returns (resp: Response)
      requires Admitted(req, ctx, dev)
      modifies srv, dev
      ensures srv.Stamped(resp, ctx.clientTransactionId)
      ensures Target(ctx).None? ==> resp == Text(400, DeviceNotFound) && unchanged(dev)
      ensures Target(ctx).Some? ==>
        Carries(resp, NoValue) && dev.connectedClients == WithConnected(old(dev.connectedClients), ctx.fullClientId)
    {
      var station := srv.barn.GetWeatherByIndex(ctx.deviceId);
      if station.Failure? {
        return Text(400, DeviceNotFound);
      }
      var target := srv.devices[WeatherKind][ctx.deviceId];
      target.ConnectClient(ctx.fullClientId);
      resp := srv.PrepareAlpacaResponse(req, 0, "", NoValue);
    }

    /** `handleDisconnect` (PUT /disconnect): drops this client's session at once. */
    method HandleDisconnect(req: Request, ctx: ValidationContext, dev: Device) returns (resp: Response)
      requires Admitted(req, ctx, dev)
      modifies srv, dev
      ensures srv.Stamped(resp, ctx.clientTransactionId)
      ensures Target(ctx).None? ==> resp == Text(400, DeviceNotFound) && unchanged(dev)
      ensures Target(ctx).Some? ==>
        Carries(resp, NoValue) && dev.connectedClients == WithoutClient(old(dev.connectedClients), ctx.fullClientId)
    {
      var station := srv.barn.GetWeatherByIndex(ctx.deviceId);
      if station.Failure? {
        return Text(400, DeviceNotFound);
      }
      var target := srv.devices[WeatherKind][ctx.deviceId];
      target.DisconnectClient(ctx.fullClientId);
      resp := srv.PrepareAlpacaResponse(req, 0, "", NoValue);
    }

    /** The device a request may change: the one the middleware admits it to, if any. */
    ghost function Addressed(req: Request): set<Device>
      reads srv
    {
      var r := Admit(srv.devices, WeatherKind, req);
      if r.Success? then {r.value.1} else {}
    }

    /** The station a request may refresh. */
    ghost function AddressedStation(req: Request): set<ObservingConditions>
      reads srv, srv.barn
    {
      var r := Admit(srv.devices, WeatherKind, req);
      if r.Success? then Station(r.value.0) else {}
    }

    /**
     * The route group: the three middlewares, then the route's handler. A rejected request
     * gets the middleware's error and changes nothing; otherwise only the addressed
     * device's sessions and its station can change, and every envelope is stamped.
     */
    method Serve(route: WeatherRoute, req: Request, fetch: WeatherFetch, now: Time,
                 parseFloat: string -> Option<real>) returns (resp: Response)
      requires req.verb == RouteVerb(route) && ValidRoute(route)
      modifies srv, Addressed(req), AddressedStation(req)
      ensures Admit(old(srv.devices), WeatherKind, req).Failure? ==>
        resp == Admit(old(srv.devices), WeatherKind, req).error
      ensures srv.Stamped(resp, GetClientTransactionId(req))
    {
      var admitted := Admit(srv.devices, WeatherKind, req);
      if admitted.Failure? {
        return admitted.error;
      }
      var (ctx, dev) := admitted.value;
      AdmitGuarantees(srv.devices, WeatherKind, req, ctx, dev);
      match route
      case PutConnect => resp := HandleConnect(req, ctx, dev);
      case PutDisconnect => resp := HandleDisconnect(req, ctx, dev);
      case PutConnected => resp := HandleSetConnected(req, ctx, dev);
      case PutAction => resp := HandleAction(req, ctx, dev, fetch, now);
      case PutRefresh => resp := HandleRefresh(req, ctx, dev, fetch, now);
      case PutAveragePeriod => resp := HandleSetAveragePeriod(req, ctx, dev, parseFloat);
      case GetConnected => resp := HandleConnected(req, ctx, dev);
      case GetFixed(property) => resp := HandleFixed(req, ctx, dev, property);
      case GetName => resp := HandleName(req, ctx, dev);
      case GetDescription => resp := HandleDescription(req, ctx, dev);
      case GetAveragePeriod => resp := HandleAveragePeriod(req, ctx, dev);
      case GetSensor(sensor) => resp := HandleSensor(req, ctx, dev, sensor);
      case GetSensorInfo => resp := HandleSensorDescription(req, ctx, dev);
      case GetTimeSinceLastUpdate => resp := HandleTimeSinceLastUpdate(req, ctx, dev, now);
      case GetDeviceState => resp := HandleDeviceState(req, ctx, dev);
    }
  }
}
