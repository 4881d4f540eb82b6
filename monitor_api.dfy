/**
 * The safety-monitor half of the device API (`/api/v1/safetymonitor/{device_number}/...`):
 * one handler per route, each run after the middleware has admitted the request, and the
 * dispatcher that puts the middleware in front of them.
 *
 * A handler reaches the monitor through the registry's by-index lookup and the session
 * table through the device the middleware found; the two are numbered the same way, in
 * ascending id order.
 */
module MonitorApi {
  import opened Wrappers
  import opened GoStrings
  import opened Protocol
  import opened Sessions
  import opened Middleware
  import opened Monitor
  import opened Api

  const DriverInfo: string := "Alpaca Barn safety monitor"
  const RawValueAction: string := "RawValue"

  /** The properties whose value does not depend on the device. */
  datatype FixedProperty = Connecting | DriverInfoProperty | DriverVersion | SupportedActions | InterfaceVersion

  /** The routes of a safety monitor. */
  datatype MonitorRoute =
    | PutConnected | PutAction | PutConnect | PutDisconnect
    | GetIsSafe | GetConnected | GetFixed(property: FixedProperty)
    | GetName | GetDescription | GetDeviceState

  function RouteVerb(route: MonitorRoute): Verb
  {
    match route
    case PutConnected => Put
    case PutAction => Put
    case PutConnect => Put
    case PutDisconnect => Put
    case _ => Get
  }

  /** The `Connected` form value of a PUT /connected, lower-cased, decides the request. */
  function ConnectedArgument(req: Request): string
  {
    ToLower(PostForm(req.form, "Connected"))
  }

  class SafetyMonitorApi {
    const srv: ApiServer

    constructor (srv: ApiServer)
      ensures this.srv == srv
    {
      this.srv := srv;
    }

    /**
     * What the middleware hands a handler (`AdmitGuarantees`): the context describes this
     * request, and the device is the one filed under its number.
     */
    ghost predicate Admitted(req: Request, ctx: ValidationContext, dev: Device)
      reads srv
    {
      MonitorKind in srv.devices && ctx.deviceId in srv.devices[MonitorKind] &&
      srv.devices[MonitorKind][ctx.deviceId] == dev &&
      ctx.clientTransactionId == GetClientTransactionId(req)
    }

    /** The monitor the registry lists under the request's device number. */
    ghost function Target(ctx: ValidationContext): Option<SafetyMonitor>
      reads srv.barn
    {
      srv.barn.MonitorAt(ctx.deviceId)
    }

    /** The value of a device-independent property. */
    function FixedValue(property: FixedProperty): Value
    {
      match property
      case Connecting => BoolValue(false)
      case DriverInfoProperty => StringValue(DriverInfo)
      case DriverVersion => StringValue(srv.buildVersion)
      case SupportedActions => StringListValue([RawValueAction])
      case InterfaceVersion => IntValue(2)
    }

    /**
     * `handleIsSafe`: true only for a connected client, and only when the registry has a
     * monitor under the device number and that monitor is safe; never an error.
     */
    method HandleIsSafe(req: Request, ctx: ValidationContext, dev: Device) returns (resp: Response)
      requires Admitted(req, ctx, dev)
      modifies srv
      ensures srv.Stamped(resp, ctx.clientTransactionId)
      ensures Carries(resp, BoolValue(
        dev.IsConnected(ctx.fullClientId) && Target(ctx).Some? && Target(ctx).value.IsSafe()))
    {
      var val := false;
      if dev.IsConnected(ctx.fullClientId) {
        var monitor := srv.barn.GetMonitorByIndex(ctx.deviceId);
        if monitor.Success? {
          val := monitor.value.IsSafe();
        }
      }
      resp := srv.PrepareFromContext(ctx, 0, "", BoolValue(val));
    }

    /** `handleConnected` (GET): whether this client is connected to the device. */
    method HandleConnected(req: Request, ctx: ValidationContext, dev: Device) returns (resp: Response)
      requires Admitted(req, ctx, dev)
      modifies srv
      ensures srv.Stamped(resp, ctx.clientTransactionId)
      ensures Carries(resp, BoolValue(dev.IsConnected(ctx.fullClientId)))
    {
      var result := dev.IsConnected(ctx.fullClientId);
      resp := srv.PrepareAlpacaResponse(req, 0, "", BoolValue(result));
    }

    /** `handleConnecting`, `handleDriverInfo`, `handleDriverVersion`, `handleSupportedActions`, `handleInterfaceVersion`. */
    method HandleFixed(req: Request, ctx: ValidationContext, dev: Device, property: FixedProperty)
      returns (resp: Response)
      requires Admitted(req, ctx, dev)
      modifies srv
      ensures srv.Stamped(resp, ctx.clientTransactionId)
      ensures property == Connecting ==> Carries(resp, BoolValue(false))
      ensures property == DriverInfoProperty ==> Carries(resp, StringValue(DriverInfo))
      ensures property == DriverVersion ==> Carries(resp, StringValue(srv.buildVersion))
      ensures property == SupportedActions ==> Carries(resp, StringListValue(["RawValue"]))
      ensures property == InterfaceVersion ==> Carries(resp, IntValue(2))
    {
      resp := srv.PrepareAlpacaResponse(req, 0, "", FixedValue(property));
    }

    /** `handleName`: the monitor's name, or "Device not found" when the registry has no such monitor. */
    method HandleName(req: Request, ctx: ValidationContext, dev: Device) returns (resp: Response)
      requires Admitted(req, ctx, dev)
      modifies srv
      ensures srv.Stamped(resp, ctx.clientTransactionId)
      ensures Target(ctx).None? ==> resp == Text(400, DeviceNotFound)
      ensures Target(ctx).Some? ==> Carries(resp, StringValue(Target(ctx).value.name))
    {
      var device := srv.barn.GetMonitorByIndex(ctx.deviceId);
      if device.Failure? {
        return Text(400, DeviceNotFound);
      }
      resp := srv.PrepareAlpacaResponse(req, 0, "", StringValue(device.value.name));
    }

    /** `handleDescription`: the monitor's description, or "Device not found". */
    method HandleDescription(req: Request, ctx: ValidationContext, dev: Device) returns (resp: Response)
      requires Admitted(req, ctx, dev)
      modifies srv
      ensures srv.Stamped(resp, ctx.clientTransactionId)
      ensures Target(ctx).None? ==> resp == Text(400, DeviceNotFound)
      ensures Target(ctx).Some? ==> Carries(resp, StringValue(Target(ctx).value.description))
    {
      var device := srv.barn.GetMonitorByIndex(ctx.deviceId);
      if device.Failure? {
        return Text(400, DeviceNotFound);
      }
      resp := srv.PrepareAlpacaResponse(req, 0, "", StringValue(device.value.description));
    }

    /**
     * `handleDeviceState`: for a connected client, the IsSafe verdict and the time of the
     * last reading; the device lookup comes before the connection check.
     */
    method HandleDeviceState(req: Request, ctx: ValidationContext, dev: Device) returns (resp: Response)
      requires Admitted(req, ctx, dev)
      modifies srv
      ensures srv.Stamped(resp, ctx.clientTransactionId)
      ensures Target(ctx).None? ==> resp == Text(400, DeviceNotFound)
      ensures Target(ctx).Some? && !dev.IsConnected(ctx.fullClientId) ==> resp == Text(400, NotConnected)
      ensures Target(ctx).Some? && dev.IsConnected(ctx.fullClientId) ==>
        var m := Target(ctx).value;
        Carries(resp, StateListValue([DeviceStateEntry("IsSafe", StateBool(m.IsSafe())),
                                      DeviceStateEntry("TimeStamp", StateTime(m.GetTimeStamp()))]))
    {
      var device := srv.barn.GetMonitorByIndex(ctx.deviceId);
      if device.Failure? {
        return Text(400, DeviceNotFound);
      }
      if !dev.IsConnected(ctx.fullClientId) {
        return Text(400, NotConnected);
      }
      var m := device.value;
      var states := [DeviceStateEntry("IsSafe", StateBool(m.IsSafe())),
                     DeviceStateEntry("TimeStamp", StateTime(m.GetTimeStamp()))];
      resp := srv.PrepareAlpacaResponse(req, 0, "", StateListValue(states));
    }

    /**
     * `handleSafetyMonitorConnect` (PUT /connected): "true" connects this client and
     * "false" disconnects it, in any letter case; any other value is an invalid request.
     */
    method HandleSetConnected(req: Request, ctx: ValidationContext, dev: Device) returns (resp: Response)
      requires Admitted(req, ctx, dev)
      modifies srv, dev
      ensures srv.Stamped(resp, ctx.clientTransactionId)
      ensures Target(ctx).None? ==> resp == Text(400, DeviceNotFound) && unchanged(dev)
      ensures Target(ctx).Some? && ConnectedArgument(req) == "true" ==>
        Carries(resp, NoValue) && dev.connectedClients == WithConnected(old(dev.connectedClients), ctx.fullClientId)
      ensures Target(ctx).Some? && ConnectedArgument(req) == "false" ==>
        Carries(resp, NoValue) && dev.connectedClients == WithoutClient(old(dev.connectedClients), ctx.fullClientId)
      ensures Target(ctx).Some? && ConnectedArgument(req) != "true" && ConnectedArgument(req) != "false" ==>
        resp == Text(400, InvalidRequest) && unchanged(dev)
    {
      var connected := PostForm(req.form, "Connected");
      var monitor := srv.barn.GetMonitorByIndex(ctx.deviceId);
      if monitor.Failure? {
        return Text(400, DeviceNotFound);
      }
      var target := srv.devices[MonitorKind][ctx.deviceId];
      var id := ctx.fullClientId;  // `getFullClientId` again, which the context already holds
      if ToLower(connected) == "true" {
        target.ConnectClient(id);
      } else if ToLower(connected) == "false" {
        target.DisconnectClient(id);
      } else {
        return Text(400, InvalidRequest);
      }
      resp := srv.PrepareAlpacaResponse(req, 0, "", NoValue);
    }

    /**
     * `handleSafetyMonitorAction`: the one supported action, "RawValue" (exact spelling),
     * returns the content behind the last verdict; the device is looked up and the
     * connection checked before the action name.
     */
    method HandleAction(req: Request, ctx: ValidationContext, dev: Device) returns (resp: Response)
      requires Admitted(req, ctx, dev)
      modifies srv
      ensures srv.Stamped(resp, ctx.clientTransactionId)
      ensures Target(ctx).None? ==> resp == Text(400, DeviceNotFound)
      ensures Target(ctx).Some? && !dev.IsConnected(ctx.fullClientId) ==> resp == Text(400, NotConnected)
      ensures Target(ctx).Some? && dev.IsConnected(ctx.fullClientId) ==>
        if PostForm(req.form, "Action") == RawValueAction
        then Carries(resp, StringValue(Target(ctx).value.GetRawValue()))
        else resp == Text(400, UnknownOperation)
    {
      var device := srv.barn.GetMonitorByIndex(ctx.deviceId);
      if device.Failure? {
        return Text(400, DeviceNotFound);
      }
      var action := PostForm(req.form, "Action");
      var again := srv.barn.GetMonitorByIndex(ctx.deviceId);
      if again.Failure? {
        return Text(400, DeviceNotFound);
      }
      if !dev.IsConnected(ctx.fullClientId) {
        return Text(400, NotConnected);
      }
      if action == RawValueAction {
        resp := srv.PrepareAlpacaResponse(req, 0, "", StringValue(device.value.GetRawValue()));
      } else {
        resp := Text(400, UnknownOperation);
      }
    }

    /** `handleConnect` (PUT /connect): connects this client at once, whatever its state. */
    method HandleConnect(req: Request, ctx: ValidationContext, dev: Device) returns (resp: Response)
      requires Admitted(req, ctx, dev)
      modifies srv, dev
      ensures srv.Stamped(resp, ctx.clientTransactionId)
      ensures Target(ctx).None? ==> resp == Text(400, DeviceNotFound) && unchanged(dev)
      ensures Target(ctx).Some? ==>
        Carries(resp, NoValue) && dev.connectedClients == WithConnected(old(dev.connectedClients), ctx.fullClientId)
    {
      var monitor := srv.barn.GetMonitorByIndex(ctx.deviceId);
      if monitor.Failure? {
        return Text(400, DeviceNotFound);
      }
      var target := srv.devices[MonitorKind][ctx.deviceId];
      target.ConnectClient(ctx.fullClientId);
      resp := srv.PrepareAlpacaResponse(req, 0, "", NoValue);
    }

    /** `handleDisconnect` (PUT /disconnect): drops this client's session at once. */
    method HandleDisconnect(req: Request, ctx: ValidationContext, dev: Device) returns (resp: Response)
      requires Admitted(req, ctx, dev)
      modifies srv, dev
      ensures srv.Stamped(resp, ctx.clientTransactionId)
      ensures Target(ctx).None? ==> resp == Text(400, DeviceNotFound) && unchanged(dev)
      ensures Target(ctx).Some? ==>
        Carries(resp, NoValue) && dev.connectedClients == WithoutClient(old(dev.connectedClients), ctx.fullClientId)
    {
      var monitor := srv.barn.GetMonitorByIndex(ctx.deviceId);
      if monitor.Failure? {
        return Text(400, DeviceNotFound);
      }
      var target := srv.devices[MonitorKind][ctx.deviceId];
      target.DisconnectClient(ctx.fullClientId);
      resp := srv.PrepareAlpacaResponse(req, 0, "", NoValue);
    }

    /** The devices a request may change: the one the middleware admits it to, if any. */
    ghost function Addressed(req: Request): set<Device>
      reads srv
    {
      var r := Admit(srv.devices, MonitorKind, req);
      if r.Success? then {r.value.1} else {}
    }

    /**
     * The route group: the three middlewares, then the route's handler. A rejected request
     * gets the middleware's error and changes nothing; otherwise only the addressed
     * device's sessions can change, and every envelope is stamped.
     */
    method Serve(route: MonitorRoute, req: Request) returns (resp: Response)
      requires req.verb == RouteVerb(route)
      modifies srv, Addressed(req)
      ensures Admit(old(srv.devices), MonitorKind, req).Failure? ==>
        resp == Admit(old(srv.devices), MonitorKind, req).error
      ensures srv.Stamped(resp, GetClientTransactionId(req))
    {
      var admitted := Admit(srv.devices, MonitorKind, req);
      if admitted.Failure? {
        return admitted.error;
      }
      var (ctx, dev) := admitted.value;
      AdmitGuarantees(srv.devices, MonitorKind, req, ctx, dev);
      match route
      case PutConnected => resp := HandleSetConnected(req, ctx, dev);
      case PutAction => resp := HandleAction(req, ctx, dev);
      case PutConnect => resp := HandleConnect(req, ctx, dev);
      case PutDisconnect => resp := HandleDisconnect(req, ctx, dev);
      case GetIsSafe => resp := HandleIsSafe(req, ctx, dev);
      case GetConnected => resp := HandleConnected(req, ctx, dev);
      case GetFixed(property) => resp := HandleFixed(req, ctx, dev, property);
      case GetName => resp := HandleName(req, ctx, dev);
      case GetDescription => resp := HandleDescription(req, ctx, dev);
      case GetDeviceState => resp := HandleDeviceState(req, ctx, dev);
    }
  }
}
