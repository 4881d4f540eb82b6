/**
 * The device-API server: the registry it serves, the table of devices by type and device
 * number that `Start` builds from it, and the server transaction counter that every
 * response envelope advances.
 */
module Api {
  import opened Wrappers
  import opened GoStrings
  import opened StringOrder
  import opened Protocol
  import opened Sessions
  import opened Middleware
  import App

  const MonitorKind: string := "safetymonitor"
  const WeatherKind: string := "observingconditions"

  /** A device table for one type: device i is a separate device for the i-th id. */
  ghost predicate Numbered(table: map<int, Device>, kind: string, ids: seq<string>)
  {
    (forall i :: i in table <==> 0 <= i < |ids|) &&
    (forall i :: 0 <= i < |ids| ==> table[i].id == ids[i] && table[i].kind == kind && table[i].index == i) &&
    (forall i, j :: 0 <= i < j < |ids| ==> table[i] != table[j])
  }

  /** The loop in `Start` that files one new device per id under its position. */
  method NumberDevices(ids: seq<string>, kind: string) returns (table: map<int, Device>)
    ensures Numbered(table, kind, ids)
    ensures forall i :: i in table ==> fresh(table[i]) && table[i].connectedClients == map[]
  {
    table := map[];
    var i := 0;
    while i < |ids|
      invariant 0 <= i <= |ids|
      invariant forall j :: j in table <==> 0 <= j < i
      invariant forall j :: 0 <= j < i ==> table[j].id == ids[j] && table[j].kind == kind && table[j].index == j
      invariant forall j, k :: 0 <= j < k < i ==> table[j] != table[k]
      invariant forall j :: j in table ==> fresh(table[j]) && table[j].connectedClients == map[]
    {
      var d := new Device(ids[i], kind, i);
      table := table[i := d];
      i := i + 1;
    }
  }

  class ApiServer {
    const apiPort: uint32
    const barn: App.Server
    /** The module version from the build information, reported as the driver version. */
    const buildVersion: string
    var serverTransactionId: uint32
    var devices: map<string, map<int, Device>>

    /** `NewApiServer`: no devices yet, counter at 0. */
    constructor (barn: App.Server, apiPort: uint32, buildVersion: string)
      ensures this.barn == barn && this.apiPort == apiPort && this.buildVersion == buildVersion
      ensures serverTransactionId == 0 && devices == map[]
    {
      this.barn := barn;
      this.apiPort := apiPort;
      this.buildVersion := buildVersion;
      serverTransactionId := 0;
      devices := map[];
    }

    /** Every device in the table. */
    ghost function Registered(): set<Device>
      reads this
    {
      set kind, i | kind in devices && i in devices[kind] :: devices[kind][i]
    }

    /**
     * The device-table part of `Start`: one device per monitor id and one per station id,
     * numbered in ascending id order as the registry's by-index lookups are.
     */
    method Start()
      modifies this
      ensures MonitorKind in devices && WeatherKind in devices
      ensures devices == old(devices)[MonitorKind := devices[MonitorKind]][WeatherKind := devices[WeatherKind]]
      ensures Numbered(devices[MonitorKind], MonitorKind, SortedListing(barn.monitors.Keys))
      ensures Numbered(devices[WeatherKind], WeatherKind, SortedListing(barn.weather.Keys))
      ensures forall i :: i in devices[MonitorKind] ==>
        fresh(devices[MonitorKind][i]) && devices[MonitorKind][i].connectedClients == map[]
      ensures forall i :: i in devices[WeatherKind] ==>
        fresh(devices[WeatherKind][i]) && devices[WeatherKind][i].connectedClients == map[]
      ensures forall i, j :: i in devices[MonitorKind] && j in devices[WeatherKind] ==>
        devices[MonitorKind][i] != devices[WeatherKind][j]
      ensures serverTransactionId == old(serverTransactionId)
    {
      assert MonitorKind != WeatherKind by {
        assert MonitorKind[0] != WeatherKind[0];
      }
      var monitorDevices, weatherDevices := BuildTables();
      devices := devices[MonitorKind := monitorDevices][WeatherKind := weatherDevices];
      assert devices[MonitorKind] == monitorDevices;
      assert devices[WeatherKind] == weatherDevices;
    }

    /** Both tables of `Start`, built one after the other from fresh devices. */
    method BuildTables() returns (monitorDevices: map<int, Device>, weatherDevices: map<int, Device>)
      ensures Numbered(monitorDevices, MonitorKind, SortedListing(barn.monitors.Keys))
      ensures Numbered(weatherDevices, WeatherKind, SortedListing(barn.weather.Keys))
      ensures forall i :: i in monitorDevices ==> fresh(monitorDevices[i]) && monitorDevices[i].connectedClients == map[]
      ensures forall i :: i in weatherDevices ==> fresh(weatherDevices[i]) && weatherDevices[i].connectedClients == map[]
      ensures forall i, j :: i in monitorDevices && j in weatherDevices ==> monitorDevices[i] != weatherDevices[j]
    {
      monitorDevices := MonitorTable();
      weatherDevices := WeatherTable();
    }

    /** The safety-monitor half of `Start`: a device per monitor id, in ascending id order. */
    method MonitorTable() returns (table: map<int, Device>)
      ensures Numbered(table, MonitorKind, SortedListing(barn.monitors.Keys))
      ensures forall i :: i in table ==> fresh(table[i]) && table[i].connectedClients == map[]
    {
      var ids := barn.GetMonitorIds();
      table := NumberDevices(ids, MonitorKind);
    }

    /** The observing-conditions half of `Start`: a device per station id, in ascending id order. */
    method WeatherTable() returns (table: map<int, Device>)
      ensures Numbered(table, WeatherKind, SortedListing(barn.weather.Keys))
      ensures forall i :: i in table ==> fresh(table[i]) && table[i].connectedClients == map[]
    {
      var ids := barn.GetWeatherIds();
      table := NumberDevices(ids, WeatherKind);
    }

    /**
     * What every handler does to the counter: a 200 envelope takes the next server
     * transaction number and echoes the request's one; any other reply leaves the counter
     * alone. No handler changes the device table.
     */
    twostate predicate Stamped(resp: Response, ctid: int)
      reads this
    {
      devices == old(devices) &&
      if resp.Envelope? then
        serverTransactionId == NextTransactionId(old(serverTransactionId)) &&
        resp.serverTransactionId == serverTransactionId &&
        resp.clientTransactionId == EchoTransactionId(ctid)
      else
        serverTransactionId == old(serverTransactionId)
    }

    /**
     * `prepareAlpacaResponse` followed by the 200 JSON reply: the counter moves on by one,
     * and the envelope carries the new counter and the request's transaction number.
     */
    method PrepareAlpacaResponse(req: Request, errorNumber: int, errorMessage: string, value: Value)
      returns (resp: Response)
      modifies this
      ensures serverTransactionId == NextTransactionId(old(serverTransactionId))
      ensures resp == Envelope(EchoTransactionId(GetClientTransactionId(req)), serverTransactionId,
                               errorNumber, errorMessage, value)
      ensures devices == old(devices)
    {
      var ctid := GetClientTransactionId(req);
      if ctid < 0 {
        ctid := 0;
      }
      serverTransactionId := (serverTransactionId + 1) % 0x1_0000_0000;
      resp := Envelope(ctid % 0x1_0000_0000, serverTransactionId, errorNumber, errorMessage, value);
    }

    /**
     * The `prepareResponse` function the response middleware stores: the same stamping,
     * with the transaction number taken from the validation context.
     */
    method PrepareFromContext(ctx: ValidationContext, errorNumber: int, errorMessage: string, value: Value)
      returns (resp: Response)
      modifies this
      ensures serverTransactionId == NextTransactionId(old(serverTransactionId))
      ensures resp == Envelope(EchoTransactionId(ctx.clientTransactionId), serverTransactionId,
                               errorNumber, errorMessage, value)
      ensures devices == old(devices)
    {
      var ctid := ctx.clientTransactionId;
      if ctid < 0 {
        ctid := 0;
      }
      serverTransactionId := (serverTransactionId + 1) % 0x1_0000_0000;
      resp := Envelope(ctid % 0x1_0000_0000, serverTransactionId, errorNumber, errorMessage, value);
    }
  }

  /** The two ways of stamping agree on every request the middleware lets through. */
  lemma StampingAgrees(req: Request)
    requires AlpacaValidation(req).Success?
    ensures EchoTransactionId(AlpacaValidation(req).value.clientTransactionId) ==
            EchoTransactionId(GetClientTransactionId(req))
  {
  }
}
