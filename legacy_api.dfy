/**
 * The device API of the first version: safety monitors only, three routes
 * (`PUT .../connected`, `PUT .../action`, `GET .../{action}`), request checks done inline
 * by each handler, and one session table per device without weather state.
 */
module LegacyApi {
  import opened Wrappers
  import opened GoStrings
  import opened StringOrder
  import opened Protocol
  import Sessions
  import Middleware
  import opened LegacyMonitor
  import opened LegacyBarn

  const MonitorKind: string := "safetymonitor"
  const DriverInfo: string := "Alpaca Barn safety monitor"
  const RawValueAction: string := "RawValue"

  // ---------------------------------------------------------------- sessions

  /** A client's record: no weather state in this version. */
  datatype LegacyClient = LegacyClient(clientId: Sessions.ClientId, clientTransactionId: uint32, connected: bool)

  type LegacyTable = map<Sessions.ClientId, LegacyClient>

  predicate ClientConnected(t: LegacyTable, id: Sessions.ClientId)
  {
    id in t && t[id].connected
  }

  /** The table after `ConnectClient(id)`: an existing record is marked connected, else a new one is filed. */
  function WithConnected(t: LegacyTable, id: Sessions.ClientId): (r: LegacyTable)
    ensures r.Keys == t.Keys + {id}
    ensures ClientConnected(r, id)
    ensures id !in t ==> r[id] == LegacyClient(id, 0, true)
    ensures id in t ==> r[id] == t[id].(connected := true)
    ensures forall k :: k in t && k != id ==> r[k] == t[k]
  {
    if id in t then
      if !t[id].connected then t[id := t[id].(connected := true)] else t
    else t[id := LegacyClient(id, 0, true)]
  }

  /** The table after `DisconnectClient(id)`: the record is deleted. */
  function WithoutClient(t: LegacyTable, id: Sessions.ClientId): (r: LegacyTable)
    ensures r.Keys == t.Keys - {id}
    ensures !ClientConnected(r, id)
    ensures forall k :: k in r ==> r[k] == t[k]
  {
    t - {id}
  }

  /** A record of the later version with its weather state dropped. */
  function Forget(t: Sessions.ClientTable): LegacyTable
  {
    map k | k in t :: LegacyClient(t[k].clientId, t[k].clientTransactionId, t[k].connected)
  }

  /**
   * The sessions of this version are those of the later one without the weather state:
   * connection status, connecting and disconnecting all agree once that state is dropped.
   */
  lemma SessionsMatchLaterVersion(t: Sessions.ClientTable, id: Sessions.ClientId)
    ensures ClientConnected(Forget(t), id) == Sessions.ClientConnected(t, id)
    ensures Forget(Sessions.WithConnected(t, id)) == WithConnected(Forget(t), id)
    ensures Forget(Sessions.WithoutClient(t, id)) == WithoutClient(Forget(t), id)
  {
    ForgetCommutesWithConnect(t, id);
    ForgetCommutesWithRemove(t, id);
  }

  lemma ForgetCommutesWithConnect(t: Sessions.ClientTable, id: Sessions.ClientId)
    ensures Forget(Sessions.WithConnected(t, id)) == WithConnected(Forget(t), id)
  {
    var c := Forget(Sessions.WithConnected(t, id));
    var l := WithConnected(Forget(t), id);
    assert c.Keys == l.Keys;
    forall k | k in c ensures c[k] == l[k] {
    }
  }

  lemma ForgetCommutesWithRemove(t: Sessions.ClientTable, id: Sessions.ClientId)
    ensures Forget(Sessions.WithoutClient(t, id)) == WithoutClient(Forget(t), id)
  {
    var d := Forget(Sessions.WithoutClient(t, id));
    var w := WithoutClient(Forget(t), id);
    assert d.Keys == w.Keys;
  }

  /** Connecting twice leaves the same single record as once; disconnecting an unknown client changes nothing. */
  lemma LegacySessionLaws(t: LegacyTable, id: Sessions.ClientId)
    ensures WithConnected(WithConnected(t, id), id) == WithConnected(t, id)
    ensures id !in t ==> WithoutClient(t, id) == t
    ensures ClientConnected(t, id) ==> WithConnected(t, id) == t
  {
  }

  /** A device's session table. */
  class LegacyDevice {
    const id: string
    const kind: string
    const index: int
    var connectedClients: LegacyTable

    constructor (id: string, kind: string, index: int)
      ensures this.id == id && this.kind == kind && this.index == index
      ensures connectedClients == map[]
    {
      this.id := id;
      this.kind := kind;
      this.index := index;
      connectedClients := map[];
    }

    predicate IsConnected(cid: Sessions.ClientId)
      reads this
    {
      ClientConnected(connectedClients, cid)
    }

    /** `ConnectClient`. */
    method ConnectClient(cid: Sessions.ClientId)
      modifies this
      ensures connectedClients == WithConnected(old(connectedClients), cid)
    {
      if cid in connectedClients {
        if !connectedClients[cid].connected {
          connectedClients := connectedClients[cid := connectedClients[cid].(connected := true)];
        }
        return;
      }
      connectedClients := connectedClients[cid := LegacyClient(cid, 0, true)];
    }

    /** `DisconnectClient`. */
    method DisconnectClient(cid: Sessions.ClientId)
      modifies this
      ensures connectedClients == WithoutClient(old(connectedClients), cid)
    {
      connectedClients := connectedClients - {cid};
    }
  }

  // ---------------------------------------------------------------- request parsing

  /**
   * `c.DefaultQuery(key, "")`: the first value of the query key spelled exactly `key`,
   * or "" when there is none. Unlike the later parser, letter case matters.
   */
  function QueryValue(query: Query, key: string): (r: string)
    ensures (forall i :: 0 <= i < |query| ==> query[i].0 != key) ==> r == ""
  {
    if query == [] then ""
    else if query[0].0 == key then (if query[0].1 == [] then "" else query[0].1[0])
    else QueryValue(query[1..], key)
  }

  /** The first entry spelled exactly `key` supplies the value. */
  lemma {:induction false} QueryValueFirstExact(query: Query, key: string, i: int)
    requires 0 <= i < |query| && query[i].0 == key
    requires forall j :: 0 <= j < i ==> query[j].0 != key
    ensures QueryValue(query, key) == if query[i].1 == [] then "" else query[i].1[0]
  {
    if i > 0 {
      assert query[0].0 != key;
      forall j | 0 <= j < i - 1 ensures query[1..][j].0 != key {
        assert query[1..][j] == query[j + 1];
      }
      QueryValueFirstExact(query[1..], key, i - 1);
    }
  }

  /** The raw ClientID text: "ClientID", then "clientid", from the query of a GET or the form of a PUT. */
  function LegacyClientIdText(req: Request): string
  {
    if req.verb == Get then
      if QueryValue(req.query, "ClientID") != "" then QueryValue(req.query, "ClientID")
      else QueryValue(req.query, "clientid")
    else if PostForm(req.form, "ClientID") != "" then PostForm(req.form, "ClientID")
    else PostForm(req.form, "clientid")
  }

  /** `getClientId`: the client number, or -1 when it is missing, not an integer or negative. */
  function LegacyGetClientId(req: Request): (cid: int)
    ensures -1 <= cid <= MaxInt64
    ensures cid >= 0 <==> Atoi(LegacyClientIdText(req)).Some? && Atoi(LegacyClientIdText(req)).value >= 0
    ensures cid >= 0 ==> Atoi(LegacyClientIdText(req)) == Some(cid)
  {
    var text := LegacyClientIdText(req);
    if text == "" then -1 else ParseId(text)
  }

  /** A PUT's client number is read as the later version reads it. */
  lemma PutClientIdUnchanged(req: Request)
    requires req.verb == Put
    ensures LegacyGetClientId(req) == GetClientId(req)
  {
  }

  /** A GET's keys must be spelled exactly: "CLIENTID=5" is no client number here, but is one for the later parser. */
  lemma GetClientIdIsCaseSensitive()
    ensures var req := Request(Get, "0", [("CLIENTID", ["5"])], map[], "10.0.0.1");
      LegacyGetClientId(req) == -1 && GetClientId(req) == 5
  {
    LegacyMissesShoutedKey();
    LaterFoldsShoutedKey();
  }

  lemma LegacyMissesShoutedKey()
    ensures LegacyGetClientId(Request(Get, "0", [("CLIENTID", ["5"])], map[], "10.0.0.1")) == -1
  {
    var req := Request(Get, "0", [("CLIENTID", ["5"])], map[], "10.0.0.1");
    assert QueryValue(req.query, "ClientID") == "" && QueryValue(req.query, "clientid") == "";
  }

  lemma LaterFoldsShoutedKey()
    ensures GetClientId(Request(Get, "0", [("CLIENTID", ["5"])], map[], "10.0.0.1")) == 5
  {
    var req := Request(Get, "0", [("CLIENTID", ["5"])], map[], "10.0.0.1");
    assert EqualFold("ClientID", "CLIENTID");
    assert GetQuery(req.query, "ClientID") == "5";
    assert AllDigits("5") && DigitsValue("5") == 5;
  }

  /**
   * The raw ClientTransactionID text as written: a PUT looks up the form field
   * "ClientTransactionID" twice, so a field spelled "clienttransactionid" is never read.
   */
  function TransactionIdTextAsWritten(req: Request): string
  {
    if req.verb == Get then
      if QueryValue(req.query, "ClientTransactionID") != "" then QueryValue(req.query, "ClientTransactionID")
      else QueryValue(req.query, "clienttransactionid")
    else if PostForm(req.form, "ClientTransactionID") != "" then PostForm(req.form, "ClientTransactionID")
    else PostForm(req.form, "ClientTransactionID")
  }

  /** `getClientTransactionId` as written. */
  function ClientTransactionIdAsWritten(req: Request): int
  {
    var text := TransactionIdTextAsWritten(req);
    if text == "" then -1 else ParseId(text)
  }

  /** The raw ClientTransactionID text with the second lookup reading the lower-case spelling, as for ClientID. */
  function LegacyTransactionIdText(req: Request): string
  {
    if req.verb == Get then
      if QueryValue(req.query, "ClientTransactionID") != "" then QueryValue(req.query, "ClientTransactionID")
      else QueryValue(req.query, "clienttransactionid")
    else if PostForm(req.form, "ClientTransactionID") != "" then PostForm(req.form, "ClientTransactionID")
    else PostForm(req.form, "clienttransactionid")
  }

  /** `getClientTransactionId`, corrected: the transaction number, or -1 when missing, not an integer or negative. */
  function LegacyGetClientTransactionId(req: Request): (ctid: int)
    ensures -1 <= ctid <= MaxInt64
    ensures ctid >= 0 <==> Atoi(LegacyTransactionIdText(req)).Some? && Atoi(LegacyTransactionIdText(req)).value >= 0
    ensures ctid >= 0 ==> Atoi(LegacyTransactionIdText(req)) == Some(ctid)
  {
    var text := LegacyTransactionIdText(req);
    if text == "" then -1 else ParseId(text)
  }

  /** A PUT with a form that carries `v` under `key` and no other transaction field. */
  function PutWith(req: Request, key: string, v: string): Request
  {
    req.(verb := Put, form := req.form - {"ClientTransactionID", "clienttransactionid"} + map[key := [v]])
  }

  /** As written, the lower-case spelling is ignored: such a PUT has no transaction number. */
  lemma LowerCaseTransactionFieldIgnored(req: Request, v: string)
    ensures ClientTransactionIdAsWritten(PutWith(req, "clienttransactionid", v)) == -1
  {
    var r := PutWith(req, "clienttransactionid", v);
    assert "ClientTransactionID" !in r.form by {
      assert "ClientTransactionID" != "clienttransactionid" by {
        assert "ClientTransactionID"[0] != "clienttransactionid"[0];
      }
    }
  }

  /** Corrected, the two spellings are interchangeable, as they are for ClientID. */
  lemma TransactionFieldSpellingsAgree(req: Request, v: string)
    ensures LegacyGetClientTransactionId(PutWith(req, "clienttransactionid", v)) ==
            LegacyGetClientTransactionId(PutWith(req, "ClientTransactionID", v))
  {
    var lower := PutWith(req, "clienttransactionid", v);
    var upper := PutWith(req, "ClientTransactionID", v);
    assert "ClientTransactionID" != "clienttransactionid" by {
      assert "ClientTransactionID"[0] != "clienttransactionid"[0];
    }
    assert "ClientTransactionID" !in lower.form;
    if v == "" {
      assert "clienttransactionid" !in upper.form;
    }
    assert LegacyTransactionIdText(lower) == LegacyTransactionIdText(upper);
  }

  /** `getFullClientId`: the remote address, a dash and the client number (-1 when invalid). */
  function LegacyFullClientId(req: Request): string
  {
    req.remoteIp + "-" + Itoa(LegacyGetClientId(req))
  }

  /** As written, `validAlpacaRequest`: an integer device number and client and transaction numbers that are not negative. */
  predicate ValidAsWritten(req: Request)
  {
    Atoi(req.deviceIdParam).Some? && LegacyGetClientId(req) >= 0 && ClientTransactionIdAsWritten(req) >= 0
  }

  /** `validAlpacaRequest`, over the corrected transaction parser. */
  predicate LegacyValidAlpacaRequest(req: Request)
  {
    Atoi(req.deviceIdParam).Some? && LegacyGetClientId(req) >= 0 && LegacyGetClientTransactionId(req) >= 0
  }

  /** A PUT that spells its transaction field in lower case is refused as written and accepted corrected. */
  lemma LowerCaseTransactionCounterexample()
    ensures var req := Request(Put, "0", [], map["ClientID" := ["1"], "clienttransactionid" := ["7"]], "10.0.0.1");
      !ValidAsWritten(req) && LegacyValidAlpacaRequest(req) && LegacyGetClientTransactionId(req) == 7
  {
    var req := Request(Put, "0", [], map["ClientID" := ["1"], "clienttransactionid" := ["7"]], "10.0.0.1");
    assert "ClientTransactionID" != "clienttransactionid" by {
      assert "ClientTransactionID"[0] != "clienttransactionid"[0];
    }
    assert "ClientTransactionID" !in req.form;
    assert AllDigits("0") && DigitsValue("0") == 0;
    assert AllDigits("1") && DigitsValue("1") == 1;
    assert AllDigits("7") && DigitsValue("7") == 7;
  }

  /** Client number 0 and transaction number 0 are accepted here; the later middleware refuses them. */
  lemma ZeroNumbersAcceptedHereOnly(req: Request)
    requires req.verb == Put && Atoi(req.deviceIdParam).Some?
    requires PostForm(req.form, "ClientID") == "0" && PostForm(req.form, "ClientTransactionID") == "0"
    ensures LegacyValidAlpacaRequest(req)
    ensures Middleware.AlpacaValidation(req).Failure?
  {
    assert AllDigits("0") && DigitsValue("0") == 0;
  }

  /** Device number -1 passes `validAlpacaRequest`, and as written the lookup that follows panics. */
  lemma NegativeDeviceNumberPanics(monitors: Registry)
    ensures var req := Request(Get, "-1", [], map[], "10.0.0.1");
      Atoi(req.deviceIdParam) == Some(-1) && ByIndexAsWritten(monitors, -1) == IndexPanic
  {
    assert AllDigits("1") && DigitsValue("1") == 1;
  }

  // ---------------------------------------------------------------- the server

  /** The GET actions `handleSafetyMonitorRequest` answers once the action is lower-cased. */
  const RequestActions: set<string> :=
    {"issafe", "connected", "name", "description", "driverinfo", "driverversion", "supportedactions", "interfaceversion"}

  /**
   * A device table numbering the registry: numbers 0..count-1, each naming a different
   * registered id, and every registered id under some number.
   */
  ghost predicate NumberedByIds(table: map<int, LegacyDevice>, monitors: Registry)
  {
    (forall i :: i in table <==> 0 <= i < |monitors|) &&
    (forall i :: i in table ==> table[i].id in monitors && table[i].index == i) &&
    (forall i, j :: i in table && j in table && i != j ==> table[i].id != table[j].id) &&
    (forall k :: k in monitors ==> exists i :: i in table && table[i].id == k)
  }

  /** The loop in `Start` that files one device per id under its position in the listing. */
  method NumberLegacyDevices(ids: seq<string>) returns (table: map<int, LegacyDevice>)
    ensures forall i :: i in table <==> 0 <= i < |ids|
    ensures forall i :: 0 <= i < |ids| ==> table[i].id == ids[i] && table[i].kind == MonitorKind && table[i].index == i
    ensures forall i :: i in table ==> fresh(table[i]) && table[i].connectedClients == map[]
  {
    table := map[];
    var i := 0;
    while i < |ids|
      invariant 0 <= i <= |ids|
      invariant forall j :: j in table <==> 0 <= j < i
      invariant forall j :: 0 <= j < i ==> table[j].id == ids[j] && table[j].kind == MonitorKind && table[j].index == j
      invariant forall j :: j in table ==> fresh(table[j]) && table[j].connectedClients == map[]
    {
      var d := new LegacyDevice(ids[i], MonitorKind, i);
      table := table[i := d];
      i := i + 1;
    }
  }

  class LegacyApiServer {
    const apiPort: uint32
    const barn: LegacyServer
    /** The module version from the build information, reported as the driver version. */
    const buildVersion: string
    var serverTransactionId: uint32
    var devices: map<string, map<int, LegacyDevice>>

    /** `NewApiServer`: no devices yet, counter at 0. */
    constructor (barn: LegacyServer, apiPort: uint32, buildVersion: string)
      ensures this.barn == barn && this.apiPort == apiPort && this.buildVersion == buildVersion
      ensures serverTransactionId == 0 && devices == map[]
    {
      this.barn := barn;
      this.apiPort := apiPort;
      this.buildVersion := buildVersion;
      serverTransactionId := 0;
      devices := map[];
    }

    /** Every ordinal the registry answers has a session table (what `Start` sets up). */
    ghost predicate Registered()
      reads this, barn
    {
      MonitorKind in devices && forall i :: 0 <= i < |barn.monitors| ==> i in devices[MonitorKind]
    }

    /**
     * The device-table part of `Start`: one device per monitor id, every id once. The ids
     * come in map order, so a device's `id` need not be the id of the monitor its number
     * addresses; only the count matters to the handlers.
     */
    method Start()
      modifies this
      ensures MonitorKind in devices
      ensures devices == old(devices)[MonitorKind := devices[MonitorKind]]
      ensures NumberedByIds(devices[MonitorKind], barn.monitors)
      ensures forall i :: i in devices[MonitorKind] ==>
        fresh(devices[MonitorKind][i]) && devices[MonitorKind][i].connectedClients == map[]
      ensures Registered()
      ensures serverTransactionId == old(serverTransactionId)
    {
      var table := MonitorDevices();
      devices := devices[MonitorKind := table];
    }

    /** The ids of the registry, numbered one device each by `NumberLegacyDevices`. */
    method MonitorDevices() returns (table: map<int, LegacyDevice>)
      ensures NumberedByIds(table, barn.monitors)
      ensures forall i :: i in table ==> fresh(table[i]) && table[i].connectedClients == map[]
    {
      var ids := barn.GetMonitorIds();
      table := NumberLegacyDevices(ids);
      forall i | 0 <= i < |ids| ensures table[i].id in barn.monitors {
        assert ids[i] in Elements(ids);
      }
      forall i, j | i in table && j in table && i != j ensures table[i].id != table[j].id {
        if i < j { assert ids[i] != ids[j]; } else { assert ids[j] != ids[i]; }
      }
      forall k | k in barn.monitors ensures exists i :: i in table && table[i].id == k {
        assert k in Elements(ids);
        var i :| 0 <= i < |ids| && ids[i] == k;
        assert i in table && table[i].id == k;
      }
    }

    /** The session table for the request's device number, if there is one. */
    ghost function Session(req: Request): Option<LegacyDevice>
      reads this
    {
      var n := Atoi(req.deviceIdParam);
      if n.Some? && MonitorKind in devices && n.value in devices[MonitorKind] then
        Some(devices[MonitorKind][n.value])
      else None
    }

    ghost function Addressed(req: Request): set<object>
      reads this
    {
      if Session(req).Some? then {Session(req).value} else {}
    }

    /** The monitor the registry lists under the request's device number, if any. */
    ghost function Target(req: Request): Option<LegacySafetyMonitor>
      reads this, barn
    {
      var n := Atoi(req.deviceIdParam);
      if n.Some? then Ordinal(barn.monitors, n.value) else None
    }

    /** A monitor found by number always has a session table. */
    lemma TargetHasSession(req: Request)
      requires Registered() && Target(req).Some?
      ensures Session(req).Some?
    {
    }

    /** A 200 envelope takes the next server transaction number and echoes `ctid`; anything else leaves the counter. */
    twostate predicate Stamped(resp: Response, ctid: int)
      reads this
    {
      devices == old(devices) &&
      if resp.Envelope? then
        serverTransactionId == NextTransactionId(old(serverTransactionId)) &&
        resp.serverTransactionId == serverTransactionId &&
        resp.clientTransactionId == EchoTransactionId(ctid) &&
        resp.errorNumber == 0 && resp.errorMessage == ""
      else
        serverTransactionId == old(serverTransactionId)
    }

    /** `prepareAlpacaResponse` and the 200 reply: the counter moves on by one, the transaction number is echoed. */
    method PrepareAlpacaResponse(req: Request, value: Value) returns (resp: Response)
      modifies this
      ensures serverTransactionId == NextTransactionId(old(serverTransactionId))
      ensures resp == Envelope(EchoTransactionId(LegacyGetClientTransactionId(req)), serverTransactionId, 0, "", value)
      ensures devices == old(devices)
    {
      var ctid := LegacyGetClientTransactionId(req);
      if ctid < 0 {
        ctid := 0;
      }
      serverTransactionId := (serverTransactionId + 1) % 0x1_0000_0000;
      resp := Envelope(ctid % 0x1_0000_0000, serverTransactionId, 0, "", value);
    }

    /**
     * `handleSafetyMonitorRequest` (GET `.../{action}`): the request checks, the monitor
     * lookup, then the lower-cased action. `issafe` is false for a client that is not
     * connected; an unknown action is a plain-text 400.
     */
    method HandleSafetyMonitorRequest(req: Request, action: string) returns (resp: Response)
      requires Registered()
      modifies this
      ensures Stamped(resp, LegacyGetClientTransactionId(req))
      ensures !LegacyValidAlpacaRequest(req) ==> resp == Text(400, InvalidRequest)
      ensures LegacyValidAlpacaRequest(req) && Target(req).None? ==> resp == Text(400, DeviceNotFound)
      ensures LegacyValidAlpacaRequest(req) && Target(req).Some? ==>
        var a := ToLower(action);
        var m := Target(req).value;
        var connected := Session(req).Some? && Session(req).value.IsConnected(LegacyFullClientId(req));
        (a !in RequestActions ==> resp == Text(400, UnknownOperation)) &&
        (a == "issafe" ==> Carries(resp, BoolValue(connected && m.IsSafe()))) &&
        (a == "connected" ==> Carries(resp, BoolValue(connected))) &&
        (a == "name" ==> Carries(resp, StringValue(m.name))) &&
        (a == "description" ==> Carries(resp, StringValue(m.description))) &&
        (a == "driverinfo" ==> Carries(resp, StringValue(DriverInfo))) &&
        (a == "driverversion" ==> Carries(resp, StringValue(buildVersion))) &&
        (a == "supportedactions" ==> Carries(resp, StringListValue([RawValueAction]))) &&
        (a == "interfaceversion" ==> Carries(resp, IntValue(2)))
    {
      if !LegacyValidAlpacaRequest(req) {
        return Text(400, InvalidRequest);
      }
      var deviceId := Atoi(req.deviceIdParam).value;
      var device := barn.GetMonitorByIndex(deviceId);
      if device.Failure? {
        return Text(400, DeviceNotFound);
      }
      var dev := devices[MonitorKind][deviceId];
      var connected := dev.IsConnected(LegacyFullClientId(req));
      resp := Answer(req, ToLower(action), device.value, connected);
    }

    /** The action chain of `handleSafetyMonitorRequest`, for a found monitor and the client's connection status. */
    method Answer(req: Request, a: string, m: LegacySafetyMonitor, connected: bool) returns (resp: Response)
      modifies this
      ensures Stamped(resp, LegacyGetClientTransactionId(req))
      ensures a !in RequestActions ==> resp == Text(400, UnknownOperation)
      ensures a == "issafe" ==> Carries(resp, BoolValue(connected && m.IsSafe()))
      ensures a == "connected" ==> Carries(resp, BoolValue(connected))
      ensures a == "name" ==> Carries(resp, StringValue(m.name))
      ensures a == "description" ==> Carries(resp, StringValue(m.description))
      ensures a == "driverinfo" ==> Carries(resp, StringValue(DriverInfo))
      ensures a == "driverversion" ==> Carries(resp, StringValue(buildVersion))
      ensures a == "supportedactions" ==> Carries(resp, StringListValue([RawValueAction]))
      ensures a == "interfaceversion" ==> Carries(resp, IntValue(2))
    {
      if a == "issafe" {
        var val := false;
        if connected {
          val := m.IsSafe();
        }
        resp := PrepareAlpacaResponse(req, BoolValue(val));
      } else if a == "connected" {
        resp := PrepareAlpacaResponse(req, BoolValue(connected));
      } else if a == "name" {
        resp := PrepareAlpacaResponse(req, StringValue(m.name));
      } else if a == "description" {
        resp := PrepareAlpacaResponse(req, StringValue(m.description));
      } else if a == "driverinfo" {
        resp := PrepareAlpacaResponse(req, StringValue(DriverInfo));
      } else if a == "driverversion" {
        resp := PrepareAlpacaResponse(req, StringValue(buildVersion));
      } else if a == "supportedactions" {
        resp := PrepareAlpacaResponse(req, StringListValue([RawValueAction]));
      } else if a == "interfaceversion" {
        resp := PrepareAlpacaResponse(req, IntValue(2));
      } else {
        return Text(400, UnknownOperation);
      }
    }

    /**
     * `handleSafetyMonitorConnect` (PUT `.../connected`): after the request checks and the
     * monitor lookup, "true" connects and "false" disconnects, in any letter case; any
     * other value is "Invalid request" and the sessions stay as they were.
     */
    method HandleSafetyMonitorConnect(req: Request) returns (resp: Response)
      requires Registered()
      modifies this, Addressed(req)
      ensures Stamped(resp, LegacyGetClientTransactionId(req))
      ensures !LegacyValidAlpacaRequest(req) ==> resp == Text(400, InvalidRequest)
      ensures LegacyValidAlpacaRequest(req) && Target(req).None? ==> resp == Text(400, DeviceNotFound)
      ensures Session(req).Some? ==>
        var dev := Session(req).value;
        var arg := ToLower(PostForm(req.form, "Connected"));
        var id := LegacyFullClientId(req);
        if LegacyValidAlpacaRequest(req) && Target(req).Some? && arg == "true" then
          Carries(resp, NoValue) && dev.connectedClients == WithConnected(old(dev.connectedClients), id)
        else if LegacyValidAlpacaRequest(req) && Target(req).Some? && arg == "false" then
          Carries(resp, NoValue) && dev.connectedClients == WithoutClient(old(dev.connectedClients), id)
        else
          (LegacyValidAlpacaRequest(req) && Target(req).Some? ==> resp == Text(400, InvalidRequest)) &&
          dev.connectedClients == old(dev.connectedClients)
    {
      if !LegacyValidAlpacaRequest(req) {
        return Text(400, InvalidRequest);
      }
      var deviceId := Atoi(req.deviceIdParam).value;
      var connected := PostForm(req.form, "Connected");
      var found := barn.GetMonitorByIndex(deviceId);
      if found.Failure? {
        return Text(400, DeviceNotFound);
      }
      var dev := devices[MonitorKind][deviceId];
      var id := LegacyFullClientId(req);
      resp := Toggle(req, dev, id, ToLower(connected));
    }

    /** The connected toggle of `handleSafetyMonitorConnect`, on the lower-cased `Connected` value. */
    method Toggle(req: Request, dev: LegacyDevice, id: Sessions.ClientId, arg: string) returns (resp: Response)
      modifies this, dev
      ensures Stamped(resp, LegacyGetClientTransactionId(req))
      ensures arg == "true" ==>
        Carries(resp, NoValue) && dev.connectedClients == WithConnected(old(dev.connectedClients), id)
      ensures arg == "false" ==>
        Carries(resp, NoValue) && dev.connectedClients == WithoutClient(old(dev.connectedClients), id)
      ensures arg != "true" && arg != "false" ==>
        resp == Text(400, InvalidRequest) && dev.connectedClients == old(dev.connectedClients)
    {
      if arg == "true" {
        dev.ConnectClient(id);
      } else if arg == "false" {
        dev.DisconnectClient(id);
      } else {
        return Text(400, InvalidRequest);
      }
      resp := PrepareAlpacaResponse(req, NoValue);
    }

    /**
     * `handleSafetyMonitorAction` (PUT `.../action`): the request checks, the monitor
     * lookup (done twice), the connection gate, then only the exact action "RawValue" is
     * answered, with `rawValue`, the text the monitor last read.
     */
    method HandleSafetyMonitorAction(req: Request, rawValue: string) returns (resp: Response)
      requires Registered()
      modifies this
      ensures Stamped(resp, LegacyGetClientTransactionId(req))
      ensures !LegacyValidAlpacaRequest(req) ==> resp == Text(400, InvalidRequest)
      ensures LegacyValidAlpacaRequest(req) && Target(req).None? ==> resp == Text(400, DeviceNotFound)
      ensures LegacyValidAlpacaRequest(req) && Target(req).Some? ==>
        var connected := Session(req).Some? && Session(req).value.IsConnected(LegacyFullClientId(req));
        var action := PostForm(req.form, "Action");
        (!connected ==> resp == Text(400, NotConnected)) &&
        (connected && action == RawValueAction ==> Carries(resp, StringValue(rawValue))) &&
        (connected && action != RawValueAction ==> resp == Text(400, UnknownOperation))
    {
      if !LegacyValidAlpacaRequest(req) {
        return Text(400, InvalidRequest);
      }
      var deviceId := Atoi(req.deviceIdParam).value;
      var device := barn.GetMonitorByIndex(deviceId);
      if device.Failure? {
        return Text(400, DeviceNotFound);
      }
      var action := PostForm(req.form, "Action");
      var again := barn.GetMonitorByIndex(deviceId);
      if again.Failure? {
        return Text(400, DeviceNotFound);
      }
      var dev := devices[MonitorKind][deviceId];
      if !dev.IsConnected(LegacyFullClientId(req)) {
        return Text(400, NotConnected);
      }
      if action == RawValueAction {
        resp := PrepareAlpacaResponse(req, StringValue(rawValue));
      } else {
        return Text(400, UnknownOperation);
      }
    }
  }
}
