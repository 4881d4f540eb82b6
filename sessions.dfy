/**
 * The per-device client sessions of the device API. Each device keeps a table from a
 * client's session key ("<remote address>-<ClientID>") to a record saying whether that
 * client is connected and, for weather devices, the average period it asked for.
 */
module Sessions {
  import opened Wrappers
  import opened GoStrings

  type ClientId = string

  datatype WeatherClientState = WeatherClientState(averagePeriod: real)

  datatype ConnectedClient = ConnectedClient(
    clientId: ClientId,
    clientTransactionId: uint32,
    connected: bool,
    weatherState: Option<WeatherClientState>)

  type ClientTable = map<ClientId, ConnectedClient>

  /** The record `ConnectClient` creates: connected, transaction 0, average period 0. */
  function NewClient(id: ClientId): ConnectedClient
  {
    ConnectedClient(id, 0, true, Some(WeatherClientState(0.0)))
  }

  /** `IsConnected`: the client has a record and that record is marked connected. */
  predicate ClientConnected(t: ClientTable, id: ClientId)
  {
    id in t && t[id].connected
  }

  /** The table after `ConnectClient(id)`. */
  function WithConnected(t: ClientTable, id: ClientId): (r: ClientTable)
    ensures r.Keys == t.Keys + {id}
    ensures ClientConnected(r, id)
    ensures id !in t ==> r[id] == NewClient(id)
    ensures id in t ==> r[id] == t[id].(connected := true)
    ensures forall k :: k in t && k != id ==> r[k] == t[k]
  {
    if id in t then
      if !t[id].connected then t[id := t[id].(connected := true)] else t
    else t[id := NewClient(id)]
  }

  /** The table after `DisconnectClient(id)`: the record is gone, whatever it held. */
  function WithoutClient(t: ClientTable, id: ClientId): (r: ClientTable)
    ensures r.Keys == t.Keys - {id}
    ensures !ClientConnected(r, id)
    ensures forall k :: k in r ==> r[k] == t[k]
  {
    t - {id}
  }

  /** `SetWeatherAveragePeriod(id, p)`: whether it succeeded, and the table afterwards. */
  function WithAveragePeriod(t: ClientTable, id: ClientId, p: real): (r: (bool, ClientTable))
    ensures r.0 <==> ClientConnected(t, id)
    ensures !r.0 ==> r.1 == t
    ensures r.0 ==> r.1 == t[id := t[id].(weatherState := Some(WeatherClientState(p)))]
  {
    if id in t && t[id].connected then
      (true, t[id := t[id].(weatherState := Some(WeatherClientState(p)))])
    else (false, t)
  }

  /** `GetWeatherAveragePeriod(id)`: the stored period of a connected client, or (0.0, false). */
  function AveragePeriodOf(t: ClientTable, id: ClientId): (r: (real, bool))
    ensures r.1 <==> ClientConnected(t, id) && t[id].weatherState.Some?
    ensures r.1 ==> r.0 == t[id].weatherState.value.averagePeriod
    ensures !r.1 ==> r.0 == 0.0
  {
    if id in t && t[id].connected && t[id].weatherState.Some? then
      (t[id].weatherState.value.averagePeriod, true)
    else (0.0, false)
  }

  /**
   * The shape every table reachable through the operations has: each record is filed
   * under its own client id, is connected, and carries a weather state.
   */
  predicate WellFormed(t: ClientTable)
  {
    forall k :: k in t ==> t[k].clientId == k && t[k].connected && t[k].weatherState.Some?
  }

  lemma OperationsPreserveWellFormed(t: ClientTable, id: ClientId, p: real)
    requires WellFormed(t)
    ensures WellFormed(WithConnected(t, id))
    ensures WellFormed(WithoutClient(t, id))
    ensures WellFormed(WithAveragePeriod(t, id, p).1)
  {
  }

  /** In a well-formed table, a client has a period exactly when it is connected. */
  lemma PeriodIffConnected(t: ClientTable, id: ClientId)
    requires WellFormed(t)
    ensures AveragePeriodOf(t, id).1 <==> ClientConnected(t, id)
  {
  }

  /** Connecting twice leaves the same single record as connecting once. */
  lemma ConnectIdempotent(t: ClientTable, id: ClientId)
    ensures WithConnected(WithConnected(t, id), id) == WithConnected(t, id)
  {
  }

  /** Connecting an already connected client changes nothing, its average period included. */
  lemma ConnectWhenConnectedIsNoop(t: ClientTable, id: ClientId)
    requires ClientConnected(t, id)
    ensures WithConnected(t, id) == t
  {
  }

  /** Disconnecting an unknown client changes nothing; disconnecting twice is disconnecting once. */
  lemma DisconnectUnknownIsNoop(t: ClientTable, id: ClientId)
    ensures id !in t ==> WithoutClient(t, id) == t
    ensures WithoutClient(WithoutClient(t, id), id) == WithoutClient(t, id)
  {
  }

  /** A stored period is what the client reads back. */
  lemma SetThenGet(t: ClientTable, id: ClientId, p: real)
    requires ClientConnected(t, id)
    ensures AveragePeriodOf(WithAveragePeriod(t, id, p).1, id) == (p, true)
  {
  }

  /** Setting one client's period leaves every other client's connection and period as they were. */
  lemma SetIsPerClient(t: ClientTable, id: ClientId, other: ClientId, p: real)
    requires other != id
    ensures ClientConnected(WithAveragePeriod(t, id, p).1, other) == ClientConnected(t, other)
    ensures AveragePeriodOf(WithAveragePeriod(t, id, p).1, other) == AveragePeriodOf(t, other)
  {
  }

  /** A disconnected client cannot store a period, and reads (0.0, false). */
  lemma DisconnectedClientHasNoPeriod(t: ClientTable, id: ClientId, p: real)
    requires !ClientConnected(t, id)
    ensures WithAveragePeriod(t, id, p) == (false, t)
    ensures AveragePeriodOf(t, id) == (0.0, false)
  {
  }

  /** Disconnecting drops a client's period: after reconnecting it reads 0 again. */
  lemma ReconnectResetsPeriod(t: ClientTable, id: ClientId, p: real)
    ensures AveragePeriodOf(WithConnected(WithoutClient(WithAveragePeriod(t, id, p).1, id), id), id) == (0.0, true)
  {
  }

  /** A device's session table. */
  class Device {
    const id: string
    const kind: string
    const index: int
    var connectedClients: ClientTable

    constructor (id: string, kind: string, index: int)
      ensures this.id == id && this.kind == kind && this.index == index
      ensures connectedClients == map[]
    {
      this.id := id;
      this.kind := kind;
      this.index := index;
      connectedClients := map[];
    }

    predicate IsConnected(cid: ClientId)
      reads this
    {
      ClientConnected(connectedClients, cid)
    }

    /** `ConnectClient`: marks an existing record connected, or files a new one. */
    method ConnectClient(cid: ClientId)
      modifies this
      ensures connectedClients == WithConnected(old(connectedClients), cid)
    {
      if cid in connectedClients {
        if !connectedClients[cid].connected {
          connectedClients := connectedClients[cid := connectedClients[cid].(connected := true)];
        }
        return;
      }
      connectedClients := connectedClients[cid := NewClient(cid)];
    }

    /** `DisconnectClient`: deletes the record of this client, if there is one. */
    method DisconnectClient(cid: ClientId)
      modifies this
      ensures connectedClients == WithoutClient(old(connectedClients), cid)
    {
      connectedClients := connectedClients - {cid};
    }

    /** `GetWeatherClientState`: the weather state of a connected client, or nil (None). */
    function GetWeatherClientState(cid: ClientId): (r: Option<WeatherClientState>)
      reads this
      ensures r.Some? ==> IsConnected(cid) && connectedClients[cid].weatherState == r
      ensures IsConnected(cid) ==> r == connectedClients[cid].weatherState
    {
      if cid in connectedClients && connectedClients[cid].connected then connectedClients[cid].weatherState else None
    }

    /** `SetWeatherAveragePeriod`: stores the period for a connected client and reports success. */
    method SetWeatherAveragePeriod(cid: ClientId, p: real) returns (ok: bool)
      modifies this
      ensures (ok, connectedClients) == WithAveragePeriod(old(connectedClients), cid, p)
    {
      if cid in connectedClients && connectedClients[cid].connected {
        connectedClients := connectedClients[cid := connectedClients[cid].(weatherState := Some(WeatherClientState(p)))];
        return true;
      }
      return false;
    }

    /** `GetWeatherAveragePeriod`. */
    method GetWeatherAveragePeriod(cid: ClientId) returns (p: real, ok: bool)
      ensures (p, ok) == AveragePeriodOf(connectedClients, cid)
    {
      if cid in connectedClients && connectedClients[cid].connected {
        if connectedClients[cid].weatherState.Some? {
          return connectedClients[cid].weatherState.value.averagePeriod, true;
        }
      }
      return 0.0, false;
    }
  }
}
