/**
 * The driver registry of the first version: safety monitors only, keyed by id. Clients
 * address a monitor by ordinal number, its position in the ascending order of the ids.
 */
module LegacyBarn {
  import opened Wrappers
  import opened StringOrder
  import opened LegacyMonitor
  import App

  type Registry = map<string, LegacySafetyMonitor>

  /** The monitor with ordinal number `index`, if there is one. */
  ghost function Ordinal(monitors: Registry, index: int): Option<LegacySafetyMonitor>
  {
    if 0 <= index < |monitors| then Some(monitors[SortedListing(monitors.Keys)[index]]) else None
  }

  /**
   * What a by-index lookup can end in as written: the monitor, the "Index out of range"
   * error, or a run-time panic when a negative index reaches the key slice.
   */
  datatype IndexLookup = Found(monitor: LegacySafetyMonitor) | OutOfRange | IndexPanic

  /** The by-index lookup as written: only an index past the last ordinal is refused. */
  ghost function ByIndexAsWritten(monitors: Registry, index: int): IndexLookup
  {
    if index > |monitors| - 1 then OutOfRange
    else if index < 0 then IndexPanic
    else Found(Ordinal(monitors, index).value)
  }

  /** The by-index lookup with the missing `index < 0` guard added. */
  ghost function ByIndex(monitors: Registry, index: int): Result<LegacySafetyMonitor, string>
  {
    if index < 0 || index > |monitors| - 1 then Failure(App.IndexOutOfRange)
    else Success(Ordinal(monitors, index).value)
  }

  /** As written, device number -1 panics, whatever the registry holds; the guarded lookup refuses it. */
  lemma NegativeIndexPanics(monitors: Registry)
    ensures ByIndexAsWritten(monitors, -1) == IndexPanic
    ensures ByIndex(monitors, -1) == Failure(App.IndexOutOfRange)
  {
  }

  /**
   * The guarded lookup answers every index: the monitor with that ordinal, or the error
   * exactly when there is none. On every index the original answers it answers alike.
   */
  lemma ByIndexIsTotal(monitors: Registry, index: int)
    ensures ByIndex(monitors, index).Success? <==> Ordinal(monitors, index).Some?
    ensures ByIndex(monitors, index).Success? ==> ByIndex(monitors, index).value == Ordinal(monitors, index).value
    ensures ByIndex(monitors, index).Success? ==> ByIndex(monitors, index).value in monitors.Values
    ensures index >= 0 ==> (ByIndexAsWritten(monitors, index) == OutOfRange <==> ByIndex(monitors, index).Failure?)
    ensures index >= 0 && ByIndex(monitors, index).Success? ==>
      ByIndexAsWritten(monitors, index) == Found(ByIndex(monitors, index).value)
  {
    if 0 <= index < |monitors| {
      var ids := SortedListing(monitors.Keys);
      assert ids[index] in Elements(ids);
    }
  }

  class LegacyServer {
    var monitors: Registry

    /** `New`: an empty registry. */
    constructor ()
      ensures monitors == map[]
    {
      monitors := map[];
    }

    /** `AddMonitor`: registers a monitor under its id, replacing any monitor with that id. */
    method AddMonitor(mon: LegacySafetyMonitor)
      modifies this
      ensures monitors == old(monitors)[mon.id := mon]
    {
      monitors := monitors[mon.id := mon];
    }

    /** `RemoveMonitor`: forgets the monitor with this id, if any. */
    method RemoveMonitor(id: string)
      modifies this
      ensures monitors == old(monitors) - {id}
    {
      monitors := monitors - {id};
    }

    /** `GetMonitorIds`: every id once, in the unspecified order of a Go map iteration. */
    method GetMonitorIds() returns (ids: seq<string>)
      ensures Distinct(ids) && Elements(ids) == monitors.Keys
      ensures |ids| == |monitors|
    {
      ids := App.CollectKeys(monitors);
      SortDistinctIsListing(ids);
      assert |multiset(SortStrings(ids))| == |multiset(ids)|;
    }

    /** `GetMonitor`: the monitor with this id, or nil (None). */
    function GetMonitor(id: string): (r: Option<LegacySafetyMonitor>)
      reads this
      ensures r.Some? <==> id in monitors
      ensures r.Some? ==> r.value == monitors[id]
    {
      if id in monitors then Some(monitors[id]) else None
    }

    /** `GetMonitorByIndex` as written: the ids are collected and sorted, and only `index > count - 1` is checked. */
    method GetMonitorByIndexAsWritten(index: int) returns (r: IndexLookup)
      ensures r == ByIndexAsWritten(monitors, index)
    {
      var keys := App.CollectKeys(monitors);
      var keySlice := SortStrings(keys);
      SortDistinctIsListing(keys);
      if index > |keySlice| - 1 {
        return OutOfRange;
      }
      if index < 0 {
        // keySlice[index] is out of bounds: the Go run time panics here.
        return IndexPanic;
      }
      r := Found(monitors[keySlice[index]]);
    }

    /** `GetMonitorByIndex` with the guard: the monitor with the index-th smallest id, or "Index out of range". */
    method GetMonitorByIndex(index: int) returns (r: Result<LegacySafetyMonitor, string>)
      ensures r == ByIndex(monitors, index)
    {
      var keys := App.CollectKeys(monitors);
      var keySlice := SortStrings(keys);
      SortDistinctIsListing(keys);
      if index > |keySlice| - 1 || index < 0 {
        return Failure(App.IndexOutOfRange);
      }
      r := Success(monitors[keySlice[index]]);
    }
  }
}
