/**
 * The driver registry: safety monitors and weather stations keyed by their ids. Alpaca
 * clients address a driver by ordinal number, which is its position in the ascending
 * order of the ids of its kind.
 */
module App {
  import opened Wrappers
  import opened StringOrder
  import opened Monitor
  import opened Weather

  const IndexOutOfRange: string := "Index out of range"

  /** The loop over a Go map's keys: every key once, in the order the iteration visits them. */
  method CollectKeys<V>(m: map<string, V>) returns (keys: seq<string>)
    ensures Distinct(keys) && Elements(keys) == m.Keys
  {
    keys := [];
    var remaining := m.Keys;
    while remaining != {}
      invariant remaining <= m.Keys
      invariant Distinct(keys)
      invariant Elements(keys) == m.Keys - remaining
      decreases |remaining|
    {
      var key :| key in remaining;
      assert Elements(keys + [key]) == Elements(keys) + {key};
      keys := keys + [key];
      remaining := remaining - {key};
    }
  }

  class Server {
    var monitors: map<string, SafetyMonitor>
    var weather: map<string, ObservingConditions>

    /** `New`: an empty registry. */
    constructor ()
      ensures monitors == map[] && weather == map[]
    {
      monitors := map[];
      weather := map[];
    }

    /** `AddMonitor`: registers a monitor under its id, replacing any monitor with that id. */
    method AddMonitor(mon: SafetyMonitor)
      modifies this
      ensures monitors == old(monitors)[mon.id := mon]
      ensures weather == old(weather)
    {
      monitors := monitors[mon.id := mon];
    }

    /** `AddWeather`: registers a station under its id, replacing any station with that id. */
    method AddWeather(station: ObservingConditions)
      modifies this
      ensures weather == old(weather)[station.id := station]
      ensures monitors == old(monitors)
    {
      weather := weather[station.id := station];
    }

    /** `RemoveMonitor`: forgets the monitor with this id, if any. */
    method RemoveMonitor(id: string)
      modifies this
      ensures monitors == old(monitors) - {id}
      ensures weather == old(weather)
    {
      monitors := monitors - {id};
    }

    /** `GetMonitorIds`: the monitor ids in ascending order. */
    method GetMonitorIds() returns (ids: seq<string>)
      ensures ids == SortedListing(monitors.Keys)
      ensures StrictlySorted(ids) && Elements(ids) == monitors.Keys
    {
      var keys := CollectKeys(monitors);
      ids := SortStrings(keys);
      SortDistinctIsListing(keys);
    }

    /** `GetWeatherIds`: the station ids in ascending order. */
    method GetWeatherIds() returns (ids: seq<string>)
      ensures ids == SortedListing(weather.Keys)
      ensures StrictlySorted(ids) && Elements(ids) == weather.Keys
    {
      var keys := CollectKeys(weather);
      ids := SortStrings(keys);
      SortDistinctIsListing(keys);
    }

    /** `GetMonitor`: the monitor with this id, or nil (None). */
    function GetMonitor(id: string): (r: Option<SafetyMonitor>)
      reads this
      ensures r.Some? <==> id in monitors
      ensures r.Some? ==> r.value == monitors[id]
    {
      if id in monitors then Some(monitors[id]) else None
    }

    /** `GetWeather`: the station with this id, or nil (None). */
    function GetWeather(id: string): (r: Option<ObservingConditions>)
      reads this
      ensures r.Some? <==> id in weather
      ensures r.Some? ==> r.value == weather[id]
    {
      if id in weather then Some(weather[id]) else None
    }

    /** The monitor with ordinal number `index`, if there is one. */
    ghost function MonitorAt(index: int): Option<SafetyMonitor>
      reads this
    {
      if 0 <= index < |monitors| then Some(monitors[SortedListing(monitors.Keys)[index]]) else None
    }

    /** The station with ordinal number `index`, if there is one. */
    ghost function WeatherAt(index: int): Option<ObservingConditions>
      reads this
    {
      if 0 <= index < |weather| then Some(weather[SortedListing(weather.Keys)[index]]) else None
    }

    /** `GetMonitorByIndex`: the monitor whose id is the index-th smallest; an error outside 0..count-1. */
    method GetMonitorByIndex(index: int) returns (r: Result<SafetyMonitor, string>)
      ensures index < 0 || index >= |monitors| ==> r == Failure(IndexOutOfRange)
      ensures r.Success? <==> MonitorAt(index).Some?
      ensures r.Success? ==> r.value == MonitorAt(index).value
    {
      var keys := GetMonitorIds();
      if index > |keys| - 1 || index < 0 {
        return Failure(IndexOutOfRange);
      }
      r := Success(monitors[keys[index]]);
    }

    /** `GetWeatherByIndex`: the station whose id is the index-th smallest; an error outside 0..count-1. */
    method GetWeatherByIndex(index: int) returns (r: Result<ObservingConditions, string>)
      ensures index < 0 || index >= |weather| ==> r == Failure(IndexOutOfRange)
      ensures r.Success? <==> WeatherAt(index).Some?
      ensures r.Success? ==> r.value == WeatherAt(index).value
    {
      var keys := GetWeatherIds();
      if index > |keys| - 1 || index < 0 {
        return Failure(IndexOutOfRange);
      }
      r := Success(weather[keys[index]]);
    }
  }

  /** Two monitors "dummy" and "dummy2" get ordinals 0 and 1, and there is no ordinal 2. */
  lemma TwoMonitorOrdinals()
    ensures SortedListing({"dummy", "dummy2"}) == ["dummy", "dummy2"]
    ensures |{"dummy", "dummy2"}| == 2
  {
    var ids := ["dummy", "dummy2"];
    assert Less("dummy", "dummy2");
    assert StrictlySorted(ids);
    assert Elements(ids) == {"dummy", "dummy2"};
    StrictlySortedUnique(ids, SortedListing({"dummy", "dummy2"}));
  }

  /** Ordinals do not depend on the order in which drivers were registered. */
  lemma OrdinalsIgnoreRegistrationOrder(a: seq<string>, b: seq<string>)
    requires Distinct(a) && Distinct(b) && Elements(a) == Elements(b)
    ensures SortStrings(a) == SortStrings(b)
  {
    SortDistinctIsListing(a);
    SortDistinctIsListing(b);
  }
}
