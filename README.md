# Alpaca Barn, modelled in Dafny

Alpaca Barn is a gateway. It serves observatory safety monitors and weather stations
to ASCOM Alpaca clients, over the Alpaca device API and the Alpaca discovery protocol.
This project models its core in Dafny and proves properties of the model.

Two versions live side by side in the repository, and both are modelled:

- **The current gateway** (`internal/...`):
  - per-device client session tables and the server transaction counter (`Sessions`, `Api`);
  - the request parsers and the validation middleware (`Protocol`, `Middleware`);
  - every safety-monitor and observing-conditions handler (`MonitorApi`, `WeatherApi`);
  - the sensor table and the weather drivers (`Weather`);
  - the safety-monitor drivers and their matching rule (`Monitor`);
  - the driver registry with ordinal addressing (`App`).
- **The first version** (top-level `api.go`, `monitor.go`, `barn.go`): `LegacyApi`,
  `LegacyMonitor`, `LegacyBarn`.
- **The discovery responder** (`discovery.go`): `Discovery`.

How the model is built:

- State that the Go code updates in place is a Dafny `class`, with `modifies` clauses:
  - a device's session map;
  - the server's device table and counter;
  - a driver's verdict, readings and refresh time;
  - the registry's maps.
- Each method is specified by a pure function of the old state, such as
  `Sessions.WithConnected` or `Monitor.Refreshed`.
- The laws the source promises are lemmas about those functions.
- Loops over Go maps use `:|`, which picks any remaining key. Their result is known
  only up to that order, which is what the code promises.
- Things the code gets from outside are parameters:
  - an HTTP fetch or a file read (`Io.ReadOutcome`, `Weather.WeatherFetch`);
  - the current time;
  - the compiled user pattern;
  - `strconv.ParseFloat`;
  - the build version.
- `uint32` and `int64` are written out explicitly: the counter wraps at 2^32, and `Atoi`
  refuses values that do not fit in 64 bits.

Shared building blocks:
- `Wrappers`: `Option` and `Result`.
- `GoStrings`: ASCII `ToLower`/`EqualFold`, `HasPrefix`, `Contains`, `Join`, `Atoi`, `Itoa`.
- `StringOrder`: `sort.Strings` and the ascending listing of a key set.
- `Io`: time, buffered reads and zero padding.

## Model

| member | source | states |
|---|---|---|
| GoStrings.ToLower | internal/api/safetymonitor.go:239-246 | same length; each ASCII capital is lowered; every other character is kept |
| GoStrings.EqualFoldIffLowerEqual | internal/api/api.go:283-291 | case-insensitive equality holds exactly when the lower-cased strings are equal |
| GoStrings.EqualFoldEquivalence | internal/api/api.go:283-291 | case-insensitive equality is reflexive, symmetric and transitive |
| GoStrings.HasPrefix | discovery.go:55 | true exactly when `prefix` is an initial segment of `s` |
| GoStrings.Contains | internal/monitor/monitor.go:35-38 | true exactly when `sub` occurs at some position of `s` |
| GoStrings.ContainsFold | internal/monitor/monitor.go:35-38 | true exactly when `sub` occurs at some position ignoring ASCII case |
| GoStrings.Join | internal/api/api.go:283-291 | no elements give ""; one element gives itself; otherwise the result starts with the first element and its length is the elements' total length plus one separator per gap |
| GoStrings.JoinSnoc | internal/api/api.go:283-291 | the join of two or more elements is the join of all but the last, the separator, then the last element |
| GoStrings.Atoi | internal/api/api.go:253-277 | accepts only an optional sign followed by digits, within `int64`; a plain in-range digit string yields its decimal value; an empty string or one with a bad first character is refused |
| GoStrings.AtoiIsSignedDecimal | internal/api/api.go:253-277 | `Atoi` succeeds exactly for an optional sign followed by one or more digits whose signed value lies in `int64`, and then yields that signed value |
| GoStrings.AtoiExamples | internal/api/api.go:253-277 | "-5" and "+05" parse to -5 and 5; "+", "-" and "5a" are refused |
| GoStrings.AtoiRange | internal/api/api.go:253-277 | a magnitude above the largest `int` is refused unsigned or after '+'; after '-' only the least `int` is accepted |
| GoStrings.NatToDecimal | discovery.go:60-62 | at least one digit, no leading zero, and the digits denote `n` |
| GoStrings.Itoa | discovery.go:60-62 | a minus sign exactly for negative numbers, followed by the digits of the magnitude |
| GoStrings.AtoiItoa | discovery.go:60-62 | `Atoi(Itoa(i)) == Some(i)` for every 64-bit `i` (round trip) |
| StringOrder.LessStrictTotalOrder | internal/app/barn.go:100 | the byte-wise string order is irreflexive, asymmetric, transitive and total |
| StringOrder.SortStrings | internal/app/barn.go:100 | the result is ascending and a permutation (same multiset) of the input |
| StringOrder.SortedListing | internal/app/barn.go:95-102 | strictly ascending, exactly the given ids, one entry per id |
| StringOrder.StrictlySortedUnique | internal/app/barn.go:95-102 | two strictly ascending sequences with the same elements are equal, so the listing is unique |
| StringOrder.SortDistinctIsListing | internal/app/barn.go:95-102 | sorting distinct ids in any order yields the ascending listing of that id set |
| StringOrder.RemovalShiftsOrdinals | internal/app/barn.go:91-102 | after removing an id, the ids before it keep their ordinal and the ids after it move down by one |
| Io.Sub | internal/weather/weather.go:445-447 | `now - t` in nanoseconds, saturated to the `int64` range |
| Io.SecondsSince | internal/weather/weather.go:445-447 | the duration in seconds, times 10^9, equals the saturated nanosecond difference |
| Io.ZeroPadded | monitor.go:73-82 | the buffer has the given size, starts with the bytes read, and the rest is zero |
| Sessions.WithConnected | internal/api/api.go:51-69 | adds the id if absent; the id is then connected; a new record is `{connected, ctid 0, period 0}`; an existing record is only marked connected; other records are unchanged |
| Sessions.WithoutClient | internal/api/api.go:71-78 | drops exactly this id; it is no longer connected; every other record is unchanged |
| Sessions.WithAveragePeriod | internal/api/api.go:89-98 | succeeds exactly for a connected client; on success only that client's period is replaced; otherwise the table is unchanged |
| Sessions.AveragePeriodOf | internal/api/api.go:101-108 | `(stored, true)` exactly when the client is connected and has a period, otherwise `(0.0, false)` |
| Sessions.OperationsPreserveWellFormed | internal/api/api.go:51-98 | connect, disconnect and set-period keep every record keyed by its own id and carrying a weather state |
| Sessions.PeriodIffConnected | internal/api/api.go:101-108 | in a well-formed table a client has a period exactly when it is connected |
| Sessions.ConnectIdempotent | internal/api/api.go:51-69 | connecting twice equals connecting once |
| Sessions.ConnectWhenConnectedIsNoop | internal/api/api.go:52-60 | connecting a connected client leaves the table, its period included, unchanged |
| Sessions.DisconnectUnknownIsNoop | internal/api/api.go:71-78 | disconnecting an unknown id changes nothing; disconnecting is idempotent |
| Sessions.SetThenGet | internal/api/api.go:89-108 | a period stored for a connected client is read back with `true` |
| Sessions.SetIsPerClient | internal/api/api.go:89-98 | setting one client's period leaves every other client's connection and period unchanged |
| Sessions.DisconnectedClientHasNoPeriod | internal/api/api.go:89-108 | a client that is not connected cannot store a period and reads `(0.0, false)` |
| Sessions.ReconnectResetsPeriod | internal/api/api.go:62-78 | disconnecting and then reconnecting reads period 0.0 again, not the old value |
| Sessions.Device.constructor | internal/api/api.go:133-138 | the id, type and index are as given, and the session table is empty |
| Sessions.Device.ConnectClient | internal/api/api.go:51-69 | the new table is `WithConnected` of the old one |
| Sessions.Device.DisconnectClient | internal/api/api.go:71-78 | the new table is `WithoutClient` of the old one |
| Sessions.Device.GetWeatherClientState | internal/api/api.go:81-86 | a state is returned only for a connected client, and it is that client's stored state |
| Sessions.Device.SetWeatherAveragePeriod | internal/api/api.go:89-98 | the result and the new table are `WithAveragePeriod` of the old table |
| Sessions.Device.GetWeatherAveragePeriod | internal/api/api.go:101-108 | the result is `AveragePeriodOf` the table |
| Protocol.GetQueryFirstMatch | internal/api/api.go:283-291 | the first key equal to the target ignoring case supplies the answer: its values joined with commas |
| Protocol.GetQueryNoMatch | internal/api/api.go:283-291 | no key equal to the target ignoring case gives "" |
| Protocol.PostForm | internal/api/api.go:261-266 | the first value of the field, or "" when the field is absent or empty |
| Protocol.ParseId | internal/api/api.go:269-276 | a number at least 0 exactly when the text is an integer that is not negative, and then that integer; otherwise -1 |
| Protocol.ParseIdItoa | internal/api/api.go:269-276 | every number that is not negative is read back from its own decimal text |
| Protocol.GetClientId | internal/api/api.go:253-277 | -1 for a missing, malformed or negative ClientID, otherwise its value |
| Protocol.GetClientTransactionId | internal/api/api.go:293-317 | -1 for a missing, malformed or negative ClientTransactionID, otherwise its value |
| Protocol.PutWithoutTransactionIdIsZero | internal/api/api.go:300-308 | a PUT lacking both spellings of the field is transaction 0 |
| Protocol.GetWithoutTransactionIdIsMissing | internal/api/api.go:293-299 | a GET without the key in any letter case is -1 |
| Protocol.GetClientIdFromQuery | internal/api/api.go:253-262 | a GET's first case-insensitive ClientID key holding one decimal number yields that number |
| Protocol.GetFullClientId | internal/api/api.go:279-281 | the remote address, then '-', then text that parses back to the client number |
| Protocol.FullClientIdSeparatesClients | internal/api/api.go:279-281 | from one address, two requests share a session key exactly when their client numbers are equal |
| Protocol.EchoTransactionId | internal/api/api.go:242-251 | a negative value becomes 0; otherwise the low 32 bits (`uint32(ctid)`) |
| Protocol.NextTransactionId | internal/api/api.go:247 | one more, wrapping from 4294967295 to 0 |
| Protocol.AdvanceWraps | internal/api/api.go:247 | after k envelopes the counter is `(start + k) mod 2^32` |
| Protocol.AdvanceIncreases | internal/api/api.go:247 | below the wrap point, later envelopes carry strictly larger server numbers |
| Middleware.AlpacaValidation | internal/api/middleware.go:21-64 | succeeds exactly for an integer device_id, a ClientID of at least 1 and a ClientTransactionID of at least 1; each failure gives its own 400 message, checked in that order; the context holds exactly the parsed values with `isValid` true |
| Middleware.ClientIdZeroIsRejected | internal/api/middleware.go:34-40 | ClientID 0 is rejected with the ClientID message |
| Middleware.PutWithoutTransactionIdIsRejected | internal/api/middleware.go:43-49 | a PUT without a transaction field is rejected, because it parses as 0 |
| Middleware.ValidatedTransactionIdIsEchoed | internal/api/middleware.go:131-145 | a validated transaction number is at least 1 and is echoed unchanged below 2^32 |
| Middleware.DeviceValidation | internal/api/middleware.go:77-119 | an unknown device type gives "Device type not supported"; an unknown number gives "Device not found"; otherwise the device filed under the number |
| Middleware.Admit | internal/api/middleware.go:21-119 | the first rejection of the two middlewares, or the context together with the device |
| Middleware.AdmitGuarantees | internal/api/middleware.go:52-116 | an admitted request's context matches the request's parsed values, and its device is the one filed under its number |
| Middleware.NegativeDeviceNumberIsNotFound | internal/api/middleware.go:99-113 | a negative device number passes the integer check and then gets "Device not found" |
| Api.NumberDevices | internal/api/api.go:130-151 | device i has the i-th id, the given type and index i; each device is new with an empty session table |
| Api.ApiServer.constructor | internal/api/api.go:110-116 | no devices and counter 0 |
| Api.ApiServer.Start | internal/api/api.go:118-167 | both device types get a table of fresh, empty devices, numbered in ascending id order (the order the by-index lookup uses); the two tables share no device; the counter is unchanged |
| Api.ApiServer.MonitorTable | internal/api/api.go:130-140 | one fresh device per monitor id, in ascending id order |
| Api.ApiServer.WeatherTable | internal/api/api.go:142-151 | one fresh device per station id, in ascending id order |
| Api.ApiServer.PrepareAlpacaResponse | internal/api/api.go:242-251 | the counter advances by one; the envelope carries the new counter and the echoed, re-parsed transaction number; the device table is unchanged |
| Api.ApiServer.PrepareFromContext | internal/api/middleware.go:131-145 | like the above, but with the transaction number taken from the validation context |
| Api.StampingAgrees | internal/api/middleware.go:131-145 | for every validated request, both ways of stamping echo the same transaction number |
| App.CollectKeys | internal/app/barn.go:96-99 | every key of the map exactly once |
| App.Server.constructor | internal/app/barn.go:28-33 | both maps are empty |
| App.Server.AddMonitor | internal/app/barn.go:87-89 | files the monitor under its id, overwriting any old entry; stations are unchanged |
| App.Server.AddWeather | internal/app/barn.go:83-85 | files the station under its id, overwriting any old entry; monitors are unchanged |
| App.Server.RemoveMonitor | internal/app/barn.go:91-93 | deletes that id only; does nothing when the id is absent |
| App.Server.GetMonitorIds | internal/app/barn.go:95-102 | every monitor id exactly once, strictly ascending |
| App.Server.GetWeatherIds | internal/app/barn.go:116-123 | every station id exactly once, strictly ascending |
| App.Server.GetMonitor | internal/app/barn.go:104-106 | the stored monitor, or None exactly when the id is absent |
| App.Server.GetWeather | internal/app/barn.go:125-127 | the stored station, or None exactly when the id is absent |
| App.Server.GetMonitorByIndex | internal/app/barn.go:108-114 | "Index out of range" for an index below 0 or at least the count; otherwise the monitor under the index-th smallest id |
| App.Server.GetWeatherByIndex | internal/app/barn.go:129-135 | "Index out of range" for an index below 0 or at least the count; otherwise the station under the index-th smallest id |
| App.TwoMonitorOrdinals | internal/app/barn.go:95-114 | monitors "dummy" and "dummy2" get ordinals 0 and 1, and ordinal 2 is out of range |
| App.OrdinalsIgnoreRegistrationOrder | internal/app/barn.go:95-102 | the sorted listing does not depend on the order of registration |
| Weather.SensorNamesKnown | internal/weather/weather.go:39-54 | every sensor's name is a key of the availability table |
| Weather.KnownNamesAreSensors | internal/weather/weather.go:39-54 | every key of the table is some sensor's name, so the table has exactly these 14 entries |
| Weather.DescriptionsCoverTable | internal/weather/weather.go:57-72 | the description table has exactly the same keys as the availability table |
| Weather.TimeStampIsNoSensor | internal/weather/weather.go:57-72 | "TimeStamp" is neither in the table nor described |
| Weather.IsValidSensor | internal/weather/weather.go:75-82 | true exactly when the name equals some sensor name ignoring case |
| Weather.IsSensorAvailable | internal/weather/weather.go:85-90 | true exactly when the exact-case lookup finds the name enabled; an available name is also valid |
| Weather.GetSensorDescription | internal/weather/weather.go:93-96 | a description exactly for the 14 exact-case keys, and it is theirs |
| Weather.AvailableSensorSet | internal/weather/weather.go:39-54 | under its own name, a sensor is available exactly when it is not one of CloudCover, SkyBrightness, SkyQuality, SkyTemperature or StarFWHM |
| Weather.CaseVariantIsValid | internal/weather/weather.go:75-82 | "temperature" is a valid sensor name |
| Weather.CaseVariantIsNotAvailable | internal/weather/weather.go:85-90 | "temperature" is not available, while "Temperature" is |
| Weather.ValidIfFoldsToSensor | internal/weather/weather.go:75-82 | any case variant of a sensor name is valid |
| Weather.GetAvailableSensors | internal/weather/weather.go:99-107 | each enabled sensor exactly once, and no disabled one |
| Weather.ApplyReport | internal/weather/weather.go:355-363 | the eight reported readings take the report's values (pressure from baromin); every other reading is unchanged |
| Weather.FetchError | internal/weather/weather.go:308-352 | no error exactly for a response with status 200, a read without failure and a decoded document |
| Weather.ObservingConditions.Dummy | internal/weather/weather.go:178-186 | all readings are zero and the station was never refreshed |
| Weather.ObservingConditions.Http | internal/weather/weather.go:286-305 | an HTTP station with zero readings that was never refreshed |
| Weather.ObservingConditions.SetAveragePeriod | internal/weather/weather.go:385-391 | a negative period gives `ErrInvalidPeriod` and changes nothing; any other period, zero included, replaces only the average period |
| Weather.ObservingConditions.Refresh | internal/weather/weather.go:307-367 | the dummy changes nothing and reports no error; the HTTP station reports `FetchError`; on success it applies the report and stamps `now`; on failure nothing changes |
| Weather.NewObservingConditionsHttp | internal/weather/weather.go:286-305 | an empty URL gives `ErrInvalidURL` and no driver; otherwise a fresh station polled once |
| Monitor.FallbackMatch | internal/monitor/monitor.go:35-38 | the fallback expression: "true" appears in some letter case, or "1" appears |
| Monitor.NewSafetyMatchingRule | internal/monitor/monitor.go:30-41 | `invert` is always false; a pattern that compiles decides the verdict; an empty or non-compiling pattern uses the fallback |
| Monitor.InvertIsIgnored | internal/monitor/monitor.go:31-34 | an inverted rule gives the same verdicts as a plain one |
| Monitor.FallbackAcceptsTrue | internal/monitor/monitor.go:35-38 | "TrUe" and "roof: TRUE" are safe under the fallback |
| Monitor.FallbackAcceptsOne | internal/monitor/monitor.go:35-38 | "1" is safe under the fallback |
| Monitor.FallbackRejects | internal/monitor/monitor.go:35-38 | "0", "abc" and "" are unsafe under the fallback |
| Monitor.NoOccurrence | internal/monitor/monitor.go:35-38 | text without '1' and without 't' in either case fails the fallback |
| Monitor.ReadFile | internal/monitor/monitor.go:206-220 | a read never delivers more than the 1024-byte buffer (one character stands for one byte) |
| Monitor.MissingOrEmptyFileIsUnsafe | internal/monitor/monitor.go:207-220 | a missing or empty file makes the monitor unsafe with an empty raw value and an unchanged timestamp |
| Monitor.FileContentIsJudged | internal/monitor/monitor.go:221-225 | a non-empty file is judged on its first 1024 bytes (one character per byte), which become the raw value, and the timestamp moves to now |
| Monitor.EmptyHttpBodyIsJudged | internal/monitor/monitor.go:99-119 | an HTTP body that ends at once is judged as the empty text |
| Monitor.FailureIsUnsafe | internal/monitor/monitor.go:101-112 | a failed fetch never leaves a polled monitor safe |
| Monitor.SafetyMonitor.Dummy | internal/monitor/monitor.go:131-138 | the fixed verdict, no raw value and the zero time |
| Monitor.SafetyMonitor.Polled | internal/monitor/monitor.go:65-73 | unsafe, no raw value and never refreshed |
| Monitor.SafetyMonitor.GetRawValue | internal/monitor/monitor.go:164-166 | the dummy's raw value is "" |
| Monitor.SafetyMonitor.GetTimeStamp | internal/monitor/monitor.go:168-170 | the dummy's timestamp is the zero time |
| Monitor.SafetyMonitor.Refresh | internal/monitor/monitor.go:99-119 | the new state is `Refreshed` of the old state, the fetch outcome and `now` |
| Monitor.NewSafetyMonitorDummyFromCfg | internal/monitor/monitor.go:121-129 | name and description come from the configuration; safe exactly when `is_safe` is the string "true" |
| Monitor.NewSafetyMonitorHttp | internal/monitor/monitor.go:65-73 | a fresh HTTP monitor that has been refreshed once from the initial state |
| Monitor.NewSafetyMonitorFile | internal/monitor/monitor.go:228-232 | a fresh file monitor that has been refreshed once from the initial state |
| MonitorApi.SafetyMonitorApi.constructor | internal/api/safetymonitor.go:20-25 | keeps the server |
| MonitorApi.SafetyMonitorApi.HandleIsSafe | internal/api/safetymonitor.go:72-104 | always a 200 envelope; true only for a connected client whose monitor exists and is safe |
| MonitorApi.SafetyMonitorApi.HandleConnected | internal/api/safetymonitor.go:107-114 | an envelope saying whether this client is connected |
| MonitorApi.SafetyMonitorApi.HandleFixed | internal/api/safetymonitor.go:117-192 | connecting is false; the driver info is fixed; the version is the build version; supported actions are ["RawValue"]; interface version 2 |
| MonitorApi.SafetyMonitorApi.HandleName | internal/api/safetymonitor.go:126-139 | "Device not found" when there is no monitor, else its name; no connection check |
| MonitorApi.SafetyMonitorApi.HandleDescription | internal/api/safetymonitor.go:142-155 | "Device not found" when there is no monitor, else its description; no connection check |
| MonitorApi.SafetyMonitorApi.HandleDeviceState | internal/api/safetymonitor.go:195-225 | lookup, then connection, then exactly `[IsSafe, TimeStamp]` in that order |
| MonitorApi.SafetyMonitorApi.HandleSetConnected | internal/api/safetymonitor.go:228-255 | "true"/"false" in any case connect/disconnect; any other value gives "Invalid request" and the sessions are unchanged |
| MonitorApi.SafetyMonitorApi.HandleAction | internal/api/safetymonitor.go:258-286 | lookup, then connection; only the exact "RawValue" returns the raw value; every other action gives a 400 |
| MonitorApi.SafetyMonitorApi.HandleConnect | internal/api/safetymonitor.go:289-318 | with no connection check, connects this client and changes nothing else |
| MonitorApi.SafetyMonitorApi.HandleDisconnect | internal/api/safetymonitor.go:321-350 | with no connection check, drops this client's session and changes nothing else |
| MonitorApi.SafetyMonitorApi.Serve | internal/api/safetymonitor.go:27-53 | a rejected request gets the middleware's reply and changes nothing; every envelope is stamped |
| WeatherApi.RefusedSensors | internal/api/weather.go:304-335 | exactly SkyBrightness, SkyQuality, SkyTemperature and StarFWHM get the 0x400 envelope |
| WeatherApi.CloudCoverIsAnswered | internal/api/weather.go:199-217 | CloudCover is unavailable, yet its GET is answered with the reading and not refused |
| WeatherApi.EnabledStates | internal/api/weather.go:636-652 | each enabled sensor appears once with value true, and no disabled one |
| WeatherApi.ObservingConditionsApi.constructor | internal/api/weather.go:21-26 | keeps the server |
| WeatherApi.ObservingConditionsApi.HandleConnected | internal/api/weather.go:80-87 | an envelope saying whether this client is connected |
| WeatherApi.ObservingConditionsApi.HandleFixed | internal/api/weather.go:90-165 | connecting is false; the driver info is fixed; the version is the build version; supported actions are ["Refresh"]; interface version 2 |
| WeatherApi.ObservingConditionsApi.HandleName | internal/api/weather.go:99-112 | "Device not found" when there is no station, else its name |
| WeatherApi.ObservingConditionsApi.HandleDescription | internal/api/weather.go:115-128 | "Device not found" when there is no station, else its description |
| WeatherApi.ObservingConditionsApi.HandleAveragePeriod | internal/api/weather.go:168-196 | lookup, then connection; then the client's own period if it set one, else the station's |
| WeatherApi.ObservingConditionsApi.HandleSensor | internal/api/weather.go:199-534 | lookup, then connection; then a refused sensor gets the 0x400 envelope naming it, and any other sensor returns the reading |
| WeatherApi.ObservingConditionsApi.HandleTimeSinceLastUpdate | internal/api/weather.go:537-571 | lookup, then connection; a non-empty unavailable SensorName gets 0x400; otherwise the seconds since the last refresh |
| WeatherApi.ObservingConditionsApi.HandleSensorDescription | internal/api/weather.go:574-619 | lookup, then connection; then a missing name gives a 400, an unavailable one 0x400, and an available one its description |
| WeatherApi.ObservingConditionsApi.HandleDeviceState | internal/api/weather.go:622-659 | lookup, then connection; each enabled sensor once with true, then exactly one final TimeStamp entry |
| WeatherApi.ObservingConditionsApi.HandleSetConnected | internal/api/weather.go:662-689 | "true"/"false" in any case connect/disconnect; any other value gives "Invalid request" and the sessions are unchanged |
| WeatherApi.ObservingConditionsApi.RefreshStation | internal/api/weather.go:733-752 | a failed refresh gives a plain 500, with no envelope and the station unchanged; a good one gives an empty envelope and the applied report |
| WeatherApi.ObservingConditionsApi.HandleAction | internal/api/weather.go:692-713 | lookup, then connection; only the exact "Refresh" polls the station; anything else gives a 400 and the station is not polled; after a good poll an HTTP station holds the report applied to its old readings and the refresh time `now`, and a dummy station is never changed |
| WeatherApi.ObservingConditionsApi.HandleRefresh | internal/api/weather.go:716-730 | lookup, then connection, then the poll and its 500 or envelope; after a good poll an HTTP station holds the report applied to its old readings and the refresh time `now`, and a dummy station is never changed |
| WeatherApi.ObservingConditionsApi.HandleSetAveragePeriod | internal/api/weather.go:755-811 | lookup, then connection; an empty field gives a 400, an unparsable one a 400; otherwise the period is stored for this client only |
| WeatherApi.ObservingConditionsApi.HandleConnect | internal/api/weather.go:814-836 | connects this client at once and changes nothing else |
| WeatherApi.ObservingConditionsApi.HandleDisconnect | internal/api/weather.go:839-861 | drops this client's session and changes nothing else |
| WeatherApi.ObservingConditionsApi.Serve | internal/api/weather.go:28-70 | a rejected request gets the middleware's reply and changes nothing; every envelope is stamped |
| Discovery.ClampPort | discovery.go:24-29 | a port in 1..65535 is kept; any other port becomes the default |
| Discovery.NewDiscoveryServer | discovery.go:23-34 | the API port is clamped to 11111; the listen string is ':' followed by the decimal form of the clamped listen port |
| Discovery.ComposeDiscoveryReply | discovery.go:60-62 | `{\n"AlpacaPort":` , then text that parses back to the API port, then `\n}` |
| Discovery.IsDiscoveryProbe | discovery.go:53-57 | a datagram is answered exactly when it starts with "alpacadiscovery1" |
| Discovery.Listen | discovery.go:37-59 | exactly the senders of probes are answered, in arrival order; read errors and other datagrams are skipped |
| Discovery.ProbeSendersAreProbes | discovery.go:46-58 | an address is answered exactly when some probe came from it |
| Discovery.ListenStringOf | discovery.go:23-34 | the listen string is ':' followed by the canonical digits of the clamped port |
| Discovery.ListenStringExamples | pkg/discovery/discovery_test.go:25-43 | ports 32227, 33227, 70000 and 0 give ":32227", ":33227", ":32227" and ":32227" |
| Discovery.ReplyExample | discovery.go:60-62 | the reply is `{\n"AlpacaPort":` + digits + `\n}` exactly |
| Discovery.ReplyExamples | pkg/discovery/discovery_test.go:45-63 | the API ports 11111, 80, 70000 and 0 give the replies the tests expect |
| Discovery.ProbeExamples | discovery.go:55 | "alpacadiscovery1" and longer datagrams are probes; "alpacadiscovery" is not |
| LegacyMonitor.IsSafeString | monitor.go:21-26 | true exactly when the text starts with "true" in any case or with "1": a prefix test |
| LegacyMonitor.SafePrefixes | monitor.go:21-26 | "TRUE\n", "1" and "10" are safe |
| LegacyMonitor.PrefixNotSubstring | monitor.go:21-26 | "roof: true", "0", "" and "tru" are unsafe |
| LegacyMonitor.PrefixImpliesFallback | monitor.go:21-26 | everything the prefix test accepts is also accepted by the later fallback expression |
| LegacyMonitor.FallbackIsWider | monitor.go:21-26 | "roof: TRUE" is accepted by the later rule only, so the two versions differ |
| LegacyMonitor.ZeroPaddingKeepsVerdict | monitor.go:73-82 | judging the zero-padded 1024-byte buffer gives the same verdict as judging the bytes read |
| LegacyMonitor.FailureKeepsRefreshTime | monitor.go:64-83 | a failed fetch makes the monitor unsafe and keeps the last refresh time |
| LegacyMonitor.SuccessJudgesBytesRead | monitor.go:153-169 | an accepted fetch is safe exactly when the bytes read pass the prefix test, and the time moves to now |
| LegacyMonitor.EmptyContentIsUnsafe | monitor.go:153-169 | a missing or empty file is unsafe with its time kept; an empty HTTP body is judged, so it is unsafe with the time moved to now |
| LegacyMonitor.LegacySafetyMonitor.Dummy | monitor.go:95-102 | the fixed verdict and the zero time |
| LegacyMonitor.LegacySafetyMonitor.Polled | monitor.go:37-41 | unsafe and never refreshed |
| LegacyMonitor.LegacySafetyMonitor.Refresh | monitor.go:64-83 | the new state is `LegacyRefreshed` of the old state; the dummy's state is unchanged (monitor.go:115-116) |
| LegacyMonitor.NewSafetyMonitorHttp | monitor.go:37-41 | a fresh HTTP monitor that has been refreshed once |
| LegacyMonitor.NewSafetyMonitorHttpFromCfg | monitor.go:42-46 | name, description and url come from the configuration, then one refresh |
| LegacyMonitor.NewSafetyMonitorFile | monitor.go:177-181 | a fresh file monitor that has been refreshed once |
| LegacyMonitor.NewSafetyMonitorFileFromCfg | monitor.go:171-175 | name, description and path come from the configuration, then one refresh |
| LegacyMonitor.NewSafetyMonitorDummyFromCfg | monitor.go:85-93 | safe exactly when `is_safe` is the string "true" |
| LegacyMonitor.MissingFileStartsUnsafe | monitor.go:177-181 | a file monitor on a missing path is unsafe right after construction |
| LegacyBarn.NegativeIndexPanics | barn.go:72-83 | index -1 reaches the key slice and panics as written; the guarded lookup refuses it |
| LegacyBarn.ByIndexIsTotal | barn.go:72-83 | the guarded lookup succeeds exactly for an existing ordinal, returning that registered monitor; it agrees with the written lookup on every index that is not negative |
| LegacyBarn.LegacyServer.constructor | barn.go:22-26 | an empty registry |
| LegacyBarn.LegacyServer.AddMonitor | barn.go:52-54 | files the monitor under its id, overwriting any old entry |
| LegacyBarn.LegacyServer.RemoveMonitor | barn.go:56-58 | deletes that id only |
| LegacyBarn.LegacyServer.GetMonitorIds | barn.go:60-66 | every id exactly once, in no particular order |
| LegacyBarn.LegacyServer.GetMonitor | barn.go:68-70 | the stored monitor, or None exactly when the id is absent |
| LegacyBarn.LegacyServer.GetMonitorByIndexAsWritten | barn.go:72-83 | as written: an index past the end is out of range, a negative index panics, otherwise the index-th monitor in sorted order |
| LegacyBarn.LegacyServer.GetMonitorByIndex | barn.go:72-83 | with the `index < 0` guard added: the total lookup `ByIndex` |
| LegacyApi.WithConnected | api.go:42-59 | adds the id if absent; the id is then connected; a new record is `{connected, ctid 0}`; other records are unchanged |
| LegacyApi.WithoutClient | api.go:61-68 | drops exactly this id; other records are unchanged |
| LegacyApi.SessionsMatchLaterVersion | api.go:34-68 | once the weather state is dropped, connect, disconnect and `IsConnected` agree with the current version |
| LegacyApi.LegacySessionLaws | api.go:42-68 | connecting is idempotent, connecting a connected client changes nothing, and disconnecting an unknown id changes nothing |
| LegacyApi.LegacyDevice.constructor | api.go:87-92 | the id, type and index are as given, and the session table is empty |
| LegacyApi.LegacyDevice.ConnectClient | api.go:42-59 | the new table is `WithConnected` of the old one |
| LegacyApi.LegacyDevice.DisconnectClient | api.go:61-68 | the new table is `WithoutClient` of the old one |
| LegacyApi.QueryValue | api.go:180-207 | `c.Query`: "" when no key is spelled exactly so |
| LegacyApi.QueryValueFirstExact | api.go:180-207 | the first exactly-spelled key supplies its first value |
| LegacyApi.LegacyGetClientId | api.go:180-207 | -1 for a missing, malformed or negative ClientID, else its value; only the spellings "ClientID" and "clientid" are read |
| LegacyApi.PutClientIdUnchanged | api.go:180-207 | a PUT's client number is parsed as the current version parses it |
| LegacyApi.GetClientIdIsCaseSensitive | api.go:180-207 | "CLIENTID=5" is no client number here, but it is 5 for the current parser |
| LegacyApi.LegacyGetClientTransactionId | api.go:213-240 | (corrected) -1 for a missing, malformed or negative value, else its value; both spellings are read |
| LegacyApi.LowerCaseTransactionFieldIgnored | api.go:223-231 | as written, a PUT carrying only "clienttransactionid" has no transaction number (-1) |
| LegacyApi.TransactionFieldSpellingsAgree | api.go:213-240 | corrected, the two spellings give the same transaction number, as for ClientID |
| LegacyApi.LowerCaseTransactionCounterexample | api.go:242-256 | the PUT `ClientID=1&clienttransactionid=7` is invalid as written, and valid with transaction 7 when corrected |
| LegacyApi.ZeroNumbersAcceptedHereOnly | api.go:242-256 | ClientID 0 and transaction 0 pass here, while the current middleware rejects them |
| LegacyApi.NegativeDeviceNumberPanics | api.go:242-256 | device number -1 passes `validAlpacaRequest`, and the lookup as written then panics |
| LegacyApi.NumberLegacyDevices | api.go:84-93 | device i has the i-th id, the monitor type and index i; each device is new and empty |
| LegacyApi.LegacyApiServer.constructor | api.go:70-76 | no devices and counter 0 |
| LegacyApi.LegacyApiServer.Start | api.go:78-100 | device numbers 0..count-1, each a fresh, empty device for a registered id; different numbers name different ids, and every registered id gets a number; every ordinal has a session table; the counter is unchanged |
| LegacyApi.LegacyApiServer.TargetHasSession | api.go:78-100 | after `Start`, every monitor found by number has a session table |
| LegacyApi.LegacyApiServer.PrepareAlpacaResponse | api.go:169-178 | the counter advances by one; the transaction number is echoed with negative values made 0 |
| LegacyApi.LegacyApiServer.HandleSafetyMonitorRequest | api.go:264-334 | invalid request, then missing device; then the lower-cased action: issafe is false for a client that is not connected; eight actions get their values; anything else gives a 400 |
| LegacyApi.LegacyApiServer.Answer | api.go:275-333 | the action chain for a found monitor |
| LegacyApi.LegacyApiServer.HandleSafetyMonitorConnect | api.go:336-367 | invalid request, then missing device, before any session change; "true"/"false" in any case connect/disconnect; any other value gives "Invalid request" and the sessions are unchanged |
| LegacyApi.LegacyApiServer.Toggle | api.go:351-366 | the connected toggle on the lower-cased value |
| LegacyApi.LegacyApiServer.HandleSafetyMonitorAction | api.go:369-401 | invalid request, then missing device, then not connected; only the exact "RawValue" returns the raw value; anything else gives a 400 |

## Left out

- Real I/O: HTTP requests, `os.OpenFile`/`Read` and the UDP socket. Each is one abstract outcome passed in by the caller. The discovery replies are sent from goroutines, so only the set of addresses answered is modelled, not the order in which replies leave.
- Concurrency: registry-wide `Refresh` goroutines (internal/app/barn.go:137-158, barn.go:85-89) and handlers running in parallel and racing on the counter and session maps. Every request is one sequential step.
- gin plumbing: route registration beyond the verb of each route, `IndentedJSON`/`c.String` rendering, and the context key/value store. Replies are the `Protocol.Response` datatype. The middleware's 500 replies for a missing context or server cannot happen in a configured router.
- The management API (`configureManagementAPI`, both versions), the configuration loaders (`LoadMonitorsFromConfig`, `LoadWeatherFromConfig`, viper), main.go and cmd/barn/main.go.
- Go `regexp`: a user pattern is a caller-supplied matcher, or `None` when it does not compile. Only the fallback `(?i)true|1` and the first version's prefix test are concrete, so the tests' "[a-z]+" and "open" patterns have no counterpart.
- `time.Now` is a parameter `now`, and `debug.ReadBuildInfo` is the `buildVersion` constant of the server.
- `GetState` JSON marshalling.
- `strconv.ParseFloat` is a parameter (`string -> Option<real>`); NaN and IEEE rounding are not modelled.
- `Io.SecondsSince` is exact real division, with no float rounding.
- `ToLower`/`EqualFold` map ASCII letters only, with no Unicode case folding.
- Content read from a file, an HTTP body or a UDP datagram is a byte string in Go. The model writes it as a `string` with one character per byte, and the 1024-byte buffers count those characters (`Io.FitsBuffer`, `Monitor.ReadFile`, `LegacyMonitor`'s reads, `Discovery.IsDiscoveryProbe`). Multi-byte UTF-8 text is not modelled. A file holding 600 "é" and then "true" is 1204 bytes: Go reads 512 "é" and finds no "true". The model needs the text already split into bytes.
- Map-iteration order is left open, and the contracts hold for every order:
  - the order of a GET's query keys (two keys that differ only by case), with one caveat below;
  - the order of the enabled sensors in the weather device state;
  - the order of the first version's `GetMonitorIds`;
  - the order of the device table its `Start` builds.
- One query-key order is fixed per request, and every read of the query in that request uses it. Go's `c.Request.URL.Query()` builds a map and walks it again on each `getQuery` call (internal/api/middleware.go:34 and :56, internal/api/safetymonitor.go:237, internal/api/weather.go:76). So for `GET ?ClientID=1&clientid=2`, Go may validate client 1 and then connect or check the session of client 2. The model cannot show that mix; each request sees either client 1 throughout or client 2 throughout.
- `WeatherApi.ObservingConditionsApi.HandleSetAveragePeriod`: the 500 "Failed to set average period" branch is not stated. It cannot be reached: the client's connection is checked just before, on the same table.
- `WeatherApi.ObservingConditionsApi.HandleSensorDescription`: the 400 for a description lookup miss is not stated. Every available sensor has a description, so that branch cannot be taken.
- LegacyApi.LegacyApiServer.HandleSafetyMonitorRequest requires `Registered()` (what `Start` sets up). If a monitor were added after `Start`, the Go handlers would dereference a nil device. The same precondition is on `HandleSafetyMonitorConnect` and `HandleSafetyMonitorAction`.
- The first version's `api.go` calls `GetRawValue` on its `SafetyMonitor`, but the interface of that version (monitor.go) does not declare it. The monitor's last text is therefore a `rawValue` parameter of `HandleSafetyMonitorAction`.
- LegacyApi.LegacyApiServer.PrepareAlpacaResponse: echoes the corrected transaction-id parser `LegacyGetClientTransactionId`, not `ClientTransactionIdAsWritten` (api.go:218-231). So a PUT carrying only `clienttransactionid=7` is echoed as 7 here. In Go it reads -1 and the request is refused. The as-written parser and this difference are modelled under "## Findings".
- LegacyApi.LegacyApiServer.HandleSafetyMonitorRequest: models the corrected program. It validates with `LegacyValidAlpacaRequest` (corrected transaction-id parser) and looks up with the guarded `LegacyBarn.LegacyServer.GetMonitorByIndex`. As written (api.go:170, 248-253; barn.go:72-83), device number -1 passes validation and `keySlice[-1]` panics; gin's recovery then answers 500. The model answers 400 "Device not found". Both as-written halves are in "## Findings".
- LegacyApi.LegacyApiServer.HandleSafetyMonitorConnect: models the corrected program, as `HandleSafetyMonitorRequest` does. A PUT with `ClientID=1&clienttransactionid=7&Connected=true` connects the client here; Go refuses it with 400 "Invalid request". Device number -1 gets 400 here; Go panics into a 500.
- LegacyApi.LegacyApiServer.HandleSafetyMonitorAction: models the corrected program, with the same two diverging inputs as `HandleSafetyMonitorConnect`.
- The ids the first version's `Start` numbers come in map order, while its lookup by number uses ascending order. So `LegacyApi.LegacyApiServer.Start` states that the numbers name each registered id exactly once, but not which number gets which id.
- `Weather.ObservingConditions.Refresh`: the readings and the refresh time are stated. The `GetState` rendering is not.
- The counter wraps at 2^32. `Protocol.AdvanceWraps` states the wrap, and monotonicity is stated only below it (`Protocol.AdvanceIncreases`).
- types.go and internal/api/types.go define structs only; they are mirrored by the datatypes and fields of the model.

- Some lemmas and methods exist only to keep proofs small, and they have no row above: `Api.ApiServer.BuildTables`, `LegacyApi.LegacyApiServer.MonitorDevices`, `Weather.TableNamesCapitalised`, `Weather.SensorNameCapitalised`, `LegacyApi.ForgetCommutesWithConnect`, `LegacyApi.ForgetCommutesWithRemove`, `LegacyApi.LegacyMissesShoutedKey`, `LegacyApi.LaterFoldsShoutedKey` and `LegacyMonitor.TrueLaterIsUnsafe`. Each proves one part of the member that calls it.

## Findings

| source | as written | input that shows it | evidently intended | confidence | as-written member | corrected member |
|---|---|---|---|---|---|---|
| barn.go:72-83 | `GetMonitorByIndex` checks only `id > len(keys)-1` before `keys[id]` | device_id `-1` with a valid ClientID and ClientTransactionID: `validAlpacaRequest` accepts it (api.go:242-256) and the slice index panics | refuse a negative index with "Index out of range", as internal/app/barn.go:108-114 does | high (proved on the model; not executed) | LegacyBarn.LegacyServer.GetMonitorByIndexAsWritten | LegacyBarn.LegacyServer.GetMonitorByIndex |
| api.go:223-231 | the PUT branch of `getClientTransactionId` reads `c.PostForm("ClientTransactionID")` twice | a PUT with form `ClientID=1&clienttransactionid=7` gives -1, so the request is refused as invalid | read "clienttransactionid" second, as `getClientId` does for "clientid" (api.go:180-207) | high (proved on the model; not executed) | LegacyApi.LowerCaseTransactionFieldIgnored | LegacyApi.TransactionFieldSpellingsAgree |
