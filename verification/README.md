# Vehicle dashboard backend — a Dafny model of its sequential core

The backend in `dev/main.py` polls an onboard-diagnostics link (or simulates
readings), keeps the latest telemetry snapshot, the trouble-code list, the
dashboard control toggles and the radio in memory, appends every snapshot to an
hourly log file, and pushes updates to connected dashboard clients over
Socket.IO. This project models the sequential logic under the threads and the
web framework:

- `base.dfy` — `Option` and an abstract timestamp.
- `telemetry.dfy` (module `Telemetry`) — one pass of `get_obd_data` over a live
  link: every channel is queried on its own; a null answer gives 0, the air-fuel
  ratio gives 14.7 on null or on a raised error, and fuel consumption is derived
  only from a positive fuel percentage. `int(...)` truncation toward zero is
  modelled (`Trunc`).
- `alerts.dfy` (module `Alerts`) — the threshold rule of `update_sensors`:
  a coolant-temperature warning above 100, then a battery warning below 12.0.
- `faults.dfy` (module `FaultCodes`) — `get_dtc_codes`: the demo list when
  there is no connection, `[]` for a null response, otherwise every raw code
  mapped in order through the static table with a generic default.
- `logs.dfy` (module `LogRotation`) — `rotate_logs`, `log_sensor_data` and
  `get_log_filename`. An hour bucket is an integer (hours since the epoch), the
  log directory a `map` from bucket to its lines. The pure functions `Rotated`
  and `Logged` specify the class `LogRotator`, whose fields are the source's
  globals `last_hour` and `current_log_file` plus the directory.
- `dashboard.dfy` (module `Dashboard`) — the class `Store` holding the shared
  state, the validated HTTP and socket mutators, the replay sent on `connect`,
  and one iteration of each background loop (`SensorTick`, `FaultTick`).
  Events sent to all subscribers are recorded in the ghost sequence `broadcast`.

Where the design description of the system and the code differ, the model
follows the code:

- A null trouble-code response yields an empty list; the demo codes appear only
  when there is no connection at all.
- Unknown trouble codes are titled `Hata Kodu <code>`.
- Rotation deletes exactly the file two buckets before the new one, not every
  older file. The retention bound (current and previous hour only) therefore
  holds only when rotation runs at every consecutive hour starting from a
  directory with no older files (`ConsecutiveRotationKeepsTwo`). After a skipped
  hour or a restart following a gap, older files are never deleted
  (`RotationWindow` gives the exact surviving set).
- The HTTP control path accepts a `state` that is present but `null`. The socket
  path also accepts a missing `state`. Both store "no value".

## Model

| member | source | states |
|---|---|---|
| Telemetry.Trunc | dev/main.py:135 | the integer channels truncate toward zero: the result lies within one of the reading, on the side of zero |
| Telemetry.IntReading | dev/main.py:129-167 | an integer channel is 0 on a null response and otherwise the reading truncated toward zero |
| Telemetry.RealReading | dev/main.py:192-198 | the battery voltage is 0 on a null response and otherwise the reading (rounding not modelled) |
| Telemetry.TurboPressure | dev/main.py:169-176 | turbo pressure is 0 on a null response and otherwise the intake pressure in bar, that is one hundredth of the kPa reading (rounding not modelled) |
| Telemetry.FuelConsumption | dev/main.py:178-190 | consumption is 0 exactly when the query is null, the percentage is not positive, or it is exactly 100 (without the source's rounding, which also gives 0 for percentages near 100); a percentage in (0, 100] gives a value in [0, 10); a positive percentage p gives 10 - p/10 |
| Telemetry.AirFuelRatio | dev/main.py:200-209 | a null response or a raised error gives the stoichiometric 14.7; a reading passes through |
| Telemetry.Assemble | dev/main.py:129-209 | every channel whose query is null falls back to 0, the air-fuel ratio to 14.7 (also on a raised error), and fuel consumption is 0 iff the fuel percentage is missing, non-positive or 100; every answered channel holds its reading: truncated for rpm, speed, load and both temperatures, kPa/100 for turbo pressure, 10 - p/10 for a positive fuel percentage, as read for voltage and air-fuel ratio |
| Telemetry.AllFailedGivesFallback | dev/main.py:129-209 | a pass in which every query fails yields 0 on every channel and 14.7 for the air-fuel ratio |
| Telemetry.ChannelsIndependent | dev/main.py:129-209 | each channel depends on its own query only, so one channel's fallback never affects another |
| Telemetry.ConversionExamples | dev/main.py:169-190 | 55 % fuel gives 4.5, 0 % gives 0, 202 kPa gives 2.02 bar before rounding |
| Alerts.Message | dev/main.py:286-296 | the temperature alert carries `Motor sıcaklığı kritik seviyede!` and the voltage alert `Akü voltajı düşük!` |
| Alerts.AlertsFor | dev/main.py:284-297 | exactly one temperature alert iff the coolant temperature exceeds 100, exactly one voltage alert iff the battery is below 12.0, temperature first, each carrying its reading |
| Alerts.TemperatureThresholdExamples | dev/main.py:285-290 | at 101 degrees with a healthy battery exactly one alert is sent, at 99 none |
| FaultCodes.Describe | dev/main.py:236-253 | a code in the table gets the table's title and description; any other code gets the title `Hata Kodu <code>` and the generic description |
| FaultCodes.Demo | dev/main.py:215-223 | the demo list is P0300, P0171, P0420, P0455 in that order, each stamped with the pass time |
| FaultCodes.DemoAgreesWithTable | dev/main.py:217-246 | each demo entry carries exactly the title and description the table gives its code |
| FaultCodes.ReadFaults | dev/main.py:211-260 | no connection gives the demo list, a null response gives the empty list, otherwise one entry per raw code in order, with the raw code, the table's texts or the generic title and description, and the pass time |
| LogRotation.FileNameInjective | dev/main.py:86-88 | for the model's decimal rendering of a bucket (standing in for the date-and-hour format), distinct buckets have distinct file names; this supports keying the directory by bucket rather than modelling the source's format |
| LogRotation.Rotated | dev/main.py:90-108 | within the same bucket nothing changes; on a new bucket the handle and last bucket become it, its file exists with its old lines (or empty), the file two buckets back is gone, and every other file is untouched |
| LogRotation.RotatedConsistent | dev/main.py:96-102 | rotation keeps the handle on the last bucket seen and that bucket's file present |
| LogRotation.RotatedIdempotent | dev/main.py:96 | rotating twice within one bucket is the same as rotating once |
| LogRotation.Logged | dev/main.py:110-120 | writing appends exactly one entry to the current bucket's file after rotation, deletes the file two buckets back only when the bucket changed (otherwise that file keeps its lines), and leaves every other file unchanged |
| LogRotation.RotationWindow | dev/main.py:96-108 | after rotating at every bucket from a to a+n, exactly the files of buckets a+n-1 (if created) and a+n remain, plus earlier files outside the deleted window a-2 .. a+n-2 |
| LogRotation.ConsecutiveRotationKeepsTwo | dev/main.py:104-108 | with no file older than the first deletion window, rotation at consecutive hours leaves exactly the current and previous bucket's files |
| LogRotation.LogRotator.constructor | dev/main.py:83-84 | the rotator starts with no bucket seen and no open handle over the existing directory |
| LogRotation.LogRotator.Rotate | dev/main.py:90-108 | the globals and directory change exactly as `Rotated` says, keeping the handle consistent |
| LogRotation.LogRotator.LogSensorData | dev/main.py:110-120 | the globals and directory change exactly as `Logged` says |
| Dashboard.ControlIdsMatchControls | dev/main.py:56-63 | the replay order lists every control id exactly once and nothing else |
| Dashboard.ControlCount | dev/main.py:56-63 | there are six controls, as many as control ids |
| Dashboard.ControlsCoverIds | dev/main.py:56-63 | a control map whose keys are the control ids holds every id and has as many entries as there are ids, so the connect replay visits each control once |
| Dashboard.ValidationExamples | dev/main.py:346-366 | volume 150 and a station index equal to the station count are rejected; the boundary values are accepted |
| Dashboard.AlertEvents | dev/main.py:284-297 | the alert events are the alerts in the same order, each with its warning text |
| Dashboard.Store.constructor | dev/main.py:42-84 | the initial snapshot, empty fault list, initial control states, five stations, station 0, playing, volume 70 |
| Dashboard.Store.SetControl | dev/main.py:325-337 | accepted iff the control is known and a `state` was sent; an accepted change updates only that control and sends one control update, a rejected one changes nothing |
| Dashboard.Store.SetRadioStation | dev/main.py:343-351 | accepted iff the index lies in [0, number of stations); only the station changes, one radio update is sent; the invariants are kept |
| Dashboard.Store.SetRadioPlay | dev/main.py:353-361 | accepted iff `playing` was sent, `null` included (stored as no value); only the playing flag changes, one radio update is sent |
| Dashboard.Store.SetRadioVolume | dev/main.py:363-371 | accepted iff the volume lies in [0, 100]; only the volume changes, one radio update is sent |
| Dashboard.Store.HandleControlChange | dev/main.py:401-412 | a known control is set to the sent state, missing or null meaning no value, with one control update; anything else changes nothing |
| Dashboard.Store.HandleRadioChange | dev/main.py:414-429 | station, playing and volume are each validated and applied independently, in that order (a `playing` sent as `null` is applied as no value), each accepted field sending one radio update of the radio at that moment |
| Dashboard.Store.HandleConnect | dev/main.py:381-395 | a new subscriber receives the snapshot, the fault list, one update per control in id order, then the radio: 3 + number of controls events |
| Dashboard.Store.ReadSensors | dev/main.py:122-209 | without a connection the simulated snapshot is taken; with one, the snapshot is the assembled pass, written channel by channel |
| Dashboard.Store.SensorTick | dev/main.py:275-299 | one fast-loop iteration samples, appends the snapshot to the current hour's log, sends the snapshot and then its alerts, and changes nothing else |
| Dashboard.Store.FaultTick | dev/main.py:301-306 | one slow-loop iteration replaces the fault list wholesale with the reader's result and sends it |

## Left out

- The diagnostics library and connection setup (dev/main.py:4, 16-39): foreign code. Query results are inputs (`Queries`, `FaultLink`).
- Simulated readings (dev/main.py:262-273): randomness and floats. The simulated snapshot is a parameter of `ReadSensors`.
- Rounding to one decimal place of turbo pressure, fuel consumption, battery voltage and air-fuel ratio (dev/main.py:176, 188, 198, 207): floating point. The model keeps exact reals; `int(...)` truncation is kept.
- A raised error from any query other than the air-fuel ratio: in the source it escapes `get_obd_data` and ends the sensor thread. It is not modelled; those queries answer a value or null.
- The infinite loops, `time.sleep`, the threads and the unsynchronised sharing of the globals between them and the request handlers (dev/main.py:275-306, 431-446): concurrency. One iteration of each loop is modelled.
- The startup sequence under `__main__` (dev/main.py:431-446): it only composes modelled operations.
- Flask plumbing: routes, `jsonify`, status codes, the GET endpoints, `index`, `get_obd_status`, `handle_disconnect` (dev/main.py:309-323, 339-341, 373-378, 397-399). Only the validation decisions of the POST handlers are kept.
- A request body that is not a JSON object (`request.get_json()` returning `None`) and request fields of other JSON types: stations and volumes are integers or not sent, `playing` and `state` booleans, `null` or not sent. In the source a float station or volume passes the range checks, a `null` one makes the comparison raise (the HTTP handlers then fail), and any other value of `state`/`playing` is stored as sent.
- Dashboard.Store.HandleRadioChange: a `station` or `volume` sent as `null` (or as a non-number) is not modelled. In the source the range comparison then raises (dev/main.py:416, 426), so for a null `station` none of the message's later fields, `playing` or `volume`, is applied; the model has no way to express that input.
- Telemetry.FuelConsumption: states that consumption is 0 only for a missing, non-positive or exactly-100 percentage. The source rounds to one decimal (dev/main.py:188), which also gives 0 for percentages from about 99.5 up to 100.5.
- Socket.IO transport: the difference between replying to one client and broadcasting, and delivery to subscribers. Broadcast events are appended to the ghost sequence `broadcast`; the connect replay is returned.
- Real file I/O (`open`, `close`, `write`, `flush`, `os.remove`, `os.makedirs`) and the JSON line format. The directory is a map from bucket to entries.
- Date formatting (`strftime`, `isoformat`). Buckets are integers and `FileName` renders a bucket as its decimal number; timestamps are abstract.
- The second clock read in `get_log_filename` (dev/main.py:88 against dev/main.py:93): the model uses one hour per rotation. In the source a call that straddles an hour boundary can open the next hour's file while recording the previous hour.
- Per-entry clock reads when stamping trouble codes (dev/main.py:218-221, 259): one time per pass.
- The element type of the library's trouble-code list: each raw code is taken as the text `str(dtc)` gives.
