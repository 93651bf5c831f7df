/** The shared state of the dashboard backend: the latest snapshot, the fault
    list, the control toggles and the radio, the validated mutators behind the
    HTTP and socket handlers, the replay sent to a new subscriber, and one
    iteration of each background loop. Events pushed to every subscriber are
    recorded, in order, in the ghost sequence `broadcast`. */
module Dashboard {
  import opened Base
  import opened Telemetry
  import opened Alerts
  import opened FaultCodes
  import opened LogRotation

  datatype Station = Station(name: string, freq: string)

  /** The radio as it is sent in a `radio_update` event; `isPlaying` is `None`
      when a client sent `playing` as `null`. */
  datatype RadioState = RadioState(stations: seq<Station>, currentStation: int, isPlaying: Option<bool>, volume: int)

  /** A named event on the subscriber channel. */
  datatype Event =
    | SensorUpdate(sensors: Snapshot)
    | ErrorUpdate(faults: seq<FaultCode>)
    | ControlUpdate(control: string, state: Option<bool>)
    | RadioUpdate(radio: RadioState)
    | AlertEvent(message: string, alert: Alert)

  /** A field of a request body: not sent, sent as `null`, or sent with a value. */
  datatype Field<T> = Missing | Null | Given(value: T) {
    /** What a dictionary lookup with default `None` gives. */
    function Get(): Option<T> {
      match this
      case Given(v) => Some(v)
      case _ => None
    }
  }

  /** A `control_change` message from a subscriber. */
  datatype ControlChange = ControlChange(control: Field<string>, state: Field<bool>)

  /** A `radio_change` message from a subscriber; any subset of the fields may be present. */
  datatype RadioChange = RadioChange(station: Option<int>, playing: Field<bool>, volume: Option<int>)

  /** What one sampling pass sees: no usable diagnostics connection (the simulated
      snapshot is then supplied from outside), or the answers of a connected link. */
  datatype SensorLink = Simulated(simulated: Snapshot) | Live(queries: Queries)

  /** The control ids, in the order a new subscriber receives them. */
  const CONTROL_IDS: seq<string> :=
    ["light", "seat_heating", "seat_cooling", "steering_heating", "spotlight", "screen_switch"]

  const INITIAL_CONTROLS: map<string, Option<bool>> := map[
    "light" := Some(true),
    "seat_heating" := Some(false),
    "seat_cooling" := Some(false),
    "steering_heating" := Some(false),
    "spotlight" := Some(false),
    "screen_switch" := Some(false)
  ]

  const STATIONS: seq<Station> := [
    Station("Power FM 98.5", "98.5"),
    Station("Best FM 95.7", "95.7"),
    Station("Number 1 FM 92.0", "92.0"),
    Station("Radyo D 90.8", "90.8"),
    Station("Joy FM 94.3", "94.3")
  ]

  const MAX_VOLUME: int := 100

  /** A station index is accepted when it was sent and lies in `[0, count)`. */
  predicate StationAccepted(station: Option<int>, count: int) {
    station.Some? && 0 <= station.value < count
  }

  /** A volume is accepted when it was sent and lies in `[0, 100]`. */
  predicate VolumeAccepted(volume: Option<int>) {
    volume.Some? && 0 <= volume.value <= MAX_VOLUME
  }

  /** Every control id is listed once, in a fixed order, and has an initial state. */
  lemma ControlIdsMatchControls()
    ensures forall c :: c in INITIAL_CONTROLS <==> c in CONTROL_IDS
    ensures forall i, j :: 0 <= i < j < |CONTROL_IDS| ==> CONTROL_IDS[i] != CONTROL_IDS[j]
  {
  }

  /** There are as many controls as control ids. */
  lemma ControlCount()
    ensures |INITIAL_CONTROLS.Keys| == |CONTROL_IDS|
  {
  }

  /** Any control map over the control ids holds every id, and as many entries as ids. */
  lemma ControlsCoverIds(controls: map<string, Option<bool>>)
    requires controls.Keys == INITIAL_CONTROLS.Keys
    ensures |controls| == |CONTROL_IDS|
    ensures forall i :: 0 <= i < |CONTROL_IDS| ==> CONTROL_IDS[i] in controls
  {
    ControlIdsMatchControls();
    ControlCount();
    assert |controls| == |controls.Keys|;
  }

  /** A volume of 150 and a station index equal to the number of stations are rejected. */
  lemma ValidationExamples()
    ensures !VolumeAccepted(Some(150))
    ensures !StationAccepted(Some(|STATIONS|), |STATIONS|)
    ensures StationAccepted(Some(|STATIONS| - 1), |STATIONS|) && VolumeAccepted(Some(0)) && VolumeAccepted(Some(MAX_VOLUME))
  {
  }

  /** The events that carry a list of alerts, in the same order. */
  function AlertEvents(alerts: seq<Alert>): (es: seq<Event>)
    ensures |es| == |alerts|
    ensures forall i :: 0 <= i < |es| ==> es[i] == AlertEvent(Message(alerts[i]), alerts[i])
  {
    if alerts == [] then [] else [AlertEvent(Message(alerts[0]), alerts[0])] + AlertEvents(alerts[1..])
  }

  class Store {
    var sensors: Snapshot
    var faults: seq<FaultCode>
    var controls: map<string, Option<bool>>
    const stations: seq<Station>
    var currentStation: int
    var isPlaying: Option<bool>
    var volume: int
    const logs: LogRotator
    ghost var broadcast: seq<Event>

    /** The control key set never changes, the station index and the volume stay
        in range, and the log rotator is consistent. */
    ghost predicate Valid()
      reads this, logs
    {
      && controls.Keys == INITIAL_CONTROLS.Keys
      && 0 <= currentStation < |stations|
      && 0 <= volume <= MAX_VOLUME
      && logs.Valid()
    }

    function Radio(): RadioState
      reads this
    {
      RadioState(stations, currentStation, isPlaying, volume)
    }

    /** The state at process start; `disk` is what the log directory already holds. */
    constructor (disk: Files)
      ensures Valid() && fresh(logs)
      ensures sensors == INITIAL && faults == [] && controls == INITIAL_CONTROLS
      ensures Radio() == RadioState(STATIONS, 0, Some(true), 70)
      ensures logs.State() == RotatorState(None, None, disk)
      ensures broadcast == []
    {
      sensors := INITIAL;
      faults := [];
      controls := INITIAL_CONTROLS;
      stations := STATIONS;
      currentStation, isPlaying, volume := 0, Some(true), 70;
      logs := new LogRotator(disk);
      broadcast := [];
    }

    /** `POST /api/control/<name>`: accepted for a known control when the body has
        a `state` field (which may be `null`). */
    method SetControl(name: string, state: Field<bool>) returns (ok: bool)
      requires Valid()
      modifies this
      ensures Valid()
      ensures ok <==> name in old(controls) && !state.Missing?
      ensures ok ==> controls == old(controls)[name := state.Get()]
      ensures ok ==> broadcast == old(broadcast) + [ControlUpdate(name, state.Get())]
      ensures !ok ==> controls == old(controls) && broadcast == old(broadcast)
      ensures sensors == old(sensors) && faults == old(faults) && Radio() == old(Radio())
    {
      ok := false;
      if name in controls {
        if !state.Missing? {
          controls := controls[name := state.Get()];
          broadcast := broadcast + [ControlUpdate(name, controls[name])];
          ok := true;
        }
      }
    }

    /** `POST /api/radio/station`. */
    method SetRadioStation(station: Option<int>) returns (ok: bool)
      requires Valid()
      modifies this
      ensures Valid()
      ensures ok <==> StationAccepted(station, |stations|)
      ensures ok ==> Radio() == old(Radio()).(currentStation := station.value)
      ensures ok ==> broadcast == old(broadcast) + [RadioUpdate(Radio())]
      ensures !ok ==> Radio() == old(Radio()) && broadcast == old(broadcast)
      ensures sensors == old(sensors) && faults == old(faults) && controls == old(controls)
    {
      ok := StationAccepted(station, |stations|);
      if ok {
        currentStation := station.value;
        broadcast := broadcast + [RadioUpdate(Radio())];
      }
    }

    /** `POST /api/radio/play`: accepted whenever `playing` was sent, `null` included. */
    method SetRadioPlay(playing: Field<bool>) returns (ok: bool)
      requires Valid()
      modifies this
      ensures Valid()
      ensures ok <==> !playing.Missing?
      ensures ok ==> Radio() == old(Radio()).(isPlaying := playing.Get())
      ensures ok ==> broadcast == old(broadcast) + [RadioUpdate(Radio())]
      ensures !ok ==> Radio() == old(Radio()) && broadcast == old(broadcast)
      ensures sensors == old(sensors) && faults == old(faults) && controls == old(controls)
    {
      ok := !playing.Missing?;
      if ok {
        isPlaying := playing.Get();
        broadcast := broadcast + [RadioUpdate(Radio())];
      }
    }

    /** `POST /api/radio/volume`. */
    method SetRadioVolume(vol: Option<int>) returns (ok: bool)
      requires Valid()
      modifies this
      ensures Valid()
      ensures ok <==> VolumeAccepted(vol)
      ensures ok ==> Radio() == old(Radio()).(volume := vol.value)
      ensures ok ==> broadcast == old(broadcast) + [RadioUpdate(Radio())]
      ensures !ok ==> Radio() == old(Radio()) && broadcast == old(broadcast)
      ensures sensors == old(sensors) && faults == old(faults) && controls == old(controls)
    {
      ok := VolumeAccepted(vol);
      if ok {
        volume := vol.value;
        broadcast := broadcast + [RadioUpdate(Radio())];
      }
    }

    /** Socket `control_change`: unlike the HTTP path, a missing or `null` state is
        accepted and stored as `None`; an unknown or missing control id is ignored. */
    method HandleControlChange(msg: ControlChange)
      requires Valid()
      modifies this
      ensures Valid()
      ensures msg.control.Given? && msg.control.value in old(controls) ==>
        && controls == old(controls)[msg.control.value := msg.state.Get()]
        && broadcast == old(broadcast) + [ControlUpdate(msg.control.value, msg.state.Get())]
      ensures !(msg.control.Given? && msg.control.value in old(controls)) ==>
        controls == old(controls) && broadcast == old(broadcast)
      ensures sensors == old(sensors) && faults == old(faults) && Radio() == old(Radio())
    {
      var name := msg.control.Get();
      var state := msg.state.Get();
      if name.Some? && name.value in controls {
        controls := controls[name.value := state];
        broadcast := broadcast + [ControlUpdate(name.value, state)];
      }
    }

    /** Socket `radio_change`: station, playing and volume are applied one after
        another, each on its own check, and each accepted field sends its own
        `radio_update` with the radio as it is at that moment. */
    method HandleRadioChange(msg: RadioChange)
      requires Valid()
      modifies this
      ensures Valid()
      ensures var r0 := old(Radio());
        var r1 := if StationAccepted(msg.station, |stations|) then r0.(currentStation := msg.station.value) else r0;
        var r2 := if !msg.playing.Missing? then r1.(isPlaying := msg.playing.Get()) else r1;
        var r3 := if VolumeAccepted(msg.volume) then r2.(volume := msg.volume.value) else r2;
        && Radio() == r3
        && broadcast == old(broadcast)
             + (if StationAccepted(msg.station, |stations|) then [RadioUpdate(r1)] else [])
             + (if !msg.playing.Missing? then [RadioUpdate(r2)] else [])
             + (if VolumeAccepted(msg.volume) then [RadioUpdate(r3)] else [])
      ensures sensors == old(sensors) && faults == old(faults) && controls == old(controls)
    {
      if StationAccepted(msg.station, |stations|) {
        currentStation := msg.station.value;
        broadcast := broadcast + [RadioUpdate(Radio())];
      }
      if !msg.playing.Missing? {
        isPlaying := msg.playing.Get();
        broadcast := broadcast + [RadioUpdate(Radio())];
      }
      if VolumeAccepted(msg.volume) {
        volume := msg.volume.value;
        broadcast := broadcast + [RadioUpdate(Radio())];
      }
    }

    /** Socket `connect`: the replay a new subscriber receives, before any live event:
        the snapshot, the fault list, one update per control in id order, then the radio. */
    method HandleConnect() returns (replay: seq<Event>)
      requires Valid()
      ensures |replay| == 3 + |CONTROL_IDS| == 3 + |controls|
      ensures replay[0] == SensorUpdate(sensors)
      ensures replay[1] == ErrorUpdate(faults)
      ensures forall i :: 0 <= i < |CONTROL_IDS| ==>
        CONTROL_IDS[i] in controls && replay[2 + i] == ControlUpdate(CONTROL_IDS[i], controls[CONTROL_IDS[i]])
      ensures replay[|replay| - 1] == RadioUpdate(Radio())
    {
      ControlsCoverIds(controls);
      replay := [SensorUpdate(sensors), ErrorUpdate(faults)];
      for i := 0 to |CONTROL_IDS|
        invariant |replay| == 2 + i
        invariant replay[0] == SensorUpdate(sensors) && replay[1] == ErrorUpdate(faults)
        invariant forall j :: 0 <= j < i ==> replay[2 + j] == ControlUpdate(CONTROL_IDS[j], controls[CONTROL_IDS[j]])
      {
        var name := CONTROL_IDS[i];
        replay := replay + [ControlUpdate(name, controls[name])];
      }
      replay := replay + [RadioUpdate(Radio())];
    }

    /** One sampling pass (`get_obd_data`): the channels are written one at a time;
        a pass over a live link depends on the queries only. */
    method ReadSensors(link: SensorLink)
      modifies this`sensors
      ensures link.Simulated? ==> sensors == link.simulated
      ensures link.Live? ==> sensors == Assemble(link.queries)
    {
      match link
      case Simulated(s) =>
        sensors := s;
      case Live(q) =>
        sensors := sensors.(rpm := IntReading(q.rpm));
        sensors := sensors.(speed := IntReading(q.speed));
        sensors := sensors.(motorLoad := IntReading(q.engineLoad));
        sensors := sensors.(motorTemp := IntReading(q.coolantTemp));
        sensors := sensors.(oilTemp := IntReading(q.oilTemp));
        sensors := sensors.(turboPressure := TurboPressure(q.intakePressure));
        sensors := sensors.(fuelConsumption := FuelConsumption(q.fuelLevel));
        sensors := sensors.(batteryVoltage := RealReading(q.moduleVoltage));
        sensors := sensors.(airFuelRatio := AirFuelRatio(q.airFuelRatio));
    }

    /** One iteration of the fast loop (`update_sensors`): sample, log the snapshot
        to the current hour's file, publish it, then publish its alerts. */
    method SensorTick(link: SensorLink, hour: int, stamp: Stamp)
      requires Valid()
      modifies this, logs
      ensures Valid()
      ensures link.Simulated? ==> sensors == link.simulated
      ensures link.Live? ==> sensors == Assemble(link.queries)
      ensures logs.State() == Logged(old(logs.State()), hour, LogEntry(stamp, sensors))
      ensures broadcast == old(broadcast) + [SensorUpdate(sensors)] + AlertEvents(AlertsFor(sensors))
      ensures faults == old(faults) && controls == old(controls) && Radio() == old(Radio())
    {
      ReadSensors(link);
      logs.LogSensorData(hour, stamp, sensors);
      broadcast := broadcast + [SensorUpdate(sensors)];
      if sensors.motorTemp > MAX_COOLANT_TEMP {
        broadcast := broadcast + [AlertEvent(Message(HighCoolantTemp(sensors.motorTemp)), HighCoolantTemp(sensors.motorTemp))];
      }
      if sensors.batteryVoltage < MIN_BATTERY_VOLTAGE {
        broadcast := broadcast + [AlertEvent(Message(LowBattery(sensors.batteryVoltage)), LowBattery(sensors.batteryVoltage))];
      }
    }

    /** One iteration of the slow loop (`update_errors`): the fault list is replaced
        wholesale and published. */
    method FaultTick(link: FaultLink, time: Stamp)
      requires Valid()
      modifies this
      ensures Valid()
      ensures broadcast == old(broadcast) + [ErrorUpdate(faults)]
      ensures link.Disconnected? ==> faults == Demo(time)
      ensures link == Connected(None) ==> faults == []
      ensures link.Connected? && link.response.Some? ==>
        |faults| == |link.response.value| &&
        forall i :: 0 <= i < |faults| ==>
          faults[i] == FaultCode(link.response.value[i], Describe(link.response.value[i]).title,
                                 Describe(link.response.value[i]).description, time)
      ensures sensors == old(sensors) && controls == old(controls) && Radio() == old(Radio())
    {
      faults := ReadFaults(link, time);
      broadcast := broadcast + [ErrorUpdate(faults)];
    }
  }
}
