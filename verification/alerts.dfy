/** The threshold checks run after every sampling pass in `update_sensors`. */
module Alerts {
  import opened Telemetry

  /** Coolant temperature above which a warning is sent. */
  const MAX_COOLANT_TEMP: int := 100
  /** Battery voltage below which a warning is sent. */
  const MIN_BATTERY_VOLTAGE: real := 12.0

  /** A warning, carrying the reading that triggered it. */
  datatype Alert = HighCoolantTemp(temp: int) | LowBattery(volts: real)

  /** The warning text shown for an alert; both alerts have type "warning". */
  function Message(a: Alert): (m: string)
    ensures a.HighCoolantTemp? <==> m == "Motor sıcaklığı kritik seviyede!"
    ensures a.LowBattery? ==> m == "Akü voltajı düşük!"
  {
    match a
    case HighCoolantTemp(_) => "Motor sıcaklığı kritik seviyede!"
    case LowBattery(_) => "Akü voltajı düşük!"
  }

  /** The alerts for one snapshot: the temperature warning first, then the voltage warning. */
  function AlertsFor(s: Snapshot): (r: seq<Alert>)
    ensures |r| == (if s.motorTemp > MAX_COOLANT_TEMP then 1 else 0)
                 + (if s.batteryVoltage < MIN_BATTERY_VOLTAGE then 1 else 0)
    ensures s.motorTemp > MAX_COOLANT_TEMP <==> (|r| > 0 && r[0] == HighCoolantTemp(s.motorTemp))
    ensures s.batteryVoltage < MIN_BATTERY_VOLTAGE <==> (|r| > 0 && r[|r| - 1] == LowBattery(s.batteryVoltage))
  {
    (if s.motorTemp > MAX_COOLANT_TEMP then [HighCoolantTemp(s.motorTemp)] else [])
    + (if s.batteryVoltage < MIN_BATTERY_VOLTAGE then [LowBattery(s.batteryVoltage)] else [])
  }

  /** Alerts are level-triggered: at 101 degrees with a healthy battery exactly one
      temperature warning is sent, at 99 degrees none. */
  lemma TemperatureThresholdExamples(s: Snapshot)
    requires s.batteryVoltage >= MIN_BATTERY_VOLTAGE
    ensures s.motorTemp == 101 ==> AlertsFor(s) == [HighCoolantTemp(101)]
    ensures s.motorTemp == 99 ==> AlertsFor(s) == []
  {
  }
}
