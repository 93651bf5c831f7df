/** One sampling pass over the diagnostics channels (`get_obd_data`): each channel
    is queried on its own and replaced by a fixed fallback when the query gives no data. */
module Telemetry {
  import opened Base

  /** Stoichiometric air-fuel ratio, used when that channel is unavailable. */
  const STOICHIOMETRIC: real := 14.7

  /** The nine dashboard channels (`sensor_data`). The channels that the source
      passes through `int(...)` hold integers; the others hold reals. */
  datatype Snapshot = Snapshot(
    turboPressure: real,
    airFuelRatio: real,
    rpm: int,
    speed: int,
    fuelConsumption: real,
    motorLoad: int,
    motorTemp: int,
    oilTemp: int,
    batteryVoltage: real)

  /** The snapshot the process starts with. */
  const INITIAL: Snapshot := Snapshot(1.2, STOICHIOMETRIC, 0, 0, 0.0, 0, 0, 0, 0.0)

  /** The snapshot a pass produces when every query fails. */
  const FALLBACK: Snapshot := Snapshot(0.0, STOICHIOMETRIC, 0, 0, 0.0, 0, 0, 0, 0.0)

  /** Outcome of the air-fuel-ratio query, the only one whose failure is caught. */
  datatype AfrResult = AfrNull | AfrRaised | AfrReading(ratio: real)

  /** Raw magnitudes returned by one pass of queries (`None` for a null response). */
  datatype Queries = Queries(
    rpm: Option<real>,
    speed: Option<real>,
    engineLoad: Option<real>,
    coolantTemp: Option<real>,
    oilTemp: Option<real>,
    intakePressure: Option<real>,
    fuelLevel: Option<real>,
    moduleVoltage: Option<real>,
    airFuelRatio: AfrResult)

  /** Conversion of a real to an integer that truncates toward zero, as Python's `int`. */
  function Trunc(x: real): (n: int)
    ensures 0.0 <= x ==> n as real <= x < n as real + 1.0
    ensures x < 0.0 ==> n as real - 1.0 < x <= n as real
  {
    if 0.0 <= x then x.Floor else -((-x).Floor)
  }

  /** A channel stored as an integer: 0 on a null response. */
  function IntReading(q: Option<real>): (r: int)
    ensures q.None? ==> r == 0
    ensures q.Some? && 0.0 <= q.value ==> r as real <= q.value < r as real + 1.0
    ensures q.Some? && q.value < 0.0 ==> r as real - 1.0 < q.value <= r as real
  {
    match q
    case None => 0
    case Some(v) => Trunc(v)
  }

  /** A channel stored as a real: 0 on a null response. */
  function RealReading(q: Option<real>): (r: real)
    ensures q.None? ==> r == 0.0
    ensures q.Some? ==> r == q.value
  {
    match q
    case None => 0.0
    case Some(v) => v
  }

  /** Intake pressure in kPa shown as turbo pressure in bar. */
  function TurboPressure(q: Option<real>): (bar: real)
    ensures q.None? ==> bar == 0.0
    ensures q.Some? ==> bar * 100.0 == q.value
  {
    match q
    case None => 0.0
    case Some(kpa) => kpa / 100.0
  }

  /** Rough consumption estimate from the fuel level percentage; only a
      positive percentage is converted. */
  function FuelConsumption(q: Option<real>): (r: real)
    ensures r == 0.0 <==> (q.None? || q.value <= 0.0 || q.value == 100.0)
    ensures q.Some? && 0.0 < q.value <= 100.0 ==> 0.0 <= r < 10.0
    ensures q.Some? && q.value > 0.0 ==> q.value == 10.0 * (10.0 - r)
  {
    match q
    case None => 0.0
    case Some(percent) => if percent > 0.0 then 10.0 - percent / 10.0 else 0.0
  }

  /** The air-fuel ratio: the stoichiometric default on null or on a raised error. */
  function AirFuelRatio(a: AfrResult): (r: real)
    ensures !a.AfrReading? ==> r == STOICHIOMETRIC
    ensures a.AfrReading? ==> r == a.ratio
  {
    match a
    case AfrReading(v) => v
    case _ => STOICHIOMETRIC
  }

  /** The snapshot assembled from one pass of queries. */
  function Assemble(q: Queries): (s: Snapshot)
    ensures q.rpm.None? ==> s.rpm == 0
    ensures q.speed.None? ==> s.speed == 0
    ensures q.engineLoad.None? ==> s.motorLoad == 0
    ensures q.coolantTemp.None? ==> s.motorTemp == 0
    ensures q.oilTemp.None? ==> s.oilTemp == 0
    ensures q.intakePressure.None? ==> s.turboPressure == 0.0
    ensures q.moduleVoltage.None? ==> s.batteryVoltage == 0.0
    ensures s.fuelConsumption == 0.0 <==>
      (q.fuelLevel.None? || q.fuelLevel.value <= 0.0 || q.fuelLevel.value == 100.0)
    ensures !q.airFuelRatio.AfrReading? ==> s.airFuelRatio == STOICHIOMETRIC
    ensures q.rpm.Some? ==> s.rpm == Trunc(q.rpm.value)
    ensures q.speed.Some? ==> s.speed == Trunc(q.speed.value)
    ensures q.engineLoad.Some? ==> s.motorLoad == Trunc(q.engineLoad.value)
    ensures q.coolantTemp.Some? ==> s.motorTemp == Trunc(q.coolantTemp.value)
    ensures q.oilTemp.Some? ==> s.oilTemp == Trunc(q.oilTemp.value)
    ensures q.intakePressure.Some? ==> s.turboPressure * 100.0 == q.intakePressure.value
    ensures q.moduleVoltage.Some? ==> s.batteryVoltage == q.moduleVoltage.value
    ensures q.fuelLevel.Some? && q.fuelLevel.value > 0.0 ==> q.fuelLevel.value == 10.0 * (10.0 - s.fuelConsumption)
    ensures q.airFuelRatio.AfrReading? ==> s.airFuelRatio == q.airFuelRatio.ratio
  {
    Snapshot(
      TurboPressure(q.intakePressure),
      AirFuelRatio(q.airFuelRatio),
      IntReading(q.rpm),
      IntReading(q.speed),
      FuelConsumption(q.fuelLevel),
      IntReading(q.engineLoad),
      IntReading(q.coolantTemp),
      IntReading(q.oilTemp),
      RealReading(q.moduleVoltage))
  }

  /** With every query failing, the pass yields the all-fallback snapshot. */
  lemma AllFailedGivesFallback(q: Queries)
    requires q.rpm.None? && q.speed.None? && q.engineLoad.None? && q.coolantTemp.None?
    requires q.oilTemp.None? && q.intakePressure.None? && q.fuelLevel.None? && q.moduleVoltage.None?
    requires !q.airFuelRatio.AfrReading?
    ensures Assemble(q) == FALLBACK
  {
  }

  /** Each channel of the snapshot depends on its own query only: two passes that
      agree on one query agree on that channel, whatever the other queries gave. */
  lemma ChannelsIndependent(q1: Queries, q2: Queries)
    ensures q1.rpm == q2.rpm ==> Assemble(q1).rpm == Assemble(q2).rpm
    ensures q1.speed == q2.speed ==> Assemble(q1).speed == Assemble(q2).speed
    ensures q1.engineLoad == q2.engineLoad ==> Assemble(q1).motorLoad == Assemble(q2).motorLoad
    ensures q1.coolantTemp == q2.coolantTemp ==> Assemble(q1).motorTemp == Assemble(q2).motorTemp
    ensures q1.oilTemp == q2.oilTemp ==> Assemble(q1).oilTemp == Assemble(q2).oilTemp
    ensures q1.intakePressure == q2.intakePressure ==> Assemble(q1).turboPressure == Assemble(q2).turboPressure
    ensures q1.fuelLevel == q2.fuelLevel ==> Assemble(q1).fuelConsumption == Assemble(q2).fuelConsumption
    ensures q1.moduleVoltage == q2.moduleVoltage ==> Assemble(q1).batteryVoltage == Assemble(q2).batteryVoltage
    ensures q1.airFuelRatio == q2.airFuelRatio ==> Assemble(q1).airFuelRatio == Assemble(q2).airFuelRatio
  {
  }

  /** Worked conversions: 55 % fuel gives 4.5, an empty tank gives 0, and
      202 kPa gives 2.02 bar (before the rounding, which is not modelled). */
  lemma ConversionExamples()
    ensures FuelConsumption(Some(55.0)) == 4.5
    ensures FuelConsumption(Some(0.0)) == 0.0
    ensures TurboPressure(Some(202.0)) == 2.02
  {
  }
}
