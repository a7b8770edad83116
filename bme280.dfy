/**
 * Status classification of the BME280 ambient sensor. Each classifier
 * takes the driver's answer for one quantity — an error, no value, or a
 * value — and turns a present value into a status band.
 */
module Bme280 {
  import opened Wrappers
  import opened Bands

  /** An error reported by the sensor driver over I2C; its details do not matter here. */
  datatype DriverError = BusError

  /** What the driver returns for one quantity. */
  type Reading = Result<Option<real>, DriverError>

  datatype TempStatus = Freezing | Cold | Optimal | Hot {
    function Rank(): nat {
      match this
      case Freezing => 0
      case Cold => 1
      case Optimal => 2
      case Hot => 3
    }
  }

  datatype HumidityStatus = Dry | Optimal | Moist | Wet {
    function Rank(): nat {
      match this
      case Dry => 0
      case Optimal => 1
      case Moist => 2
      case Wet => 3
    }
  }

  datatype PressureStatus = Low | Optimal | High {
    function Rank(): nat {
      match this
      case Low => 0
      case Optimal => 1
      case High => 2
    }
  }

  /** Lower edges of the Cold, Optimal and Hot bands, in degrees Celsius. */
  const TEMP_THRESHOLDS: seq<real> := [0.0, 18.0, 25.0]
  /** Lower edges of the Optimal, Moist and Wet bands, in percent relative humidity. */
  const HUMIDITY_THRESHOLDS: seq<real> := [30.0, 50.0, 70.0]
  /** Lower edges of the Optimal and High bands, in the driver's pressure unit. */
  const PRESSURE_THRESHOLDS: seq<real> := [1000.0, 1013.0]

  /** The present value of a reading, if the driver succeeded and had one. */
  function Present(read: Reading): (v: Option<real>)
    ensures v.Some? <==> read.Ok? && read.value.Some?
    ensures v.Some? ==> v.value == read.value.value
  {
    match read
    case Err(_) => None
    case Ok(o) => o
  }

  function TempStatusOf(t: real): (s: TempStatus)
    ensures s.Rank() == Reached(TEMP_THRESHOLDS, t)
  {
    ReachedIsBand(TEMP_THRESHOLDS, t);
    if t < 0.0 then Freezing
    else if t < 18.0 then Cold
    else if t < 25.0 then TempStatus.Optimal
    else Hot
  }

  function HumidityStatusOf(h: real): (s: HumidityStatus)
    ensures s.Rank() == Reached(HUMIDITY_THRESHOLDS, h)
  {
    ReachedIsBand(HUMIDITY_THRESHOLDS, h);
    if h < 30.0 then Dry
    else if h < 50.0 then HumidityStatus.Optimal
    else if h < 70.0 then Moist
    else Wet
  }

  function PressureStatusOf(p: real): (s: PressureStatus)
    ensures s.Rank() == Reached(PRESSURE_THRESHOLDS, p)
  {
    ReachedIsBand(PRESSURE_THRESHOLDS, p);
    if p < 1000.0 then Low
    else if p < 1013.0 then PressureStatus.Optimal
    else High
  }

  /** A driver error or a missing value gives no status; a value gives its band. */
  function ReadTemperatureStatus(read: Reading): (s: Option<TempStatus>)
    ensures s.None? <==> read.Err? || read.value.None?
    ensures s.Some? ==> s.value.Rank() == Reached(TEMP_THRESHOLDS, read.value.value)
  {
    match Present(read)
    case None => None
    case Some(t) => Some(TempStatusOf(t))
  }

  function ReadHumidityStatus(read: Reading): (s: Option<HumidityStatus>)
    ensures s.None? <==> read.Err? || read.value.None?
    ensures s.Some? ==> s.value.Rank() == Reached(HUMIDITY_THRESHOLDS, read.value.value)
  {
    match Present(read)
    case None => None
    case Some(h) => Some(HumidityStatusOf(h))
  }

  function ReadPressureStatus(read: Reading): (s: Option<PressureStatus>)
    ensures s.None? <==> read.Err? || read.value.None?
    ensures s.Some? ==> s.value.Rank() == Reached(PRESSURE_THRESHOLDS, read.value.value)
  {
    match Present(read)
    case None => None
    case Some(p) => Some(PressureStatusOf(p))
  }

  /** Temperature bands, half-open on the right: 0, 18 and 25 belong to the higher band. */
  lemma TemperatureBands(t: real)
    ensures TempStatusOf(t) == Freezing <==> t < 0.0
    ensures TempStatusOf(t) == Cold <==> 0.0 <= t < 18.0
    ensures TempStatusOf(t) == TempStatus.Optimal <==> 18.0 <= t < 25.0
    ensures TempStatusOf(t) == Hot <==> 25.0 <= t
  {
  }

  /** Humidity bands, half-open on the right: 30, 50 and 70 belong to the higher band. */
  lemma HumidityBands(h: real)
    ensures HumidityStatusOf(h) == Dry <==> h < 30.0
    ensures HumidityStatusOf(h) == HumidityStatus.Optimal <==> 30.0 <= h < 50.0
    ensures HumidityStatusOf(h) == Moist <==> 50.0 <= h < 70.0
    ensures HumidityStatusOf(h) == Wet <==> 70.0 <= h
  {
  }

  /** Pressure bands, half-open on the right: 1000 and 1013 belong to the higher band. */
  lemma PressureBands(p: real)
    ensures PressureStatusOf(p) == Low <==> p < 1000.0
    ensures PressureStatusOf(p) == PressureStatus.Optimal <==> 1000.0 <= p < 1013.0
    ensures PressureStatusOf(p) == High <==> 1013.0 <= p
  {
  }

  /** A warmer reading never gives a colder status. */
  lemma TemperatureMonotone(a: real, b: real)
    requires a <= b
    ensures TempStatusOf(a).Rank() <= TempStatusOf(b).Rank()
  {
    ReachedMonotone(TEMP_THRESHOLDS, a, b);
  }

  /** A more humid reading never gives a drier status. */
  lemma HumidityMonotone(a: real, b: real)
    requires a <= b
    ensures HumidityStatusOf(a).Rank() <= HumidityStatusOf(b).Rank()
  {
    ReachedMonotone(HUMIDITY_THRESHOLDS, a, b);
  }

  /** A higher pressure never gives a lower status. */
  lemma PressureMonotone(a: real, b: real)
    requires a <= b
    ensures PressureStatusOf(a).Rank() <= PressureStatusOf(b).Rank()
  {
    ReachedMonotone(PRESSURE_THRESHOLDS, a, b);
  }

  /** A driver error and an absent value both give no status, for all three quantities. */
  lemma FailedReadsGiveNothing(e: DriverError)
    ensures ReadTemperatureStatus(Err(e)) == None && ReadTemperatureStatus(Ok(None)) == None
    ensures ReadHumidityStatus(Err(e)) == None && ReadHumidityStatus(Ok(None)) == None
    ensures ReadPressureStatus(Err(e)) == None && ReadPressureStatus(Ok(None)) == None
  {
  }

  /** A humidity of 65 % is Moist. */
  lemma ScenarioHumidity()
    ensures ReadHumidityStatus(Ok(Some(65.0))) == Some(Moist)
  {
  }
}
