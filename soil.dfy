/**
 * The soil-moisture probe: a raw ADC sample (any u16 value) is
 * rejected when the probe is not connected, clamped between the
 * dry and wet calibration points, mapped linearly onto 0-100 %, and the
 * percentage is bucketed into a soil status.
 */
module Soil {
  import opened Wrappers
  import opened Bands

  /** Rust's `u16`: arithmetic that leaves this range is an overflow. */
  newtype u16 = x: int | 0 <= x < 0x1_0000

  /** ADC reading of a probe in water. */
  const MAX_WET: u16 := 2800
  /** ADC reading of a probe in dry air. */
  const MAX_DRY: u16 := 1300
  /** Computed in u16, so Dafny checks that it does not underflow. */
  const MOISTURE_RANGE: u16 := MAX_WET - MAX_DRY
  const FULL_PERCENTAGE: real := 100.0
  const NO_PERCENTAGE: real := 0.0
  /** Below this the ADC sees only noise: no probe is attached. */
  const NOT_CONNECTED_BELOW: u16 := 1000

  datatype SoilStatus = Dry | Optimal | Damp | Wet {
    /** Position in the order from driest to wettest. */
    function Rank(): nat {
      match this
      case Dry => 0
      case Optimal => 1
      case Damp => 2
      case Wet => 3
    }
  }

  datatype MoistureError = SensorNotConnected | EspError

  /** Lower edges of the Optimal, Damp and Wet bands, in percent. */
  const SOIL_THRESHOLDS: seq<real> := [20.0, 40.0, 55.0]

  /**
   * The moisture percentage for one raw sample. `raw - MAX_DRY` is a u16
   * subtraction: the guard before it is what keeps it from underflowing.
   */
  function MoisturePercentage(raw: u16): (r: Result<real, MoistureError>)
    ensures r.Err? <==> raw < NOT_CONNECTED_BELOW
    ensures r.Err? ==> r.error == SensorNotConnected
    ensures r.Ok? ==> NO_PERCENTAGE <= r.value <= FULL_PERCENTAGE
  {
    if raw < NOT_CONNECTED_BELOW then Err(SensorNotConnected)
    else if raw < MAX_DRY then Ok(NO_PERCENTAGE)
    else if raw > MAX_WET then Ok(FULL_PERCENTAGE)
    else
      var valueDiff := raw - MAX_DRY;
      Ok((valueDiff as real / MOISTURE_RANGE as real) * FULL_PERCENTAGE)
  }

  /** The soil status for a percentage: the number of band thresholds it has reached. */
  function SoilStatusOf(p: real): (s: SoilStatus)
    ensures s.Rank() == Reached(SOIL_THRESHOLDS, p)
  {
    ReachedIsBand(SOIL_THRESHOLDS, p);
    if p < 20.0 then Dry
    else if p < 40.0 then Optimal
    else if p < 55.0 then Damp
    else Wet
  }

  /** The soil status for one raw sample; no status when the percentage is an error. */
  function ReadSoilStatus(raw: u16): (s: Option<SoilStatus>)
    ensures s.None? <==> MoisturePercentage(raw).Err?
    ensures s.None? <==> raw < NOT_CONNECTED_BELOW
    ensures s.Some? ==> s.value.Rank() == Reached(SOIL_THRESHOLDS, MoisturePercentage(raw).value)
  {
    match MoisturePercentage(raw)
    case Err(_) => None
    case Ok(p) => Some(SoilStatusOf(p))
  }

  /** The calibration span is 1500 counts. */
  lemma MoistureRangeValue()
    ensures MOISTURE_RANGE == 1500
  {
  }

  /** A connected probe reading drier than the dry calibration point gives exactly 0 %. */
  lemma BelowDryIsZero(raw: u16)
    requires NOT_CONNECTED_BELOW <= raw < MAX_DRY
    ensures MoisturePercentage(raw) == Ok(NO_PERCENTAGE)
  {
  }

  /** A reading wetter than the wet calibration point gives exactly 100 %. */
  lemma AboveWetIsFull(raw: u16)
    requires raw > MAX_WET
    ensures MoisturePercentage(raw) == Ok(FULL_PERCENTAGE)
  {
  }

  /** Between the calibration points every count is one fifteenth of a percent. */
  lemma LinearSpan(raw: u16)
    requires MAX_DRY <= raw <= MAX_WET
    ensures MoisturePercentage(raw) == Ok((raw as real - 1300.0) / 15.0)
  {
    assert (raw - MAX_DRY) as real == raw as real - 1300.0;
  }

  /** Inverse of the linear map: the percentage gives back the raw sample it came from. */
  lemma PercentageRoundTrip(raw: u16)
    requires MAX_DRY <= raw <= MAX_WET
    ensures MAX_DRY as real + MoisturePercentage(raw).value * MOISTURE_RANGE as real / FULL_PERCENTAGE == raw as real
  {
  }

  /** A wetter raw sample never gives a lower percentage. */
  lemma PercentageMonotone(a: u16, b: u16)
    requires NOT_CONNECTED_BELOW <= a <= b
    ensures MoisturePercentage(a).value <= MoisturePercentage(b).value
  {
  }

  /** Calibration points and midpoint: 1300 is 0 %, 2050 is 50 %, 2800 is 100 %. */
  lemma PercentageExamples()
    ensures MoisturePercentage(1300) == Ok(0.0)
    ensures MoisturePercentage(2050) == Ok(50.0)
    ensures MoisturePercentage(2800) == Ok(100.0)
  {
  }

  /** The status bands, half-open on the right: a percentage on a boundary takes the higher band. */
  lemma SoilBands(p: real)
    ensures SoilStatusOf(p) == Dry <==> p < 20.0
    ensures SoilStatusOf(p) == Optimal <==> 20.0 <= p < 40.0
    ensures SoilStatusOf(p) == Damp <==> 40.0 <= p < 55.0
    ensures SoilStatusOf(p) == Wet <==> 55.0 <= p
  {
  }

  /** A larger percentage never gives a drier status. */
  lemma SoilStatusMonotone(p: real, q: real)
    requires p <= q
    ensures SoilStatusOf(p).Rank() <= SoilStatusOf(q).Rank()
  {
    ReachedMonotone(SOIL_THRESHOLDS, p, q);
  }

  /**
   * The status in terms of the raw sample: the band edges 20 %, 40 % and
   * 55 % fall on the samples 1600, 1900 and 2125.
   */
  lemma SoilStatusByRaw(raw: u16)
    ensures ReadSoilStatus(raw) ==
      if raw < 1000 then None
      else if raw < 1600 then Some(Dry)
      else if raw < 1900 then Some(Optimal)
      else if raw < 2125 then Some(Damp)
      else Some(Wet)
  {
  }

  /** A wetter raw sample from a connected probe never gives a drier status. */
  lemma ReadSoilStatusMonotone(a: u16, b: u16)
    requires NOT_CONNECTED_BELOW <= a <= b
    ensures ReadSoilStatus(a).Some? && ReadSoilStatus(b).Some?
    ensures ReadSoilStatus(a).value.Rank() <= ReadSoilStatus(b).value.Rank()
  {
    PercentageMonotone(a, b);
    SoilStatusMonotone(MoisturePercentage(a).value, MoisturePercentage(b).value);
  }

  /** An unplugged probe (raw 500) reports no percentage and no status, not 0 %. */
  lemma ScenarioNotConnected()
    ensures MoisturePercentage(500) == Err(SensorNotConnected)
    ensures MoisturePercentage(500) != Ok(NO_PERCENTAGE)
    ensures ReadSoilStatus(500) == None
  {
  }

  /** The midpoint sample 2050 is 50 %, which is Damp. */
  lemma ScenarioMidpoint()
    ensures MoisturePercentage(2050) == Ok(50.0)
    ensures ReadSoilStatus(2050) == Some(Damp)
  {
  }
}
