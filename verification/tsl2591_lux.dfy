/** The TSL2591 calibration: raw channel counts to lux, and `sample`, which
    runs one sampling cycle and calibrates its result. Python floats are
    modelled as exact reals. */
module Tsl2591Lux {
  import opened Results
  import opened Words
  import opened Bus
  import opened Tsl2591

  const DEVICE_FACTOR: real := 408.0
  const LUX_COEFFICIENT_B: real := 1.64
  const LUX_COEFFICIENT_C: real := 0.59
  const LUX_COEFFICIENT_D: real := 0.86

  /** Nominal milliseconds per integration-time field value. */
  const IntegrationMillis: map<int, int> :=
    map[ INTEGRATION_TIME_100MS := 100, INTEGRATION_TIME_200MS := 200
       , INTEGRATION_TIME_300MS := 300, INTEGRATION_TIME_400MS := 400
       , INTEGRATION_TIME_500MS := 500, INTEGRATION_TIME_600MS := 600 ]

  /** Analog gain multiplier per gain field value. */
  const GainMultiplier: map<int, int> :=
    map[GAIN_LOW := 1, GAIN_MED := 25, GAIN_HIGH := 428, GAIN_MAX := 9876]

  /** The ways `calculate_lux` raises: a setting missing from a table
      (KeyError) or a saturated channel (RuntimeError). */
  datatype LuxError = UnknownIntegrationTime(key: int) | UnknownGain(key: int) | Saturated

  /** Both settings are keys of the lookup tables. */
  predicate KnownSettings(d: Driver)
  {
    d.integrationTime in IntegrationMillis && d.gain in GainMultiplier
  }

  function CountsPerLux(atime: int, again: int): real
  {
    (atime * again) as real / DEVICE_FACTOR
  }

  /** The first linear formula: full spectrum less 1.64 times infrared. */
  function Lux1(full: int, ir: int, cpl: real): real
    requires cpl != 0.0
  {
    (full as real - LUX_COEFFICIENT_B * ir as real) / cpl
  }

  /** The second linear formula: 0.59 times full spectrum less 0.86 times infrared. */
  function Lux2(full: int, ir: int, cpl: real): real
    requires cpl != 0.0
  {
    (LUX_COEFFICIENT_C * full as real - LUX_COEFFICIENT_D * ir as real) / cpl
  }

  function Max(a: real, b: real): real
  {
    if a >= b then a else b
  }

  /** `calculate_lux`: look the settings up (integration time first), reject a
      saturated channel, and return the larger of the two formulas. */
  function CalculateLux(d: Driver, full: int, ir: int): (r: Result<real, LuxError>)
    ensures d.integrationTime !in IntegrationMillis ==>
              r == Err(UnknownIntegrationTime(d.integrationTime))
    ensures d.integrationTime in IntegrationMillis && d.gain !in GainMultiplier ==>
              r == Err(UnknownGain(d.gain))
    ensures KnownSettings(d) ==>
              (r == Err(Saturated) <==> full >= d.maxcount || ir >= d.maxcount)
    ensures KnownSettings(d) ==>
              (r.Err? <==> full >= d.maxcount || ir >= d.maxcount)
    ensures r.Ok? ==> KnownSettings(d) && full < d.maxcount && ir < d.maxcount
    ensures r.Ok? ==>
              var cpl := CountsPerLux(IntegrationMillis[d.integrationTime], GainMultiplier[d.gain]);
              && cpl > 0.0
              && r.value >= Lux1(full, ir, cpl) && r.value >= Lux2(full, ir, cpl)
              && (r.value == Lux1(full, ir, cpl) || r.value == Lux2(full, ir, cpl))
  {
    if d.integrationTime !in IntegrationMillis then Err(UnknownIntegrationTime(d.integrationTime))
    else if d.gain !in GainMultiplier then Err(UnknownGain(d.gain))
    else
      var atime := IntegrationMillis[d.integrationTime];
      var again := GainMultiplier[d.gain];
      if full >= d.maxcount || ir >= d.maxcount then Err(Saturated)
      else
        var cpl := CountsPerLux(atime, again);
        Ok(Max(Lux1(full, ir, cpl), Lux2(full, ir, cpl)))
  }

  datatype Sampled = Sampled(st: State, lux: Result<real, LuxError>)

  /** `sample`: one `get_luminosity` cycle, then `calculate_lux` on its counts
      with the driver's settings. The bus log is extended even when the
      calibration fails. */
  function Sample(s: State, ch0: Reply, ch1: Reply): (r: Sampled)
    ensures r.st.drv == s.drv
    ensures r.st == GetLuminosity(s, ch0, ch1).st
    ensures r.lux == CalculateLux(s.drv, LittleEndianWord(ch0), LittleEndianWord(ch1))
  {
    var lum := GetLuminosity(s, ch0, ch1);
    Sampled(lum.st, CalculateLux(s.drv, lum.full, lum.ir))
  }
}
