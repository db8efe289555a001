/** Properties of the TSL2591 calibration, the two quirks of the driver's
    constants, and the default-construction sampling scenario. */
module Tsl2591LuxProperties {
  import opened Results
  import opened Words
  import opened Bus
  import opened Tsl2591
  import opened Tsl2591Lux

  function SettingsCountsPerLux(d: Driver): real
    requires KnownSettings(d)
  {
    CountsPerLux(IntegrationMillis[d.integrationTime], GainMultiplier[d.gain])
  }

  /** Every table entry gives a positive divisor, from 100/408 (100 ms, low
      gain) to 600 * 9876 / 408 (600 ms, maximum gain). */
  lemma CountsPerLuxRange(d: Driver)
    requires KnownSettings(d)
    ensures 100.0 / 408.0 <= SettingsCountsPerLux(d) <= 600.0 * 9876.0 / 408.0
  {
    var atime := IntegrationMillis[d.integrationTime];
    var again := GainMultiplier[d.gain];
    assert 100 <= atime <= 600;
    assert 1 <= again <= 9876;
    assert 100 <= atime * again <= 600 * 9876 by {
      assert atime * again <= 600 * again;
      assert atime * again >= 100 * again;
    }
  }

  /** The settings only scale the result: the lux value times the divisor is
      the larger of the two numerators, which depend on the counts alone. */
  lemma LuxTimesCountsPerLux(d: Driver, full: int, ir: int)
    requires CalculateLux(d, full, ir).Ok?
    ensures CalculateLux(d, full, ir).value * SettingsCountsPerLux(d)
         == Max(full as real - 1.64 * ir as real, 0.59 * full as real - 0.86 * ir as real)
  {
    var cpl := SettingsCountsPerLux(d);
    assert CalculateLux(d, full, ir).value == Max(Lux1(full, ir, cpl), Lux2(full, ir, cpl));
    FormulasScale(full, ir, cpl);
  }

  lemma FormulasScale(full: int, ir: int, c: real)
    requires c > 0.0
    ensures Max(Lux1(full, ir, c), Lux2(full, ir, c)) * c
         == Max(full as real - 1.64 * ir as real, 0.59 * full as real - 0.86 * ir as real)
  {
    MaxScales(full as real - 1.64 * ir as real, 0.59 * full as real - 0.86 * ir as real, c);
  }

  lemma MaxScales(a: real, b: real, c: real)
    requires c > 0.0
    ensures Max(a / c, b / c) * c == Max(a, b)
  {
    DivisionKeepsOrder(a, b, c);
  }

  lemma DivisionKeepsOrder(a: real, b: real, c: real)
    requires c > 0.0
    ensures a / c >= b / c <==> a >= b
  {
    if a >= b {
      assert a / c - b / c == (a - b) / c;
    } else {
      assert b / c - a / c == (b - a) / c;
    }
  }

  /** Which formula wins depends only on the ratio of the counts: the first
      exactly when 41 * full >= 78 * ir (infrared at most about 52.6% of the
      full-spectrum count). */
  lemma WinningFormula(d: Driver, full: int, ir: int)
    requires CalculateLux(d, full, ir).Ok?
    ensures var cpl := SettingsCountsPerLux(d);
            CalculateLux(d, full, ir).value == Lux1(full, ir, cpl) <==> 41 * full >= 78 * ir
  {
    var cpl := SettingsCountsPerLux(d);
    var a := full as real - 1.64 * ir as real;
    var b := 0.59 * full as real - 0.86 * ir as real;
    DivisionKeepsOrder(a, b, cpl);
    DivisionKeepsOrder(b, a, cpl);
  }

  /** More full-spectrum light never lowers the reading; more infrared never
      raises it. */
  lemma LuxMonotone(d: Driver, full: int, ir: int, full': int, ir': int)
    requires CalculateLux(d, full, ir).Ok? && CalculateLux(d, full', ir').Ok?
    requires full <= full' && ir' <= ir
    ensures CalculateLux(d, full, ir).value <= CalculateLux(d, full', ir').value
  {
    var cpl := SettingsCountsPerLux(d);
    var a := full as real - 1.64 * ir as real;
    var a' := full' as real - 1.64 * ir' as real;
    var b := 0.59 * full as real - 0.86 * ir as real;
    var b' := 0.59 * full' as real - 0.86 * ir' as real;
    DivisionKeepsOrder(a', a, cpl);
    DivisionKeepsOrder(b', b, cpl);
  }

  /** Two drivers that accept the same counts report lux values in the inverse
      ratio of their divisors: raising the gain from low to medium divides the
      reading by 25. */
  lemma SettingsScaleLux(d: Driver, d': Driver, full: int, ir: int)
    requires CalculateLux(d, full, ir).Ok? && CalculateLux(d', full, ir).Ok?
    ensures CalculateLux(d, full, ir).value * SettingsCountsPerLux(d)
         == CalculateLux(d', full, ir).value * SettingsCountsPerLux(d')
  {
    LuxTimesCountsPerLux(d, full, ir);
    LuxTimesCountsPerLux(d', full, ir);
  }

  /** For a driver that keeps its invariant, saturation is decided by the
      integration time alone: 37888 counts at 100 ms, 65535 otherwise. */
  lemma SaturationCeiling(d: Driver, full: word, ir: word)
    requires Consistent(d) && KnownSettings(d)
    ensures CalculateLux(d, full, ir).Err? <==>
              if d.integrationTime == 0x00 then full >= 37888 || ir >= 37888
              else full == 65535 || ir == 65535
  {
  }

  /** At the default settings the ceiling itself saturates and one count below
      it does not. */
  lemma SaturationBoundary()
    ensures CalculateLux(Init(0x00, 0x00).drv, 37888, 0) == Err(Saturated)
    ensures CalculateLux(Init(0x00, 0x00).drv, 37887, 0).Ok?
    ensures CalculateLux(Init(0x00, 0x00).drv, 0, 37888) == Err(Saturated)
  {
  }

  /** 1000 full-spectrum and 100 infrared counts at 100 ms and low gain: the
      first formula gives 836 * 4.08 = 3410.88 lux, the second 504 * 4.08 =
      2056.32 lux, and the reading is the first. */
  lemma KnownValue()
    ensures CalculateLux(Init(0x00, 0x00).drv, 1000, 100) == Ok(3410.88)
  {
    var cpl := 100.0 / 408.0;
    assert Lux1(1000, 100, cpl) == 3410.88;
    assert Lux2(1000, 100, cpl) == 2056.32;
  }

  /** Default construction followed by one `sample` whose reads return 5000
      (0x1388) and 500 (0x01F4): seven construction writes, then enable, wait
      one second, both reads, disable, and the reading 17054.4 lux. */
  lemma DefaultSampleScenario()
    ensures var s := Init(0x00, 0x00);
            var r := Sample(s, [0x88, 0x13, 0x00, 0x00], [0xF4, 0x01, 0x00, 0x00]);
            && r.lux == CalculateLux(s.drv, 5000, 500)
            && r.lux == Ok(17054.4)
            && r.st.log == s.log + [ Write(0x29, 0xA0, 0x13), Wait(1.0)
                                   , Read(0x29, 0xB4), Read(0x29, 0xB6)
                                   , Write(0x29, 0xA0, 0x00) ]
  {
    var cpl := 100.0 / 408.0;
    assert Lux1(5000, 500, cpl) == 17054.4;
    assert Lux2(5000, 500, cpl) == 10281.6;
  }

  /** The integration-time and gain fields overlap, so the configuration byte
      does not determine the settings: 200 ms at low gain and 100 ms at medium
      gain write the same byte, and at 400 ms every gain writes 0x30. */
  lemma ConfigByteCollisions()
    ensures ConfigByte(INTEGRATION_TIME_200MS, GAIN_LOW) == ConfigByte(INTEGRATION_TIME_100MS, GAIN_MED) == 0x10
    ensures forall g: byte :: g in GainMultiplier ==> ConfigByte(INTEGRATION_TIME_400MS, g) == 0x30
  {
  }

  /** The settle delay grows by 1.92 s per 100 ms step of nominal integration
      time, because it is computed from the field value (16 per step); it is
      nevertheless never shorter than the nominal integration time. */
  lemma SettleDelayByStep(integrationTime: byte)
    requires integrationTime in IntegrationMillis
    ensures SettleDelay(integrationTime)
         == 1.0 + 1.92 * (IntegrationMillis[integrationTime] / 100 - 1) as real
    ensures SettleDelay(integrationTime) >= IntegrationMillis[integrationTime] as real / 1000.0
  {
  }
}
