/** What the TSL2591 driver's operations leave in the device's registers, the
    ceiling invariant over any sequence of operations, and what a configuration
    write that raises leaves behind. */
module Tsl2591Properties {
  import opened Results
  import opened Bits
  import opened Words
  import opened Bus
  import opened Tsl2591
  import opened Tsl2591Lux

  lemma CommandBytes()
    ensures Command(REG_ENABLE) == 0xA0 && Command(REG_CONFIG) == 0xA1
  {
  }

  /** The value held by the enable register after the log, if it was written. */
  function EnableRegister(log: Log): Option<byte>
  {
    LastWrite(log, ADDRESS, Command(REG_ENABLE))
  }

  /** The value held by the configuration register after the log, if it was written. */
  function ConfigRegister(log: Log): Option<byte>
  {
    LastWrite(log, ADDRESS, Command(REG_CONFIG))
  }

  /** After `set_integration_time` the device is powered off and configured with
      the new time and the unchanged gain, whatever its state before. */
  lemma SetIntegrationTimeRegisters(s: State, integrationTime: byte)
    ensures EnableRegister(SetIntegrationTime(s, integrationTime).log) == Some(0x00)
    ensures ConfigRegister(SetIntegrationTime(s, integrationTime).log)
         == Some(OrByte(integrationTime, s.drv.gain))
  {
    var suffix := [ Write(0x29, 0xA0, 0x13)
                  , Write(0x29, 0xA1, OrByte(integrationTime, s.drv.gain))
                  , Write(0x29, 0xA0, 0x00) ];
    LastWriteAppend(s.log, suffix, 0x29, 0xA0);
    LastWriteAppend(s.log, suffix, 0x29, 0xA1);
  }

  /** After `set_gain` the device is powered off and configured with the
      unchanged time and the new gain. */
  lemma SetGainRegisters(s: State, gain: byte)
    ensures EnableRegister(SetGain(s, gain).log) == Some(0x00)
    ensures ConfigRegister(SetGain(s, gain).log) == Some(OrByte(s.drv.integrationTime, gain))
  {
    var suffix := [ Write(0x29, 0xA0, 0x13)
                  , Write(0x29, 0xA1, OrByte(s.drv.integrationTime, gain))
                  , Write(0x29, 0xA0, 0x00) ];
    LastWriteAppend(s.log, suffix, 0x29, 0xA0);
    LastWriteAppend(s.log, suffix, 0x29, 0xA1);
  }

  /** A freshly constructed driver has left the device powered off and
      configured with both requested settings. */
  lemma InitRegisters(integrationTime: byte, gain: byte)
    ensures EnableRegister(Init(integrationTime, gain).log) == Some(0x00)
    ensures ConfigRegister(Init(integrationTime, gain).log) == Some(OrByte(integrationTime, gain))
  {
    var log := Init(integrationTime, gain).log;
    var d := Driver(integrationTime, gain, MaxCountFor(integrationTime));
    var s1 := SetIntegrationTime(State(d, []), integrationTime);
    var s2 := SetGain(s1, gain);
    CommandBytes();
    SetGainRegisters(s1, gain);
    LastWriteOfWrite(s2.log, 0x29, 0xA0, 0x00);
    LastWriteOfOther(s2.log, Write(0x29, 0xA0, 0x00), 0x29, 0xA1);
  }

  /** Both channel reads of `get_luminosity` happen while the device is powered
      on and after the settle wait; afterwards it is powered off and its
      configuration is untouched. */
  lemma GetLuminosityRegisters(s: State, ch0: Reply, ch1: Reply)
    ensures var log := GetLuminosity(s, ch0, ch1).st.log;
            && log[|s.log| + 1].Wait?
            && log[|s.log| + 2] == Read(0x29, 0xB4) && EnableRegister(log[..|s.log| + 2]) == Some(0x13)
            && log[|s.log| + 3] == Read(0x29, 0xB6) && EnableRegister(log[..|s.log| + 3]) == Some(0x13)
            && EnableRegister(log) == Some(0x00)
            && ConfigRegister(log) == ConfigRegister(s.log)
  {
    CommandBytes();
    var log := GetLuminosity(s, ch0, ch1).st.log;
    var on := s.log + [Write(0x29, 0xA0, 0x13)];
    var waited := on + [Wait(SettleDelay(s.drv.integrationTime))];
    var read0 := waited + [Read(0x29, 0xB4)];
    var read1 := read0 + [Read(0x29, 0xB6)];
    assert log == read1 + [Write(0x29, 0xA0, 0x00)];
    assert log[..|s.log| + 2] == waited;
    assert log[..|s.log| + 3] == read0;
    LastWriteOfWrite(s.log, 0x29, 0xA0, 0x13);
    LastWriteOfOther(on, Wait(SettleDelay(s.drv.integrationTime)), 0x29, 0xA0);
    LastWriteOfOther(waited, Read(0x29, 0xB4), 0x29, 0xA0);
    LastWriteOfWrite(read1, 0x29, 0xA0, 0x00);
    LastWriteOfOther(s.log, Write(0x29, 0xA0, 0x13), 0x29, 0xA1);
    LastWriteOfOther(on, Wait(SettleDelay(s.drv.integrationTime)), 0x29, 0xA1);
    LastWriteOfOther(waited, Read(0x29, 0xB4), 0x29, 0xA1);
    LastWriteOfOther(read0, Read(0x29, 0xB6), 0x29, 0xA1);
    LastWriteOfOther(read1, Write(0x29, 0xA0, 0x00), 0x29, 0xA1);
  }

  /** A public driver call, with the device replies a sampling call consumes. */
  datatype Op =
    | EnableOp
    | DisableOp
    | SetIntegrationTimeOp(integrationTime: byte)
    | SetGainOp(gain: byte)
    | GetLuminosityOp(ch0: Reply, ch1: Reply)
    | SampleOp(ch0: Reply, ch1: Reply)

  function Apply(s: State, op: Op): State
  {
    match op
    case EnableOp => Enable(s)
    case DisableOp => Disable(s)
    case SetIntegrationTimeOp(t) => SetIntegrationTime(s, t)
    case SetGainOp(g) => SetGain(s, g)
    case GetLuminosityOp(ch0, ch1) => GetLuminosity(s, ch0, ch1).st
    case SampleOp(ch0, ch1) => Sample(s, ch0, ch1).st
  }

  /** The calls in `ops`, in order. */
  function Run(s: State, ops: seq<Op>): State
    decreases |ops|
  {
    if |ops| == 0 then s else Apply(Run(s, ops[..|ops| - 1]), ops[|ops| - 1])
  }

  /** The ceiling invariant holds after construction and after every sequence
      of driver calls; the log only grows. */
  lemma {:induction false} RunKeepsCeiling(integrationTime: byte, gain: byte, ops: seq<Op>)
    ensures Consistent(Run(Init(integrationTime, gain), ops).drv)
    ensures Run(Init(integrationTime, gain), ops).drv.maxcount == 37888
        <==> Run(Init(integrationTime, gain), ops).drv.integrationTime == 0x00
    ensures Init(integrationTime, gain).log <= Run(Init(integrationTime, gain), ops).log
    decreases |ops|
  {
    if |ops| > 0 {
      RunKeepsCeiling(integrationTime, gain, ops[..|ops| - 1]);
    }
  }

  /** Every call except `enable` leaves the device powered off. */
  lemma RunEndsPoweredOff(s: State, ops: seq<Op>)
    requires |ops| > 0 && !ops[|ops| - 1].EnableOp?
    ensures EnableRegister(Run(s, ops).log) == Some(0x00)
  {
    CommandBytes();
    var before := Run(s, ops[..|ops| - 1]);
    assert Run(s, ops) == Apply(before, ops[|ops| - 1]);
    match ops[|ops| - 1]
    case DisableOp =>
      LastWriteOfWrite(before.log, 0x29, 0xA0, 0x00);
    case SetIntegrationTimeOp(t) => SetIntegrationTimeRegisters(before, t);
    case SetGainOp(g) => SetGainRegisters(before, g);
    case GetLuminosityOp(ch0, ch1) => GetLuminosityRegisters(before, ch0, ch1);
    case SampleOp(ch0, ch1) => GetLuminosityRegisters(before, ch0, ch1);
  }

  /** Settings taken from the tables stay in the tables, so the lookups of
      `calculate_lux` never fail after such calls. */
  lemma {:induction false} RunKeepsKnownSettings(integrationTime: byte, gain: byte, ops: seq<Op>)
    requires integrationTime in IntegrationMillis && gain in GainMultiplier
    requires forall i :: 0 <= i < |ops| && ops[i].SetIntegrationTimeOp? ==> ops[i].integrationTime in IntegrationMillis
    requires forall i :: 0 <= i < |ops| && ops[i].SetGainOp? ==> ops[i].gain in GainMultiplier
    ensures KnownSettings(Run(Init(integrationTime, gain), ops).drv)
    decreases |ops|
  {
    if |ops| > 0 {
      RunKeepsKnownSettings(integrationTime, gain, ops[..|ops| - 1]);
    }
  }

  /** A configuration write that raises inside `set_integration_time` leaves
      the new time with the old ceiling and the device powered on. From the
      default driver, a 200 ms setting then keeps the 100 ms ceiling, so a
      40000-count reading that a consistent 200 ms driver accepts is reported
      as saturated. */
  lemma FailedSetIntegrationTimeLeavesStaleCeiling()
    ensures var d := SetIntegrationTimeWriteFails(Init(0x00, 0x00), 0x10).drv;
            && d.integrationTime == 0x10 && d.maxcount == 37888
            && !Consistent(d)
            && CalculateLux(d, 40000, 0) == Err(Saturated)
            && CalculateLux(d.(maxcount := MaxCountFor(0x10)), 40000, 0).Ok?
    ensures EnableRegister(SetIntegrationTimeWriteFails(Init(0x00, 0x00), 0x10).log) == Some(0x13)
  {
    CommandBytes();
    LastWriteOfWrite(Init(0x00, 0x00).log, 0x29, 0xA0, 0x13);
  }

  /** A configuration write that raises inside `set_gain` leaves the driver
      holding a gain the device never received: the configuration register
      still holds the old pair, which differs from the driver's new pair
      whenever the two pairs give different bytes (at 400 ms and 600 ms the
      overlapping fields can make them equal). */
  lemma FailedSetGainLeavesStaleRegister(s: State, gain: byte)
    requires ConfigRegister(s.log) == Some(OrByte(s.drv.integrationTime, s.drv.gain))
    requires OrByte(s.drv.integrationTime, gain) != OrByte(s.drv.integrationTime, s.drv.gain)
    ensures SetGainWriteFails(s, gain).drv.gain == gain
    ensures ConfigRegister(SetGainWriteFails(s, gain).log)
         == Some(OrByte(s.drv.integrationTime, s.drv.gain))
    ensures var r := SetGainWriteFails(s, gain);
            ConfigRegister(r.log) != Some(OrByte(r.drv.integrationTime, r.drv.gain))
  {
    CommandBytes();
    LastWriteOfOther(s.log, Write(0x29, 0xA0, 0x13), 0x29, 0xA1);
  }
}
