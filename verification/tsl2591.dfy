/** The TSL2591 light-sensor driver: its register map, its settings and the
    sequence of bus transfers each driver operation performs. The driver object
    is an immutable record; each operation maps (driver, bus log) to a new
    driver and a longer log. */
module Tsl2591 {
  import opened Bits
  import opened Words
  import opened Bus

  const ADDRESS := 0x29
  /** Command bit pattern every register access carries. */
  const COMMAND: byte := 0xA0

  const REG_ENABLE: byte := 0x00
  const REG_CONFIG: byte := 0x01
  /** Channel 0 (full spectrum) and channel 1 (infrared) low data bytes. */
  const REG_C0DATAL: byte := 0x14
  const REG_C1DATAL: byte := 0x16

  const ENABLE_POWEROFF: byte := 0x00
  const ENABLE_POWERON: byte := 0x01
  const ENABLE_AEN: byte := 0x02
  const ENABLE_AIEN: byte := 0x10

  /** Integration-time field values, as the driver defines them. */
  const INTEGRATION_TIME_100MS: byte := 0x00
  const INTEGRATION_TIME_200MS: byte := 0x10
  const INTEGRATION_TIME_300MS: byte := 0x20
  const INTEGRATION_TIME_400MS: byte := 0x30
  const INTEGRATION_TIME_500MS: byte := 0x40
  const INTEGRATION_TIME_600MS: byte := 0x50

  const MAX_COUNT_100MS := 37888
  const MAX_COUNT := 65535

  /** Gain field values; they share bits 4 and 5 with the integration times. */
  const GAIN_LOW: byte := 0x00
  const GAIN_MED: byte := 0x10
  const GAIN_HIGH: byte := 0x20
  const GAIN_MAX: byte := 0x30

  /** The driver's fields: the two settings and the saturation ceiling derived
      from the integration time. */
  datatype Driver = Driver(integrationTime: byte, gain: byte, maxcount: int)

  /** A driver together with every bus transfer performed so far. */
  datatype State = State(drv: Driver, log: Log)

  /** The ceiling rule the constructor and `set_integration_time` apply. */
  function MaxCountFor(integrationTime: byte): int
  {
    if integrationTime == INTEGRATION_TIME_100MS then MAX_COUNT_100MS else MAX_COUNT
  }

  /** The driver invariant: the stored ceiling belongs to the stored integration time. */
  predicate Consistent(d: Driver)
  {
    d.maxcount == MaxCountFor(d.integrationTime)
  }

  /** `COMMAND | reg`: the command byte that addresses register `reg`. */
  function Command(reg: byte): (cmd: byte)
    ensures reg < 0x20 ==> cmd == 0xA0 + reg
  {
    if reg < 0x20 then
      assert Pow2(5) == 0x20;
      OrOfDisjointIsSum(5, reg, 5);
      OrByte(COMMAND, reg)
    else
      OrByte(COMMAND, reg)
  }

  /** `integration_time | gain`: the byte written to the configuration register. */
  function ConfigByte(integrationTime: byte, gain: byte): byte
  {
    OrByte(integrationTime, gain)
  }

  /** `utime.sleep(0.120 * integration_time + 1)`: the wait is computed from the
      register field value, not from the nominal milliseconds. */
  function SettleDelay(integrationTime: byte): real
  {
    0.120 * integrationTime as real + 1.0
  }

  /** `ENABLE_POWERON | ENABLE_AEN | ENABLE_AIEN`. */
  function PowerOnPattern(): (v: byte)
    ensures v == 0x13
  {
    OrByte(OrByte(ENABLE_POWERON, ENABLE_AEN), ENABLE_AIEN)
  }

  /** `enable`: power on, ALS on and ALS interrupt on, in one write. */
  function Enable(s: State): (r: State)
    ensures r.drv == s.drv
    ensures r.log == s.log + [Write(0x29, 0xA0, 0x13)]
  {
    State(s.drv, s.log + [Write(ADDRESS, Command(REG_ENABLE), PowerOnPattern())])
  }

  /** `disable`: every bit of the enable register cleared, in one write. */
  function Disable(s: State): (r: State)
    ensures r.drv == s.drv
    ensures r.log == s.log + [Write(0x29, 0xA0, 0x00)]
  {
    State(s.drv, s.log + [Write(ADDRESS, Command(REG_ENABLE), ENABLE_POWEROFF)])
  }

  /** `set_integration_time`: enable, write the new time with the current gain,
      recompute the ceiling, disable. */
  function SetIntegrationTime(s: State, integrationTime: byte): (r: State)
    ensures r.drv.integrationTime == integrationTime
    ensures r.drv.gain == s.drv.gain
    ensures r.drv.maxcount == 37888 <==> integrationTime == 0x00
    ensures r.drv.maxcount == 37888 || r.drv.maxcount == 65535
    ensures r.log == s.log + [ Write(0x29, 0xA0, 0x13)
                             , Write(0x29, 0xA1, OrByte(integrationTime, s.drv.gain))
                             , Write(0x29, 0xA0, 0x00) ]
  {
    var on := Enable(s);
    var d := on.drv.(integrationTime := integrationTime);
    var log := on.log + [Write(ADDRESS, Command(REG_CONFIG), ConfigByte(d.integrationTime, d.gain))];
    Disable(State(d.(maxcount := MaxCountFor(d.integrationTime)), log))
  }

  /** `set_gain`: enable, write the current time with the new gain, disable.
      The ceiling is left as it was. */
  function SetGain(s: State, gain: byte): (r: State)
    ensures r.drv.gain == gain
    ensures r.drv.integrationTime == s.drv.integrationTime
    ensures r.drv.maxcount == s.drv.maxcount
    ensures r.log == s.log + [ Write(0x29, 0xA0, 0x13)
                             , Write(0x29, 0xA1, OrByte(s.drv.integrationTime, gain))
                             , Write(0x29, 0xA0, 0x00) ]
  {
    var on := Enable(s);
    var d := on.drv.(gain := gain);
    var log := on.log + [Write(ADDRESS, Command(REG_CONFIG), ConfigByte(d.integrationTime, d.gain))];
    Disable(State(d, log))
  }

  /** `set_integration_time` when the configuration write raises: the enable
      write went out and the new time is already stored, but the ceiling is
      not recomputed and the device is not disabled. */
  function SetIntegrationTimeWriteFails(s: State, integrationTime: byte): (r: State)
    ensures r.drv == s.drv.(integrationTime := integrationTime)
    ensures r.drv.maxcount == s.drv.maxcount
    ensures r.log == s.log + [Write(0x29, 0xA0, 0x13)]
  {
    var on := Enable(s);
    State(on.drv.(integrationTime := integrationTime), on.log)
  }

  /** `set_gain` when the configuration write raises: the new gain is stored
      although the device never received it. */
  function SetGainWriteFails(s: State, gain: byte): (r: State)
    ensures r.drv == s.drv.(gain := gain)
    ensures r.log == s.log + [Write(0x29, 0xA0, 0x13)]
  {
    var on := Enable(s);
    State(on.drv.(gain := gain), on.log)
  }

  /** The constructor: store both settings and the ceiling, write the
      configuration twice (once per setter), then disable once more. */
  function Init(integrationTime: byte, gain: byte): (r: State)
    ensures r.drv.integrationTime == integrationTime && r.drv.gain == gain
    ensures Consistent(r.drv)
    ensures r.log == [ Write(0x29, 0xA0, 0x13)
                     , Write(0x29, 0xA1, OrByte(integrationTime, gain))
                     , Write(0x29, 0xA0, 0x00)
                     , Write(0x29, 0xA0, 0x13)
                     , Write(0x29, 0xA1, OrByte(integrationTime, gain))
                     , Write(0x29, 0xA0, 0x00)
                     , Write(0x29, 0xA0, 0x00) ]
  {
    var d := Driver(integrationTime, gain, MaxCountFor(integrationTime));
    var s1 := SetIntegrationTime(State(d, []), d.integrationTime);
    var s2 := SetGain(s1, gain);
    Disable(s2)
  }

  /** The raw pair `get_luminosity` returns, with the state after the sampling
      cycle. */
  datatype Luminosity = Luminosity(st: State, full: word, ir: word)

  /** `get_luminosity`: enable, wait, read channel 0, read channel 1, disable.
      `ch0` and `ch1` are the device's replies to the two reads. */
  function GetLuminosity(s: State, ch0: Reply, ch1: Reply): (r: Luminosity)
    ensures r.st.drv == s.drv
    ensures r.st.log == s.log + [ Write(0x29, 0xA0, 0x13)
                                , Wait(0.12 * s.drv.integrationTime as real + 1.0)
                                , Read(0x29, 0xB4)
                                , Read(0x29, 0xB6)
                                , Write(0x29, 0xA0, 0x00) ]
    ensures r.full % 256 == ch0[0] && r.full / 256 == ch0[1]
    ensures r.ir % 256 == ch1[0] && r.ir / 256 == ch1[1]
  {
    var on := Enable(s);
    var waited := on.log + [Wait(SettleDelay(s.drv.integrationTime))];
    var full := ReadWordData(ADDRESS, Command(REG_C0DATAL), ch0);
    var ir := ReadWordData(ADDRESS, Command(REG_C1DATAL), ch1);
    var off := Disable(State(on.drv, waited + [full.event, ir.event]));
    Luminosity(off, full.value, ir.value)
  }

  datatype Visible = Visible(st: State, visible: int)

  /** `get_visible_visible`: one sampling cycle, full spectrum minus infrared. */
  function GetVisible(s: State, ch0: Reply, ch1: Reply): (r: Visible)
    ensures r.st == GetLuminosity(s, ch0, ch1).st
    ensures r.visible + LittleEndianWord(ch1) == LittleEndianWord(ch0)
    ensures -65535 <= r.visible <= 65535
  {
    var lum := GetLuminosity(s, ch0, ch1);
    Visible(lum.st, lum.full - lum.ir)
  }
}
