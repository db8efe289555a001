# TSL2591 and TMP117 sensor drivers in Dafny

This project models two MicroPython sensor drivers for the Raspberry Pi Pico.

- **TSL2591 light sensor** (`Sensors/TSL2591/tsl2591.py`). The driver stores an
  integration time, a gain and a saturation ceiling (`maxcount`) derived from
  the integration time. Every operation is a fixed sequence of two-wire bus
  transfers to device 0x29. Each command byte is `COMMAND | register`. The
  operations are `enable`, `disable`, `set_integration_time`, `set_gain`,
  `get_luminosity`, `get_visible_visible`, `sample` and the constructor.
  `calculate_lux` turns the two channel counts into lux.
- **TMP117 temperature sensor** (`Sensors/TMP117/tmp117.py`). `readT` reads two
  bytes of register 0x00 at device 0x48. It assembles them big-endian and
  scales the result at 7.8125e-3 degrees Celsius per count.

How the model is built:

- The driver is an immutable record, `Tsl2591.Driver`.
- The bus is a log of events (`Bus.Event`). `Write` is one
  `write_byte_data` transfer of a command and a value. `Read` is one
  `read_word_data` at a command. `ReadMem` is the TMP117 register read.
  `Wait` is a sleep of some seconds.
- Each driver operation maps a `State` (a driver plus its log) to a new
  `State`. Its contract gives the exact events it appends.
- What the device sends back is a parameter. `Bus.Reply` is the four bytes
  `readfrom(addr, 4)` returns.
- `Bus.LastWrite` says what a register holds after a log. It gives the trace
  lemmas their meaning: the device is powered off after a call, the
  configuration register holds a given byte.
- Python's `|` on non-negative integers is `Bits.Or`. It is defined
  arithmetically and proved to act bit by bit (`Bits.OrIsBitwise`).
- Python floats are exact `real`s. The coefficients 1.64, 0.59, 0.86, the
  divisor 408 and the step 7.8125e-3 (= 1/128) are exact.

Two quirks of the TSL2591 driver are modelled as written:

- **The configuration fields overlap.** The integration-time values are
  0x00..0x50 and the gain values are 0x00..0x30. They share bits 4 and 5, so
  `integration_time | gain` does not determine the settings.
  `Tsl2591LuxProperties.ConfigByteCollisions` shows two settings that write
  the same byte.
- **The settle delay uses the field value.** `get_luminosity` sleeps
  `0.120 * integration_time + 1` seconds, where `integration_time` is the raw
  field value (0x50 for 600 ms) and not milliseconds. So the delay grows by
  1.92 s per 100 ms step (`Tsl2591LuxProperties.SettleDelayByStep`).

Files:

- `results.dfy`: `Option` and `Result`.
- `bits.dfy`: `Or`, the bitwise OR.
- `words.dfy`: byte and word types, and the little- and big-endian word
  assembly.
- `bus.dfy`: bus events, `read_word_data`, and register contents after a log.
- `tsl2591.dfy`: the register map, the driver record and its bus operations.
- `tsl2591_lux.dfy`: the lookup tables, `calculate_lux` and `sample`.
- `tsl2591_properties.dfy`: register contents after each operation, the
  ceiling invariant over any sequence of calls, and what a configuration write
  that raises leaves behind.
- `tsl2591_lux_properties.dfy`: calibration properties, the two quirks, and
  the default sampling scenario.
- `tmp117.dfy`: the TMP117 `readT` decode.

## Model

| member | source | states |
|---|---|---|
| Bits.Or | Sensors/TSL2591/tsl2591.py:104 | a OR b is at least each operand and at most their sum |
| Bits.OrIsBitwise | Sensors/TSL2591/tsl2591.py:104 | bit i of a OR b is set iff bit i of a or of b is set |
| Bits.OrOfDisjointIsSum | Sensors/TSL2591/tsl2591.py:103 | when b lies below bit k and a is a multiple of 2^k, a OR b equals a + b |
| Bits.OrStaysBelow | Sensors/TSL2591/tsl2591.py:104 | OR of two values below 2^k is below 2^k, so the config byte of two byte fields fits the byte the bus sends |
| Words.LittleEndianWord | Sensors/TSL2591/tsl2591.py:62-63 | `_bytes_to_int` gives a word in [0, 65535] whose low byte is data[0] and whose high byte is data[1] |
| Words.LittleEndianRoundTrip | Sensors/TSL2591/tsl2591.py:62-63 | decoding the two bytes a device sends for w, whatever follows them, gives w back |
| Words.LittleEndianInjective | Sensors/TSL2591/tsl2591.py:62-63 | the word determines the first two bytes, so re-encoding gives them back |
| Words.BigEndianWord | Sensors/TMP117/tmp117.py:22-23 | `int.from_bytes(data, 'big')` gives a word whose high byte is data[0] and whose low byte is data[1] |
| Words.BigEndianRoundTrip | Sensors/TMP117/tmp117.py:23 | decoding the big-endian bytes of w gives w |
| Words.BigEndianInjective | Sensors/TMP117/tmp117.py:23 | re-encoding a decoded two-byte reply gives the reply |
| Bus.ReadWordData | Sensors/TSL2591/tsl2591.py:77-82 | the command must be below 256; the read is logged at (addr, cmd); the value's low and high bytes are reply bytes 0 and 1, and bytes 2-3 are ignored |
| Bus.LastWrite | Sensors/TSL2591/tsl2591.py:73-75 | a register's value is one the log wrote to it, and it is absent iff the log never wrote to that register |
| Bus.LastWriteOfWrite | Sensors/TSL2591/tsl2591.py:73-75 | after a write, the register holds the written value |
| Bus.LastWriteOfOther | Sensors/TSL2591/tsl2591.py:73-75 | an event that does not write a register leaves its value unchanged |
| Bus.LastWriteAppend | Sensors/TSL2591/tsl2591.py:73-75 | after log + suffix, a register holds the suffix's last write to it, or else what the log left |
| Tsl2591.Enable | Sensors/TSL2591/tsl2591.py:186-191 | appends exactly one write to 0x29 with command 0xA0 and value 0x13 (0x01 OR 0x02 OR 0x10); the driver is unchanged |
| Tsl2591.Disable | Sensors/TSL2591/tsl2591.py:194-199 | appends exactly one write to 0x29 with command 0xA0 and value 0x00; the driver is unchanged |
| Tsl2591.SetIntegrationTime | Sensors/TSL2591/tsl2591.py:98-108 | appends enable, write (0xA1, new time OR current gain), disable in that order; gain unchanged; maxcount is 37888 iff the new time is 0x00 and 65535 otherwise |
| Tsl2591.SetGain | Sensors/TSL2591/tsl2591.py:111-119 | appends enable, write (0xA1, current time OR new gain), disable; integration time and maxcount unchanged |
| Tsl2591.Command | Sensors/TSL2591/tsl2591.py:10-30 | COMMAND OR reg is 0xA0 + reg for every register offset below 0x20 |
| Tsl2591.PowerOnPattern | Sensors/TSL2591/tsl2591.py:190 | ENABLE_POWERON OR ENABLE_AEN OR ENABLE_AIEN is 0x13 |
| Tsl2591.Init | Sensors/TSL2591/tsl2591.py:87-96 | stores both settings with a consistent ceiling; the log is exactly enable, config (time OR gain), disable, enable, config (time OR gain), disable, disable |
| Tsl2591.GetLuminosity | Sensors/TSL2591/tsl2591.py:121-139 | appends enable, a wait of 0.12 * field + 1 s, a read at 0xB4, a read at 0xB6, disable; returns (ch0, ch1) decoded little-endian from the two replies; the driver is unchanged |
| Tsl2591.GetVisible | Sensors/TSL2591/tsl2591.py:142-145 | one luminosity cycle; visible + ir == full, within [-65535, 65535] |
| Tsl2591Lux.CalculateLux | Sensors/TSL2591/tsl2591.py:148-179 | an integration time outside the six keys fails first, then a gain outside the four; with known settings it fails, and then as saturated, iff full or ir >= maxcount, and succeeds otherwise; on success counts-per-lux > 0 and the result is one of lux1 and lux2 and at least both |
| Tsl2591Lux.Sample | Sensors/TSL2591/tsl2591.py:181-184 | the bus effect of `get_luminosity`, then `calculate_lux` of the decoded counts with the unchanged driver |
| Tsl2591Properties.CommandBytes | Sensors/TSL2591/tsl2591.py:10-14 | COMMAND OR REG_ENABLE is 0xA0 and COMMAND OR REG_CONFIG is 0xA1 |
| Tsl2591Properties.SetIntegrationTimeRegisters | Sensors/TSL2591/tsl2591.py:98-108 | afterwards the enable register holds 0x00 and the config register holds new time OR gain, whatever the state before |
| Tsl2591Properties.SetGainRegisters | Sensors/TSL2591/tsl2591.py:111-119 | afterwards the enable register holds 0x00 and the config register holds time OR new gain |
| Tsl2591Properties.InitRegisters | Sensors/TSL2591/tsl2591.py:87-96 | a constructed driver leaves the device powered off and configured with both requested settings |
| Tsl2591Properties.GetLuminosityRegisters | Sensors/TSL2591/tsl2591.py:121-135 | both reads follow the wait and happen while the enable register holds 0x13; afterwards it holds 0x00 and the config register is untouched |
| Tsl2591Properties.RunKeepsCeiling | Sensors/TSL2591/tsl2591.py:87-108 | after construction and any sequence of calls whose transfers all succeed, maxcount is 37888 iff the integration time is 0x00, else 65535; the log only grows |
| Tsl2591.SetIntegrationTimeWriteFails | Sensors/TSL2591/tsl2591.py:99-101 | when the configuration write raises, only the enable write (0x13 to command 0xA0) is on the bus and the driver differs from the old one only in the new integration time: the ceiling keeps its old value |
| Tsl2591.SetGainWriteFails | Sensors/TSL2591/tsl2591.py:112-114 | when the configuration write raises, only the enable write (0x13 to command 0xA0) is on the bus and the driver differs from the old one only in the new gain |
| Tsl2591Properties.FailedSetIntegrationTimeLeavesStaleCeiling | Sensors/TSL2591/tsl2591.py:98-108 | if the config write raises, the new time is stored with the old ceiling and the device stays on: from the defaults, 200 ms keeps 37888 and 40000 counts read as saturated where a consistent driver accepts them |
| Tsl2591Properties.FailedSetGainLeavesStaleRegister | Sensors/TSL2591/tsl2591.py:111-119 | if the config write raises, the driver holds the new gain while the config register still holds the old time OR gain, and so differs from the driver's own time OR gain whenever the new gain changes that byte |
| Tsl2591Properties.RunEndsPoweredOff | Sensors/TSL2591/tsl2591.py:98-135 | after any sequence of calls whose last call is not `enable`, the device is powered off |
| Tsl2591Properties.RunKeepsKnownSettings | Sensors/TSL2591/tsl2591.py:150-167 | settings taken from the lookup tables stay lookup-table keys through any sequence of calls |
| Tsl2591LuxProperties.CountsPerLuxRange | Sensors/TSL2591/tsl2591.py:150-173 | for table settings, counts-per-lux lies in [100/408, 600*9876/408], so it is positive |
| Tsl2591LuxProperties.LuxTimesCountsPerLux | Sensors/TSL2591/tsl2591.py:173-179 | lux times counts-per-lux is max(full - 1.64 ir, 0.59 full - 0.86 ir), independent of the settings |
| Tsl2591LuxProperties.WinningFormula | Sensors/TSL2591/tsl2591.py:175-179 | the result is the first formula iff 41 * full >= 78 * ir |
| Tsl2591LuxProperties.LuxMonotone | Sensors/TSL2591/tsl2591.py:175-179 | the result does not decrease with full and does not increase with ir |
| Tsl2591LuxProperties.SettingsScaleLux | Sensors/TSL2591/tsl2591.py:150-179 | for the same counts, two drivers' results are in the inverse ratio of their counts-per-lux |
| Tsl2591LuxProperties.SaturationCeiling | Sensors/TSL2591/tsl2591.py:170-171 | for a consistent driver with table settings, failure happens iff a channel reaches 37888 (100 ms) or 65535 (other times) |
| Tsl2591LuxProperties.SaturationBoundary | Sensors/TSL2591/tsl2591.py:170-171 | at the default settings 37888 saturates on either channel and 37887 does not |
| Tsl2591LuxProperties.KnownValue | Sensors/TSL2591/tsl2591.py:173-179 | full 1000, ir 100, 100 ms, low gain gives exactly 3410.88 lux |
| Tsl2591LuxProperties.DefaultSampleScenario | Sensors/TSL2591/tsl2591.py:181-184 | default construction, then sampling 5000 and 500 counts, logs enable, wait 1 s, two reads, disable, and returns 17054.4 lux |
| Tsl2591LuxProperties.ConfigByteCollisions | Sensors/TSL2591/tsl2591.py:39-53 | 200 ms at low gain and 100 ms at medium gain both write 0x10; at 400 ms every gain writes 0x30 |
| Tsl2591LuxProperties.SettleDelayByStep | Sensors/TSL2591/tsl2591.py:123 | the wait is 1 + 1.92 * (ms/100 - 1) seconds, never shorter than the nominal integration time |
| Tmp117.Signed16 | Sensors/TMP117/tmp117.py:26-30 | the two's-complement reading lies in [-32768, 32768) and is congruent to raw modulo 65536 |
| Tmp117.Unsigned16 | Sensors/TMP117/tmp117.py:26-30 | the register value whose two's-complement reading is v |
| Tmp117.Celsius | Sensors/TMP117/tmp117.py:26-30 | both branches equal the signed 16-bit value / 128; the result lies in [-256, 256); it is negative iff raw >= 0x8000 |
| Tmp117.ReadT | Sensors/TMP117/tmp117.py:21-32 | logs a 2-byte read of register 0x00 at 0x48; 128 times the result is the signed value of b0*256 + b1 |
| Tmp117.CelsiusRoundTrip | Sensors/TMP117/tmp117.py:26-30 | every multiple of 1/128 in [-256, 256) is reported by exactly one raw value |
| Tmp117.CelsiusMonotoneWithinBranch | Sensors/TMP117/tmp117.py:26-30 | within each branch, a larger raw value gives a strictly higher temperature |
| Tmp117.CelsiusOrdersBySignedValue | Sensors/TMP117/tmp117.py:26-30 | temperatures are ordered by signed value; 0x7FFF gives 255.9921875 and 0x8000 gives -256 |

## Left out

- Settings and command values outside 0..255 are not modelled. The driver's
  settings are typed as bytes. For such values, `bytes([...])` in
  `write_byte_data` either raises or truncates, depending on the MicroPython
  build. So the setters and the constructor take byte arguments.
- Bus failures are not modelled in general. A transfer the device does not
  acknowledge raises `OSError` in `writeto`/`readfrom`. The operations take
  every transfer as acknowledged. The one failure modelled is a configuration
  write that raises inside a setter (`SetIntegrationTimeWriteFails`,
  `SetGainWriteFails`).
- Tsl2591Properties.RunKeepsCeiling, SetIntegrationTimeRegisters and
  SetGainRegisters assume every transfer succeeds. `set_integration_time`
  stores the new time (tsl2591.py:100) before the configuration write
  (tsl2591.py:101-105) and recomputes `maxcount` only after it
  (tsl2591.py:107). `set_gain` stores the gain (tsl2591.py:113) before its
  write. So a write that raises leaves a stale ceiling or an unsent gain, as
  `FailedSetIntegrationTimeLeavesStaleCeiling` and
  `FailedSetGainLeavesStaleRegister` show.
- `machine.I2C`, `Pin` and the `I2CBus` constructor (tsl2591.py:66-71) are
  hardware set-up. They are not part of this model.
- `utime.sleep` is the `Wait` event with its duration. No time passes in the
  model.
- The `print` in `get_luminosity` is console output and is left out.
- Python float rounding is not modelled. The lux formulas and the temperature
  conversion use exact reals.
- The interrupt-threshold, persistence, ID and status registers
  (tsl2591.py:15-26) are never accessed by the driver and are not modelled.
  The constants `REG_C0DATAH`/`REG_C1DATAH` (tsl2591.py:28, :30) are never
  used by name: each high byte arrives as byte 1 of the four-byte read
  (tsl2591.py:80-81, :63), and bytes 2-3 of that read are ignored.
- The TMP117 constructor's chip-ID read (register 0xD0) returns a value that is
  never used. Only the address and register constants are modelled.
- The polling scripts `Sensors/TSL2591/main.py`, `Sensors/TMP117/main.py` and
  `Sensors/BMP180/main.py` are infinite loops around the drivers, and
  `Sensors/LM35/lm35.py` is a top-level ADC loop. None of them are part of
  this model.
