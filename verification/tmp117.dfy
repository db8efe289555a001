/** The TMP117 temperature read: one two-byte register read, assembled
    big-endian and scaled at 7.8125e-3 degrees Celsius per count. */
module Tmp117 {
  import opened Words
  import opened Bus

  /** Device address and temperature result register. */
  const BASE_ADDR := 0x48
  const REG_TEMPC: byte := 0x00

  /** 7.8125e-3 degrees per count, exactly 1/128. */
  const RESOLUTION: real := 0.0078125

  /** The reference reading of a raw register value: its signed 16-bit
      two's-complement value. */
  function Signed16(raw: word): (v: int)
    ensures -0x8000 <= v < 0x8000
    ensures (v - raw) % 0x1_0000 == 0
  {
    if raw < 0x8000 then raw else raw - 0x1_0000
  }

  /** The raw register value whose two's-complement reading is `v`. */
  function Unsigned16(v: int): (raw: word)
    requires -0x8000 <= v < 0x8000
    ensures Signed16(raw) == v
  {
    if v < 0 then v + 0x1_0000 else v
  }

  /** `readT`'s conversion: the sign bit selects the branch, and the negative
      branch counts up from -256 degrees. */
  function Celsius(raw: word): (t: real)
    ensures t == Signed16(raw) as real / 128.0
    ensures -256.0 <= t < 256.0
    ensures t < 0.0 <==> raw >= 0x8000
  {
    if raw >= 0x8000 then -256.0 + (raw - 0x8000) as real * RESOLUTION
    else raw as real * RESOLUTION
  }

  datatype Reading = Reading(event: Event, celsius: real)

  /** `readT`: read two bytes of the temperature register and convert them;
      `reply` is what the device sends. */
  function ReadT(reply: seq<byte>): (r: Reading)
    requires |reply| == 2
    ensures r.event == ReadMem(0x48, 0x00, 2)
    ensures r.celsius * 128.0 == Signed16(reply[0] as int * 256 + reply[1] as int) as real
  {
    Reading(ReadMem(BASE_ADDR, REG_TEMPC, 2), Celsius(BigEndianWord(reply)))
  }

  /** Every multiple of 1/128 degree in [-256, 256) is reported by exactly one
      register value. */
  lemma CelsiusRoundTrip(v: int)
    requires -0x8000 <= v < 0x8000
    ensures Celsius(Unsigned16(v)) == v as real / 128.0
    ensures forall raw: word :: Celsius(raw) == v as real / 128.0 ==> raw == Unsigned16(v)
  {
  }

  /** Within each branch a larger raw value is a higher temperature. */
  lemma CelsiusMonotoneWithinBranch(a: word, b: word)
    requires a < b
    requires (a >= 0x8000) == (b >= 0x8000)
    ensures Celsius(a) < Celsius(b)
  {
  }

  /** Across the branches the order is that of the signed readings: the
      largest raw value below the sign bit is the hottest temperature and the
      sign bit alone the coldest. */
  lemma CelsiusOrdersBySignedValue(a: word, b: word)
    ensures Celsius(a) < Celsius(b) <==> Signed16(a) < Signed16(b)
    ensures Celsius(0x7FFF) == 255.9921875 && Celsius(0x8000) == -256.0
  {
  }
}
