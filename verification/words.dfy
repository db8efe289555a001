/** Bytes as the bus delivers them and the two ways the drivers assemble a
    16-bit register value from them. */
module Words {

  type byte = x: int | 0 <= x < 0x100

  type word = x: int | 0 <= x < 0x1_0000

  /** `_bytes_to_int`: the first byte is the low half, the second the high half
      (`data[1] << 8` is a multiplication by 256 on a non-negative value);
      anything after the second byte is ignored. */
  function LittleEndianWord(data: seq<byte>): (w: word)
    requires |data| >= 2
    ensures w % 256 == data[0] && w / 256 == data[1]
  {
    data[0] as int + data[1] as int * 256
  }

  /** The two bytes a device sends, low byte first, to report `w`. */
  function LittleEndianBytes(w: word): (data: seq<byte>)
    ensures |data| == 2
  {
    [w % 256, w / 256]
  }

  /** `int.from_bytes(data, 'big')` on a two-byte reply: the first byte is the
      high half. */
  function BigEndianWord(data: seq<byte>): (w: word)
    requires |data| == 2
    ensures w / 256 == data[0] && w % 256 == data[1]
  {
    data[0] as int * 256 + data[1] as int
  }

  /** The two bytes a device sends, high byte first, to report `w`. */
  function BigEndianBytes(w: word): (data: seq<byte>)
    ensures |data| == 2
  {
    [w / 256, w % 256]
  }

  /** Decoding undoes encoding, whatever trails the two significant bytes. */
  lemma LittleEndianRoundTrip(w: word, tail: seq<byte>)
    ensures LittleEndianWord(LittleEndianBytes(w) + tail) == w
  {
  }

  /** Encoding undoes decoding: no two different byte pairs give the same word. */
  lemma LittleEndianInjective(data: seq<byte>)
    requires |data| >= 2
    ensures LittleEndianBytes(LittleEndianWord(data)) == data[..2]
  {
  }

  lemma BigEndianRoundTrip(w: word)
    ensures BigEndianWord(BigEndianBytes(w)) == w
  {
  }

  lemma BigEndianInjective(data: seq<byte>)
    requires |data| == 2
    ensures BigEndianBytes(BigEndianWord(data)) == data
  {
  }
}
