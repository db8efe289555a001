/** The two-wire bus as a log of the transfers a driver performs. The replies a
    device sends are parameters of the operations that read them. */
module Bus {
  import opened Results
  import opened Words

  datatype Event =
      /** `write_byte_data`: one transfer of the command byte followed by the value byte. */
    | Write(addr: int, cmd: byte, val: byte)
      /** `read_word_data`: the command byte is written, then four bytes are read back. */
    | Read(addr: int, cmd: byte)
      /** `readfrom_mem`: `count` bytes read from register `reg`. */
    | ReadMem(addr: int, reg: byte, count: nat)
      /** A blocking sleep of the given number of seconds. */
    | Wait(seconds: real)

  type Log = seq<Event>

  /** The four bytes `readfrom(addr, 4)` hands back. */
  type Reply = r: seq<byte> | |r| == 4 witness [0, 0, 0, 0]

  datatype WordRead = WordRead(event: Event, value: word)

  /** `I2CBus.read_word_data`: the command must fit in a byte (the source asserts
      it); the word is assembled little-endian from the first two reply bytes. */
  function ReadWordData(addr: int, cmd: nat, reply: Reply): (r: WordRead)
    requires cmd < 256
    ensures r.event == Read(addr, cmd)
    ensures r.value % 256 == reply[0] && r.value / 256 == reply[1]
  {
    WordRead(Read(addr, cmd), LittleEndianWord(reply))
  }

  predicate WritesTo(e: Event, addr: int, cmd: byte)
  {
    e.Write? && e.addr == addr && e.cmd == cmd
  }

  /** The value the log last wrote to command `cmd` of device `addr`, which is
      what that register holds afterwards; None if the log never wrote it. */
  function LastWrite(log: Log, addr: int, cmd: byte): (r: Option<byte>)
    ensures r.Some? ==> Write(addr, cmd, r.value) in log
    ensures r.None? <==> forall i :: 0 <= i < |log| ==> !WritesTo(log[i], addr, cmd)
    decreases |log|
  {
    if |log| == 0 then None
    else
      var e := log[|log| - 1];
      var r := LastWrite(log[..|log| - 1], addr, cmd);
      assert log == log[..|log| - 1] + [e];
      if WritesTo(e, addr, cmd) then Some(e.val) else r
  }

  /** A write to the register is what it holds next. */
  lemma LastWriteOfWrite(log: Log, addr: int, cmd: byte, val: byte)
    ensures LastWrite(log + [Write(addr, cmd, val)], addr, cmd) == Some(val)
  {
    assert (log + [Write(addr, cmd, val)])[..|log|] == log;
  }

  /** Any other event leaves the register as it was. */
  lemma LastWriteOfOther(log: Log, e: Event, addr: int, cmd: byte)
    requires !WritesTo(e, addr, cmd)
    ensures LastWrite(log + [e], addr, cmd) == LastWrite(log, addr, cmd)
  {
    assert (log + [e])[..|log|] == log;
  }

  /** Appending events: the register holds the suffix's last write to it, or
      what it held before if the suffix does not write it. */
  lemma {:induction false} LastWriteAppend(log: Log, suffix: Log, addr: int, cmd: byte)
    ensures LastWrite(log + suffix, addr, cmd)
         == if LastWrite(suffix, addr, cmd).Some? then LastWrite(suffix, addr, cmd)
            else LastWrite(log, addr, cmd)
    decreases |suffix|
  {
    if |suffix| > 0 {
      var front := suffix[..|suffix| - 1];
      assert (log + suffix)[..|log + suffix| - 1] == log + front;
      LastWriteAppend(log, front, addr, cmd);
    } else {
      assert log + suffix == log;
    }
  }
}
