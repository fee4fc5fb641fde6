/**
 The nibble transmitter: how one byte reaches the controller as two
 strobed nibbles on D4-D7, with the backlight line held at its current level.
 */
module Transmit {
  import opened Pins
  import opened Hd44780

  /**
   One strobe: the byte with the backlight line forced to `backlight`,
   then the same byte with EN raised, then the first byte again.
   */
  function Enable(backlight: bool, data: bv8): (t: seq<bv8>)
    ensures |t| == 3 && t[2] == t[0]
    ensures t[0] & 0xF7 == data & 0xF7 && Bit(t[0], BACKLIGHT) == backlight
    ensures t[1] == t[0] | 0x04
    ensures Bit(t[1], EN) && Bit(t[0], EN) == Bit(data, EN)
    ensures BacklightIs(t, backlight)
  {
    var b := PinInterpret(BACKLIGHT, data, backlight);
    [b, PinInterpret(EN, b, true), b]
  }

  /**
   The expander byte presenting the low four bits of `nibble` on D4-D7,
   with RS raised for character data and every other line low.
   */
  function NibbleFrame(nibble: bv8, isCommand: bool): (r: bv8)
    ensures r >> 4 == nibble & 0x0F
    ensures r & 0x0F == if isCommand then 0 else 1
  {
    var d4 := PinInterpret(D4, 0, nibble & 0x01 == 0x01);
    var d5 := PinInterpret(D5, d4, (nibble >> 1) & 0x01 == 0x01);
    var d6 := PinInterpret(D6, d5, (nibble >> 2) & 0x01 == 0x01);
    var d7 := PinInterpret(D7, d6, (nibble >> 3) & 0x01 == 0x01);
    if !isCommand then PinInterpret(RS, d7, true) else d7
  }

  /**
   A well-formed strobe of three writes: a base byte with RS as given and
   R/W and EN low, the same byte with EN raised, then the base byte again.
   */
  predicate Strobe(s: seq<bv8>, rs: bool) {
    && |s| == 3
    && Bit(s[0], RS) == rs && !Bit(s[0], WR) && !Bit(s[0], EN)
    && s[1] == s[0] | 0x04 && s[2] == s[0]
  }

  /**
   Sends `data` as an instruction (`isCommand`) or as character data:
   the high nibble's strobe, then the low nibble's.
   */
  function SendByte(backlight: bool, data: bv8, isCommand: bool): (t: seq<bv8>)
    ensures |t| == 6
    ensures Strobe(t[..3], !isCommand) && Strobe(t[3..], !isCommand)
    ensures t[0] >> 4 == data >> 4 && t[3] >> 4 == data & 0x0F
    ensures BacklightIs(t, backlight)
    ensures Idle(t)
  {
    var hi := Enable(backlight, NibbleFrame(data >> 4, isCommand));
    var lo := Enable(backlight, NibbleFrame(data & 0x0F, isCommand));
    assert (hi + lo)[..3] == hi && (hi + lo)[3..] == lo;
    hi + lo
  }

  /** An instruction is a byte sent with RS low. */
  function Command(backlight: bool, code: bv8): (t: seq<bv8>)
    ensures Received(t) == [Hd44780.Command(code)]
    ensures Framed(t) && |t| == 6 && BacklightIs(t, backlight)
  {
    SendByteReceived(backlight, code, true);
    SendByte(backlight, code, true)
  }

  /** Character data is a byte sent with RS high. */
  function Data(backlight: bool, value: bv8): (t: seq<bv8>)
    ensures Received(t) == [Hd44780.Data(value)]
    ensures Framed(t) && |t| == 6 && BacklightIs(t, backlight)
  {
    SendByteReceived(backlight, value, false);
    SendByte(backlight, value, false)
  }

  /** Character data, one byte after another. */
  function SendData(backlight: bool, buf: seq<bv8>): (t: seq<bv8>)
    ensures |t| == 6 * |buf|
    ensures BacklightIs(t, backlight)
    ensures Framed(t)
    decreases |buf|
  {
    if buf == [] then []
    else
      ReceivedAppend(Data(backlight, buf[0]), SendData(backlight, buf[1..]));
      Data(backlight, buf[0]) + SendData(backlight, buf[1..])
  }

  /** The controller sees the nibble on D4-D7 and RS raised exactly for data. */
  lemma FrameLines(nibble: bv8, isCommand: bool)
    ensures LinesOf(NibbleFrame(nibble, isCommand)) == Nibble(!isCommand, nibble & 0x0F)
  {
  }

  /** One strobe of a write byte with EN low latches that byte's lines once. */
  lemma EnableLatched(backlight: bool, frame: bv8)
    requires !Bit(frame, EN) && !Bit(frame, WR)
    ensures Latched(Enable(backlight, frame)) == [LinesOf(frame)]
  {
    var t := Enable(backlight, frame);
    assert t == [t[0], t[1], t[0]];
    PulseLatchesOnce(t[0], t[1]);
    assert LinesOf(t[0]) == LinesOf(frame);
  }

  /** The controller latches exactly the two nibbles of the byte, high nibble first. */
  lemma {:induction false} SendByteLatched(backlight: bool, data: bv8, isCommand: bool)
    ensures Latched(SendByte(backlight, data, isCommand))
            == [Nibble(!isCommand, data >> 4), Nibble(!isCommand, data & 0x0F)]
    ensures Framed(SendByte(backlight, data, isCommand))
  {
    var fh, fl := NibbleFrame(data >> 4, isCommand), NibbleFrame(data & 0x0F, isCommand);
    EnableLatched(backlight, fh);
    EnableLatched(backlight, fl);
    LatchedAppend(Enable(backlight, fh), Enable(backlight, fl));
    FrameLines(data >> 4, isCommand);
    FrameLines(data & 0x0F, isCommand);
    assert (data >> 4) & 0x0F == data >> 4;
  }

  /** ... and reassembles from them the byte that was sent, tagged by RS. */
  lemma SendByteReceived(backlight: bool, data: bv8, isCommand: bool)
    ensures Received(SendByte(backlight, data, isCommand))
            == [if isCommand then Hd44780.Command(data) else Hd44780.Data(data)]
    ensures Framed(SendByte(backlight, data, isCommand))
  {
    SendByteLatched(backlight, data, isCommand);
    AssemblePair(Nibble(!isCommand, data >> 4), Nibble(!isCommand, data & 0x0F));
    assert ((data >> 4) << 4) | ((data & 0x0F) & 0x0F) == data;
  }

  /** The controller receives the buffer, byte for byte, as character data. */
  lemma {:induction false} SendDataReceived(backlight: bool, buf: seq<bv8>)
    ensures Received(SendData(backlight, buf)) == seq(|buf|, i requires 0 <= i < |buf| => Hd44780.Data(buf[i]))
    decreases |buf|
  {
    if buf != [] {
      var head, tail := Data(backlight, buf[0]), SendData(backlight, buf[1..]);
      assert SendData(backlight, buf) == head + tail;
      ReceivedAppend(head, tail);
      SendDataReceived(backlight, buf[1..]);
      assert Received(head + tail) == [Hd44780.Data(buf[0])] + Received(tail);
    }
  }
}
