/**
 The receiving side of the bus: what an HD44780 controller wired in 4-bit
 mode behind the expander makes of a sequence of expander bytes. It is the
 reference the driver's traces are checked against, written from the
 controller's instruction table rather than from the driver's constants.
 */
module Hd44780 {
  import opened Pins

  /** The controller's instruction set (register select low). */
  datatype Instruction =
    | NoInstruction
    | ClearDisplay
    | ReturnHome
    | EntryModeSet(increment: bool, shift: bool)
    | DisplayControl(display: bool, cursor: bool, blink: bool)
    | CursorOrDisplayShift(displayShift: bool, right: bool)
    | FunctionSet(eightBit: bool, twoLines: bool, tallFont: bool)
    | SetCgramAddress(cgram: bv8)
    | SetDdramAddress(ddram: bv8)

  /** Decodes an instruction byte by its most significant set bit. */
  function Decode(code: bv8): Instruction {
    if code & 0x80 != 0 then SetDdramAddress(code & 0x7F)
    else if code & 0x40 != 0 then SetCgramAddress(code & 0x3F)
    else if code & 0x20 != 0 then FunctionSet(code & 0x10 != 0, code & 0x08 != 0, code & 0x04 != 0)
    else if code & 0x10 != 0 then CursorOrDisplayShift(code & 0x08 != 0, code & 0x04 != 0)
    else if code & 0x08 != 0 then DisplayControl(code & 0x04 != 0, code & 0x02 != 0, code & 0x01 != 0)
    else if code & 0x04 != 0 then EntryModeSet(code & 0x02 != 0, code & 0x01 != 0)
    else if code & 0x02 != 0 then ReturnHome
    else if code & 0x01 != 0 then ClearDisplay
    else NoInstruction
  }

  /** What the controller samples at an enable strobe: RS and D4-D7. */
  datatype Nibble = Nibble(rs: bool, bits: bv8)

  /** One complete byte handed to the controller. */
  datatype Transfer = Command(code: bv8) | Data(value: bv8)

  function LinesOf(b: bv8): Nibble {
    Nibble(Bit(b, RS), b >> 4)
  }

  /** The controller latches a nibble when a write drops the enable line. */
  predicate Falling(prev: bv8, cur: bv8) {
    Bit(prev, EN) && !Bit(cur, EN) && !Bit(prev, WR)
  }

  /** Every nibble latched over a sequence of expander writes, in order. */
  function Latched(t: seq<bv8>): seq<Nibble>
    decreases |t|
  {
    if |t| < 2 then []
    else (if Falling(t[0], t[1]) then [LinesOf(t[0])] else []) + Latched(t[1..])
  }

  /** In 4-bit mode consecutive nibbles pair up, high nibble first. */
  function Assemble(ns: seq<Nibble>): seq<Transfer>
    decreases |ns|
  {
    if |ns| < 2 then []
    else
      var b := (ns[0].bits << 4) | (ns[1].bits & 0x0F);
      [if ns[0].rs then Data(b) else Command(b)] + Assemble(ns[2..])
  }

  /** Every byte a 4-bit-mode controller receives from a trace. */
  function Received(t: seq<bv8>): seq<Transfer> {
    Assemble(Latched(t))
  }

  /** The trace leaves the enable line low (or is empty). */
  predicate Idle(t: seq<bv8>) {
    |t| == 0 || !Bit(t[|t| - 1], EN)
  }

  /** The trace leaves the enable line low and the controller between bytes. */
  predicate Framed(t: seq<bv8>) {
    Idle(t) && |Latched(t)| % 2 == 0
  }

  /** Every byte of the trace drives the backlight line to `on`. */
  predicate BacklightIs(t: seq<bv8>, on: bool) {
    forall i :: 0 <= i < |t| ==> Bit(t[i], BACKLIGHT) == on
  }

  lemma BacklightAppend(a: seq<bv8>, b: seq<bv8>, on: bool)
    requires BacklightIs(a, on) && BacklightIs(b, on)
    ensures BacklightIs(a + b, on)
  {
    forall i | 0 <= i < |a + b|
      ensures Bit((a + b)[i], BACKLIGHT) == on
    {
      if i >= |a| {
        assert (a + b)[i] == b[i - |a|];
      }
    }
  }

  /** The controller receives exactly one instruction, and it decodes to `ins`. */
  predicate ExecutesOnly(t: seq<bv8>, ins: Instruction) {
    var rs := Received(t);
    |rs| == 1 && rs[0].Command? && Decode(rs[0].code) == ins
  }

  /** A strobe on a write byte latches that byte's lines exactly once. */
  lemma {:induction false} PulseLatchesOnce(b: bv8, p: bv8)
    requires !Bit(b, EN) && !Bit(b, WR)
    requires Bit(p, EN) && p & 0xFB == b
    ensures Latched([b, p, b]) == [LinesOf(b)]
  {
    assert LinesOf(p) == LinesOf(b);
    assert Latched([b]) == [];
    assert [p, b][1..] == [b];
    assert Latched([p, b]) == [LinesOf(b)];
    assert [b, p, b][1..] == [p, b];
  }

  /** Nothing is latched across the seam of two traces when the first leaves enable low. */
  lemma {:induction false} LatchedAppend(a: seq<bv8>, b: seq<bv8>)
    requires Idle(a)
    ensures Latched(a + b) == Latched(a) + Latched(b)
    decreases |a|
  {
    if |a| == 0 {
      assert a + b == b;
    } else if |a| == 1 {
      if |b| > 0 {
        assert (a + b)[1..] == b;
        assert !Falling((a + b)[0], (a + b)[1]);
      }
    } else {
      assert (a + b)[1..] == a[1..] + b;
      assert a[1..][|a[1..]| - 1] == a[|a| - 1];
      LatchedAppend(a[1..], b);
    }
  }

  /** Pairing nibbles is compositional across an even split. */
  lemma {:induction false} AssembleAppend(x: seq<Nibble>, y: seq<Nibble>)
    requires |x| % 2 == 0
    ensures Assemble(x + y) == Assemble(x) + Assemble(y)
    decreases |x|
  {
    if |x| == 0 {
      assert x + y == y;
    } else {
      assert (x + y)[2..] == x[2..] + y;
      AssembleAppend(x[2..], y);
    }
  }

  /** Two nibbles make one byte. */
  lemma AssemblePair(hi: Nibble, lo: Nibble)
    ensures Assemble([hi, lo])
            == [var b := (hi.bits << 4) | (lo.bits & 0x0F); if hi.rs then Data(b) else Command(b)]
  {
    assert [hi, lo][2..] == [];
  }

  /** What the controller receives from two framed traces is what it receives from each. */
  lemma ReceivedAppend(a: seq<bv8>, b: seq<bv8>)
    requires Framed(a)
    ensures Received(a + b) == Received(a) + Received(b)
    ensures Framed(b) ==> Framed(a + b)
  {
    LatchedAppend(a, b);
    AssembleAppend(Latched(a), Latched(b));
  }
}
