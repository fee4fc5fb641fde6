/**
 The driver proper: a record of the controller settings the driver last
 commanded, and every display operation as a pure function from that
 record to the new record and the expander bytes written to register 0.
 */
module Device {
  import opened Pins
  import opened Results
  import opened Options
  import opened Hd44780
  import opened Commands
  import Transmit

  /**
   The mirror of the write-only controller: backlight, display, cursor and
   blink switches, shift-on-write and shift direction, plus the options.
   */
  datatype Dev = Dev(
    displayEnable: bool,
    backlight: bool,
    cursor: bool,
    blink: bool,
    displayShift: bool,
    shiftRight: bool,
    opts: Opts)

  /** The device after an operation and the bytes the operation wrote, in order. */
  datatype Effect = Effect(dev: Dev, trace: seq<bv8>)

  datatype PositionError = UnsupportedLine(line: bv8) | UnsupportedColumn(pos: bv8)

  /** The settings a freshly constructed device believes the controller has. */
  function PowerOnState(opts: Opts): (d: Dev)
    ensures d.displayEnable && d.cursor && d.blink
    ensures !d.backlight && !d.displayShift && !d.shiftRight && d.opts == opts
  {
    Dev(displayEnable := true, backlight := false, cursor := true, blink := true,
        displayShift := false, shiftRight := false, opts := opts)
  }

  /** Sends one instruction byte; the device record is untouched. */
  function Command(d: Dev, code: bv8): (r: Effect)
    ensures r.dev == d
    ensures Received(r.trace) == [Transfer.Command(code)]
    ensures Framed(r.trace) && BacklightIs(r.trace, d.backlight)
  {
    Effect(d, Transmit.Command(d.backlight, code))
  }

  /**
   Drives the backlight line directly with every other line low, without
   a strobe, and records the new level for all later writes.
   */
  function SetBacklight(d: Dev, on: bool): (r: Effect)
    ensures r.dev == d.(backlight := on)
    ensures r.trace == [if on then 0x08 else 0x00]
    ensures Received(r.trace) == [] && Framed(r.trace) && BacklightIs(r.trace, on)
  {
    Effect(d.(backlight := on), [PinInterpret(BACKLIGHT, 0x00, on)])
  }

  function Clear(d: Dev): (r: Effect)
    ensures r.dev == d
    ensures Received(r.trace) == [Transfer.Command(CmdClearDisplay)]
    ensures ExecutesOnly(r.trace, ClearDisplay)
    ensures Framed(r.trace) && BacklightIs(r.trace, d.backlight)
  {
    Command(d, CmdClearDisplay)
  }

  function Home(d: Dev): (r: Effect)
    ensures r.dev == d
    ensures Received(r.trace) == [Transfer.Command(CmdReturnHome)]
    ensures ExecutesOnly(r.trace, ReturnHome)
    ensures Framed(r.trace) && BacklightIs(r.trace, d.backlight)
  {
    Command(d, CmdReturnHome)
  }

  /** Shutdown: clear the screen, then switch the backlight off. */
  function Halt(d: Dev): (r: Effect)
    ensures r.dev == d.(backlight := false)
    ensures |r.trace| == 7 && r.trace[6] == 0x00
    ensures BacklightIs(r.trace[..6], d.backlight)
    ensures ExecutesOnly(r.trace, ClearDisplay)
    ensures Framed(r.trace)
  {
    var c := Clear(d);
    var b := SetBacklight(c.dev, false);
    ReceivedAppend(c.trace, b.trace);
    assert (c.trace + b.trace)[..6] == c.trace;
    Effect(b.dev, c.trace + b.trace)
  }

  /**
   Moves the cursor to column `pos` of `line`. A line beyond the configured
   count or a column beyond the configured count is refused with no write;
   the column count itself is accepted.
   */
  function SetPosition(d: Dev, line: bv8, pos: bv8): (r: Result<Effect, PositionError>)
    ensures r.Ok? <==> line <= d.opts.lines && pos <= d.opts.cols
    ensures line > d.opts.lines ==> r == Err(UnsupportedLine(line))
    ensures line <= d.opts.lines && pos > d.opts.cols ==> r == Err(UnsupportedColumn(pos))
    ensures r.Ok? ==> r.value.dev == d
    ensures r.Ok? ==> Received(r.value.trace) == [Transfer.Command(PositionByte(line, pos))]
    ensures r.Ok? && DdramAddress(line, pos) < 0x80 ==>
              ExecutesOnly(r.value.trace, SetDdramAddress(DdramAddress(line, pos)))
    ensures r.Ok? ==> Framed(r.value.trace) && BacklightIs(r.value.trace, d.backlight)
  {
    if line > d.opts.lines then Err(UnsupportedLine(line))
    else if pos > d.opts.cols then Err(UnsupportedColumn(pos))
    else Ok(Command(d, PositionByte(line, pos)))
  }

  /** Writes the buffer as character data and reports every byte written. */
  function Write(d: Dev, buf: seq<bv8>): (r: (nat, Effect))
    ensures r.0 == |buf| && r.1.dev == d
    ensures Received(r.1.trace) == seq(|buf|, i requires 0 <= i < |buf| => Data(buf[i]))
    ensures |r.1.trace| == 6 * |buf|
    ensures Framed(r.1.trace) && BacklightIs(r.1.trace, d.backlight)
  {
    Transmit.SendDataReceived(d.backlight, buf);
    (|buf|, Effect(d, Transmit.SendData(d.backlight, buf)))
  }

  /** Writes one character, then moves the cursor one cell to the left. */
  function WriteChar(d: Dev, c: bv8): (r: Effect)
    ensures r.dev == d
    ensures Received(r.trace) == [Data(c), Transfer.Command(CursorShiftByte(false))]
    ensures Framed(r.trace) && BacklightIs(r.trace, d.backlight)
  {
    var w := Transmit.Data(d.backlight, c);
    var s := CursorShift(d, false);
    ReceivedAppend(w, s.trace);
    Effect(s.dev, w + s.trace)
  }

  /** Writes character code `c` with bit 6 forced on. */
  function WriteCell(d: Dev, c: bv8): (r: Effect)
    ensures r.dev == d
    ensures exists v: bv8 :: Received(r.trace) == [Data(v)] && v & 0x40 != 0 && v & 0xBF == c & 0xBF
    ensures Framed(r.trace) && BacklightIs(r.trace, d.backlight)
  {
    var v: bv8 := 0x40 | c;
    assert v & 0x40 != 0 && v & 0xBF == c & 0xBF;
    var t := Transmit.Data(d.backlight, v);
    assert Received(t) == [Data(v)];
    Effect(d, t)
  }

  /** Re-sends the entry mode the record describes. */
  function WriteEntryMode(d: Dev): (r: Effect)
    ensures r.dev == d
    ensures ExecutesOnly(r.trace, EntryModeSet(!d.shiftRight, d.displayShift))
    ensures Framed(r.trace) && BacklightIs(r.trace, d.backlight)
  {
    Command(d, EntryModeByte(d.shiftRight, d.displayShift))
  }

  /** Re-sends the display, cursor and blink switches the record describes. */
  function WriteDisplaySwitch(d: Dev): (r: Effect)
    ensures r.dev == d
    ensures ExecutesOnly(r.trace, DisplayControl(d.displayEnable, d.cursor, d.blink))
    ensures Framed(r.trace) && BacklightIs(r.trace, d.backlight)
  {
    Command(d, DisplaySwitchByte(d.displayEnable, d.cursor, d.blink))
  }

  /** Turns display shift on write on or off, keeping the direction. */
  function SetDisplayShift(d: Dev, value: bool): (r: Effect)
    ensures r.dev == d.(displayShift := value)
    ensures ExecutesOnly(r.trace, EntryModeSet(!d.shiftRight, value))
    ensures Framed(r.trace) && BacklightIs(r.trace, d.backlight)
  {
    WriteEntryMode(d.(displayShift := value))
  }

  /** Chooses the entry direction: shift right means the address no longer increments. */
  function SetShiftRight(d: Dev, value: bool): (r: Effect)
    ensures r.dev == d.(shiftRight := value)
    ensures ExecutesOnly(r.trace, EntryModeSet(!value, d.displayShift))
    ensures Framed(r.trace) && BacklightIs(r.trace, d.backlight)
  {
    WriteEntryMode(d.(shiftRight := value))
  }

  /** Moves the cursor one cell; nothing is recorded. */
  function CursorShift(d: Dev, right: bool): (r: Effect)
    ensures r.dev == d
    ensures ExecutesOnly(r.trace, CursorOrDisplayShift(false, right))
    ensures Received(r.trace) == [Transfer.Command(CursorShiftByte(right))]
    ensures Framed(r.trace) && BacklightIs(r.trace, d.backlight)
  {
    Command(d, CursorShiftByte(right))
  }

  /** Shifts the whole display one cell; nothing is recorded. */
  function DisplayShift(d: Dev, right: bool): (r: Effect)
    ensures r.dev == d
    ensures ExecutesOnly(r.trace, CursorOrDisplayShift(true, right))
    ensures Received(r.trace) == [Transfer.Command(DisplayShiftByte(right))]
    ensures Framed(r.trace) && BacklightIs(r.trace, d.backlight)
  {
    Command(d, DisplayShiftByte(right))
  }

  /** The nibble that wakes the controller into 8-bit mode (D4 and D5 high). */
  function WakeFrame(): (b: bv8)
    ensures b == 0x30
    ensures LinesOf(b) == Nibble(false, 0x3) && !Bit(b, EN) && !Bit(b, WR)
  {
    PinInterpret(D5, PinInterpret(D4, 0, true), true)
  }

  /** The nibble that switches an 8-bit-mode controller to 4-bit mode (D5 high). */
  function FourBitFrame(): (b: bv8)
    ensures b == 0x20
    ensures LinesOf(b) == Nibble(false, 0x2) && !Bit(b, EN) && !Bit(b, WR)
  {
    PinInterpret(D4, WakeFrame(), false)
  }

  /**
   Construction: three wake-up strobes and the 4-bit switch, each a single
   nibble, then function set, display control, entry mode and clear
   through the normal instruction path. The backlight starts off and stays
   off throughout.
   */
  function MakeDev(opts: Opts): (r: Effect)
    ensures r.dev == PowerOnState(opts)
    ensures |r.trace| == 36
    ensures r.trace[..12] == [0x30, 0x34, 0x30, 0x30, 0x34, 0x30, 0x30, 0x34, 0x30, 0x20, 0x24, 0x20]
    ensures Latched(r.trace[..12]) == [Nibble(false, 0x3), Nibble(false, 0x3), Nibble(false, 0x3), Nibble(false, 0x2)]
    ensures Received(r.trace[12..])
            == [Transfer.Command(0x28), Transfer.Command(0x0F), Transfer.Command(0x06), Transfer.Command(0x01)]
    ensures Framed(r.trace[12..]) && Idle(r.trace)
    ensures BacklightIs(r.trace, false)
  {
    var d := PowerOnState(opts);
    var handshake := Handshake(d.backlight);
    var setup := Setup(d);
    assert (handshake + setup)[..12] == handshake && (handshake + setup)[12..] == setup;
    BacklightAppend(handshake, setup, false);
    Effect(d, handshake + setup)
  }

  /** The wake-up strobes and the 4-bit switch, one nibble each. */
  function Handshake(backlight: bool): (t: seq<bv8>)
    ensures |t| == 12 && Idle(t) && BacklightIs(t, backlight)
    ensures !backlight ==> t == [0x30, 0x34, 0x30, 0x30, 0x34, 0x30, 0x30, 0x34, 0x30, 0x20, 0x24, 0x20]
    ensures Latched(t) == [Nibble(false, 0x3), Nibble(false, 0x3), Nibble(false, 0x3), Nibble(false, 0x2)]
  {
    var wake := Transmit.Enable(backlight, WakeFrame());
    var four := Transmit.Enable(backlight, FourBitFrame());
    InitLatched(backlight);
    BacklightAppend(wake, wake, backlight);
    BacklightAppend(wake + wake, wake, backlight);
    BacklightAppend(wake + wake + wake, four, backlight);
    wake + wake + wake + four
  }

  /** Function set, display control, entry mode and clear, as instructions. */
  function Setup(d: Dev): (t: seq<bv8>)
    requires d == PowerOnState(d.opts)
    ensures |t| == 24 && Framed(t) && BacklightIs(t, d.backlight)
    ensures Received(t)
            == [Transfer.Command(0x28), Transfer.Command(0x0F), Transfer.Command(0x06), Transfer.Command(0x01)]
  {
    var f, s, e, c := Command(d, FunctionSetByte()).trace, WriteDisplaySwitch(d).trace,
                      WriteEntryMode(d).trace, Command(d, CmdClearDisplay).trace;
    InitReceived(d);
    BacklightAppend(f, s, d.backlight);
    BacklightAppend(f + s, e, d.backlight);
    BacklightAppend(f + s + e, c, d.backlight);
    f + s + e + c
  }

  /** The handshake strobes latch one nibble each. */
  lemma {:induction false} InitLatched(backlight: bool)
    ensures var wake := Transmit.Enable(backlight, WakeFrame());
            var four := Transmit.Enable(backlight, FourBitFrame());
            Latched(wake + wake + wake + four) == [Nibble(false, 0x3), Nibble(false, 0x3), Nibble(false, 0x3), Nibble(false, 0x2)]
              && Idle(wake + wake + wake + four)
  {
    var wake := Transmit.Enable(backlight, WakeFrame());
    var four := Transmit.Enable(backlight, FourBitFrame());
    Transmit.EnableLatched(backlight, WakeFrame());
    Transmit.EnableLatched(backlight, FourBitFrame());
    LatchedAppend(wake, wake);
    LatchedAppend(wake + wake, wake);
    LatchedAppend(wake + wake + wake, four);
  }

  /** The four set-up instructions arrive as four whole bytes. */
  lemma {:induction false} InitReceived(d: Dev)
    requires d == PowerOnState(d.opts)
    ensures var setup := Command(d, FunctionSetByte()).trace + WriteDisplaySwitch(d).trace
                         + WriteEntryMode(d).trace + Command(d, CmdClearDisplay).trace;
            Received(setup)
              == [Transfer.Command(0x28), Transfer.Command(0x0F), Transfer.Command(0x06), Transfer.Command(0x01)]
              && Framed(setup)
  {
    var f, s, e, c := Command(d, FunctionSetByte()).trace, WriteDisplaySwitch(d).trace,
                      WriteEntryMode(d).trace, Command(d, CmdClearDisplay).trace;
    assert Received(s) == [Transfer.Command(0x0F)];
    assert Received(e) == [Transfer.Command(0x06)];
    ReceivedAppend(f, s);
    ReceivedAppend(f + s, e);
    ReceivedAppend(f + s + e, c);
  }

  /** What the controller makes of the construction sequence. */
  lemma InitMeaning()
    ensures Decode(0x3 << 4) == FunctionSet(true, false, false)
    ensures Decode(0x2 << 4) == FunctionSet(false, false, false)
    ensures Decode(0x28) == FunctionSet(false, true, false)
    ensures Decode(0x0F) == DisplayControl(true, true, true)
    ensures Decode(0x06) == EntryModeSet(true, false)
    ensures Decode(0x01) == ClearDisplay
  {
  }

  /**
   Opens the display with the given options: the address is validated
   first, and on success the device is constructed with the options as
   given (an address of 0 stays 0 in the device's options).
   */
  function Open(o: Opts): (r: Result<(bv16, Effect), AddrError>)
    ensures r.Ok? <==> I2cAddr(o).Ok?
    ensures r.Ok? ==> r.value.0 == I2cAddr(o).value && ExpanderAddress(r.value.0)
    ensures r.Ok? ==> r.value.1 == MakeDev(o) && r.value.1.dev == PowerOnState(o)
  {
    var addr := I2cAddr(o);
    if addr.Err? then Err(addr.error) else Ok((addr.value, MakeDev(o)))
  }

  /** A missing options value means the default options, which open on address 0x27. */
  function NewI2C(opts: Option<Opts>): (r: Result<(bv16, Effect), AddrError>)
    ensures r == Open(if opts.Some? then opts.value else DefaultOpts)
    ensures opts.None? ==> r.Ok? && r.value.0 == 0x27
  {
    DefaultOptsValid();
    match opts
    case None => Open(DefaultOpts)
    case Some(o) => Open(o)
  }
}
