/**
 Sequences of driver calls on one device: the bytes they write and the
 settings they leave behind, in particular the backlight line, which every
 byte re-applies from the recorded setting.
 */
module Session {
  import opened Pins
  import opened Results
  import opened Options
  import opened Hd44780
  import Device
  import Transmit

  /** The public operations of a constructed device. */
  datatype Call =
    | SetBacklight(on: bool)
    | Clear
    | Home
    | Halt
    | SetPosition(line: bv8, pos: bv8)
    | Write(buf: seq<bv8>)
    | WriteChar(c: bv8)
    | WriteCell(c: bv8)
    | SetDisplayShift(value: bool)
    | SetShiftRight(value: bool)
    | CursorShift(right: bool)
    | DisplayShift(right: bool)

  /** Calls that leave the backlight setting alone. */
  predicate KeepsBacklight(c: Call) {
    !c.SetBacklight? && !c.Halt?
  }

  /** Calls that leave the entry-mode settings alone. */
  predicate KeepsEntryMode(c: Call) {
    !c.SetDisplayShift? && !c.SetShiftRight?
  }

  /** One call; a refused position writes nothing and changes nothing. */
  function Step(d: Device.Dev, c: Call): (r: Device.Effect)
    ensures r.dev.opts == d.opts && Framed(r.trace)
    ensures c.SetPosition? && Device.SetPosition(d, c.line, c.pos).Err? ==> r == Device.Effect(d, [])
  {
    match c
    case SetBacklight(on) => Device.SetBacklight(d, on)
    case Clear => Device.Clear(d)
    case Home => Device.Home(d)
    case Halt => Device.Halt(d)
    case SetPosition(line, pos) =>
      (match Device.SetPosition(d, line, pos)
       case Ok(e) => e
       case Err(_) => Device.Effect(d, []))
    case Write(buf) => Device.Write(d, buf).1
    case WriteChar(ch) => Device.WriteChar(d, ch)
    case WriteCell(ch) => Device.WriteCell(d, ch)
    case SetDisplayShift(v) => Device.SetDisplayShift(d, v)
    case SetShiftRight(v) => Device.SetShiftRight(d, v)
    case CursorShift(right) => Device.CursorShift(d, right)
    case DisplayShift(right) => Device.DisplayShift(d, right)
  }

  /**
   A call other than a backlight setting or shutdown keeps the backlight
   setting and re-applies it on every byte; a setting applies the new level.
   */
  lemma StepBacklight(d: Device.Dev, c: Call)
    ensures KeepsBacklight(c) ==> Step(d, c).dev.backlight == d.backlight && BacklightIs(Step(d, c).trace, d.backlight)
    ensures c.SetBacklight? ==> Step(d, c).dev.backlight == c.on && BacklightIs(Step(d, c).trace, c.on)
  {
  }

  /** Only the two entry-mode setters change the shift settings. */
  lemma StepEntryMode(d: Device.Dev, c: Call)
    requires KeepsEntryMode(c)
    ensures Step(d, c).dev.displayShift == d.displayShift && Step(d, c).dev.shiftRight == d.shiftRight
  {
  }

  /** No call changes the display, cursor or blink switches. */
  lemma StepDisplaySwitches(d: Device.Dev, c: Call)
    ensures var e := Step(d, c).dev;
            e.displayEnable == d.displayEnable && e.cursor == d.cursor && e.blink == d.blink
  {
  }

  /**
   Calls in order: the final device and every byte written. The trace
   always leaves the controller between bytes, so what it receives is
   what each call sends, one after another.
   */
  function Run(d: Device.Dev, calls: seq<Call>): (r: Device.Effect)
    ensures r.dev.opts == d.opts && Framed(r.trace)
    decreases |calls|
  {
    if calls == [] then Device.Effect(d, [])
    else
      var first := Step(d, calls[0]);
      var rest := Run(first.dev, calls[1..]);
      ReceivedAppend(first.trace, rest.trace);
      Device.Effect(rest.dev, first.trace + rest.trace)
  }

  /** The controller receives each call's bytes in call order. */
  lemma RunReceived(d: Device.Dev, calls: seq<Call>)
    requires calls != []
    ensures Received(Run(d, calls).trace)
            == Received(Step(d, calls[0]).trace) + Received(Run(Step(d, calls[0]).dev, calls[1..]).trace)
  {
    ReceivedAppend(Step(d, calls[0]).trace, Run(Step(d, calls[0]).dev, calls[1..]).trace);
  }

  /**
   Until the backlight is set again, every byte written carries the
   recorded backlight level: no transfer switches it off or on.
   */
  lemma {:induction false} BacklightPersists(d: Device.Dev, calls: seq<Call>)
    requires forall i :: 0 <= i < |calls| ==> KeepsBacklight(calls[i])
    ensures Run(d, calls).dev.backlight == d.backlight
    ensures BacklightIs(Run(d, calls).trace, d.backlight)
    decreases |calls|
  {
    if calls != [] {
      var first := Step(d, calls[0]);
      StepBacklight(d, calls[0]);
      BacklightPersists(first.dev, calls[1..]);
      BacklightAppend(first.trace, Run(first.dev, calls[1..]).trace, d.backlight);
    }
  }

  /** After setting the backlight, every byte carries the new level until the next setting. */
  lemma BacklightFollowsSetting(d: Device.Dev, on: bool, calls: seq<Call>)
    requires forall i :: 0 <= i < |calls| ==> KeepsBacklight(calls[i])
    ensures Run(d, [SetBacklight(on)] + calls).dev.backlight == on
    ensures BacklightIs(Run(d, [SetBacklight(on)] + calls).trace, on)
  {
    var all := [SetBacklight(on)] + calls;
    assert all[0] == SetBacklight(on) && all[1..] == calls;
    var first := Step(d, all[0]);
    StepBacklight(d, all[0]);
    BacklightPersists(first.dev, calls);
    BacklightAppend(first.trace, Run(first.dev, calls).trace, on);
  }

  /**
   The display, cursor and blink switches keep their construction values,
   and the entry-mode settings change only through their two setters.
   */
  lemma {:induction false} SettingsPersist(d: Device.Dev, calls: seq<Call>)
    requires forall i :: 0 <= i < |calls| ==> KeepsEntryMode(calls[i])
    ensures var e := Run(d, calls).dev;
            && e.displayShift == d.displayShift && e.shiftRight == d.shiftRight
            && e.displayEnable == d.displayEnable && e.cursor == d.cursor && e.blink == d.blink
    decreases |calls|
  {
    if calls != [] {
      StepEntryMode(d, calls[0]);
      StepDisplaySwitches(d, calls[0]);
      SettingsPersist(Step(d, calls[0]).dev, calls[1..]);
    }
  }

  /**
   On a freshly constructed default display, writing "A" sends the
   nibbles 4 and 1 with RS high and the backlight off, and changes nothing.
   */
  lemma WriteAfterInit()
    ensures var d := Device.PowerOnState(DefaultOpts);
            && Run(d, [Write([0x41])]).trace == [0x41, 0x45, 0x41, 0x11, 0x15, 0x11]
            && Run(d, [Write([0x41])]).dev == d
  {
    var d := Device.PowerOnState(DefaultOpts);
    var calls := [Write([0x41])];
    assert calls[0] == Write([0x41]) && calls[1..] == [];
    var first := Step(d, Write([0x41]));
    assert first.dev == d;
    assert first.trace == Transmit.SendData(false, [0x41]);
    assert Run(d, calls) == Device.Effect(d, first.trace + []);
    SingleLetter(false, 0x41);
    LetterAFrames();
  }

  /** A one-byte buffer is sent as that byte alone. */
  lemma SingleLetter(backlight: bool, c: bv8)
    ensures Transmit.SendData(backlight, [c]) == Transmit.SendByte(backlight, c, false)
  {
    assert [c][1..] == [];
  }

  /** The two strobes of "A" (0x41) with the backlight off. */
  lemma LetterAFrames()
    ensures Transmit.SendByte(false, 0x41, false) == [0x41, 0x45, 0x41, 0x11, 0x15, 0x11]
  {
    assert Transmit.NibbleFrame(0x4, false) == 0x41 && Transmit.NibbleFrame(0x1, false) == 0x11;
    assert Transmit.Enable(false, 0x41) == [0x41, 0x45, 0x41];
    assert Transmit.Enable(false, 0x11) == [0x11, 0x15, 0x11];
  }
}
