/**
 The driver's command and option constants and the pure maps from device
 flags (or a screen position) to the instruction byte it sends.
 */
module Commands {
  import opened Hd44780

  // Instruction codes
  const CmdClearDisplay: bv8 := 0x01
  const CmdReturnHome: bv8 := 0x02
  const CmdEntryMode: bv8 := 0x04
  const CmdDisplayControl: bv8 := 0x08
  const CmdCursorDisplayShift: bv8 := 0x10
  const CmdFunctionSet: bv8 := 0x20
  const CmdDdramSet: bv8 := 0x80

  // Option bits, each meaningful with the instruction named beside it
  const OptIncrement: bv8 := 0x02       // entry mode
  const OptCursorShift: bv8 := 0x01     // entry mode
  const OptEnableDisplay: bv8 := 0x04   // display control
  const OptEnableCursor: bv8 := 0x02    // display control
  const OptEnableBlink: bv8 := 0x01     // display control
  const OptDisplayShift: bv8 := 0x08    // cursor/display shift
  const OptShiftRight: bv8 := 0x04      // cursor/display shift; clear means left
  const Opt2Lines: bv8 := 0x08          // function set; clear means one line
  const Opt5x10Dots: bv8 := 0x04        // function set; clear means 5x8 dots

  /**
   The entry-mode byte: the address increments unless the device shifts
   right, and the display shifts on write when display shift is on.
   */
  function EntryModeByte(shiftRight: bool, displayShift: bool): (b: bv8)
    ensures Decode(b) == EntryModeSet(!shiftRight, displayShift)
    ensures b & 0xFC == CmdEntryMode
  {
    CmdEntryMode
      | (if shiftRight then 0 else OptIncrement)
      | (if displayShift then OptCursorShift else 0)
  }

  /** The display-control byte carries the three switches unchanged. */
  function DisplaySwitchByte(display: bool, cursor: bool, blink: bool): (b: bv8)
    ensures Decode(b) == DisplayControl(display, cursor, blink)
    ensures b & 0xF8 == CmdDisplayControl
  {
    CmdDisplayControl
      | (if display then OptEnableDisplay else 0)
      | (if cursor then OptEnableCursor else 0)
      | (if blink then OptEnableBlink else 0)
  }

  /** A one-shot move of the cursor one cell left or right. */
  function CursorShiftByte(right: bool): (b: bv8)
    ensures Decode(b) == CursorOrDisplayShift(false, right)
    ensures b & 0xF3 == CmdCursorDisplayShift
  {
    CmdCursorDisplayShift | (if right then OptShiftRight else 0)
  }

  /** A one-shot shift of the whole display one cell left or right. */
  function DisplayShiftByte(right: bool): (b: bv8)
    ensures Decode(b) == CursorOrDisplayShift(true, right)
    ensures b & 0xF3 == CmdCursorDisplayShift
  {
    CmdCursorDisplayShift | OptDisplayShift | (if right then OptShiftRight else 0)
  }

  /** The function-set byte sent at initialization: 4-bit bus, two lines, 5x8 font. */
  function FunctionSetByte(): (b: bv8)
    ensures Decode(b) == FunctionSet(false, true, false)
    ensures b & 0x03 == 0
  {
    CmdFunctionSet | Opt2Lines
  }

  /** First display-memory address of lines 1 to 4. */
  const LineBase: seq<bv8> := [0x00, 0x40, 0x10, 0x50]

  /**
   The display-memory address of column `pos` on `line`: the line's base
   plus the column, wrapping like a byte sum; any line outside 1..4 maps to 0.
   */
  function DdramAddress(line: bv8, pos: bv8): (a: bv8)
    ensures 1 <= line <= 4 ==> a == LineBase[line - 1] + pos
    ensures !(1 <= line <= 4) ==> a == 0
  {
    match line
    case 1 => pos
    case 2 => 0x40 + pos
    case 3 => 0x10 + pos
    case 4 => 0x50 + pos
    case _ => 0
  }

  /** The set-address command for a position. The addition wraps like a Go byte. */
  function PositionByte(line: bv8, pos: bv8): (b: bv8)
    ensures b as int == (0x80 + DdramAddress(line, pos) as int) % 256
    ensures DdramAddress(line, pos) < 0x80 ==> Decode(b) == SetDdramAddress(DdramAddress(line, pos))
  {
    CmdDdramSet + DdramAddress(line, pos)
  }

  /**
   On a 16-column display every cell of lines 1 to 4 has its own address:
   the four 16-cell windows at 0x00, 0x40, 0x10 and 0x50 do not overlap.
   */
  lemma DdramAddressInjective(l1: bv8, p1: bv8, l2: bv8, p2: bv8)
    requires 1 <= l1 <= 4 && 1 <= l2 <= 4 && p1 < 16 && p2 < 16
    requires DdramAddress(l1, p1) == DdramAddress(l2, p2)
    ensures l1 == l2 && p1 == p2
  {
  }

  /**
   The column one past the last on line 1 of a 16-column display is the
   first cell of line 3.
   */
  lemma LineOneOverflowsIntoLineThree()
    ensures DdramAddress(1, 16) == DdramAddress(3, 0)
  {
  }

  /**
   On a 20-column display the bases 0x10 and 0x50 overlap lines 1 and 2:
   columns 16 to 19 of line 1 (or 2) share their addresses with columns
   0 to 3 of line 3 (or 4).
   */
  lemma TwentyColumnAliasing(pos: bv8)
    requires 16 <= pos < 20
    ensures DdramAddress(1, pos) == DdramAddress(3, pos - 16)
    ensures DdramAddress(2, pos) == DdramAddress(4, pos - 16)
  {
  }
}
