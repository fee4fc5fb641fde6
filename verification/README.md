# lcd1602 protocol core in Dafny

This project models the protocol core of `lcd1602`, a Go driver for an
HD44780-compatible character LCD wired in 4-bit mode behind an 8-bit I2C
GPIO expander (the common "I2C backpack"). The driver does all of its work
by writing bytes to expander register 0. The model is therefore a set of
pure functions. Each one maps the driver's record of the controller
settings (`Dev`) and an operation to the new record and the exact
sequence of expander bytes written (an `Effect`).

Modules, leaves first:

- `Pins` (`pins.dfy`): the expander's output lines and `PinInterpret`, the bit packer.
- `Hd44780` (`hd44780.dfy`): the receiving side, used as the reference
  that the driver's traces are checked against. A nibble (RS and D4–D7) is
  latched when a write drops the enable line. In 4-bit mode the nibbles
  pair up into `Command`/`Data` transfers. `Decode` gives an instruction
  byte its meaning. It is written from the instruction table of the Hitachi
  HD44780U datasheet, not from the driver's constants.
- `Commands` (`commands.dfy`): the command and option constants, and the
  pure maps from flags or a position to an instruction byte.
- `Transmit` (`transmit.dfy`): the enable strobe and the two-nibble byte transmitter.
- `Options` (`options.dfy`): `Opts`, `DefaultOpts` and address normalisation.
- `Device` (`device.dfy`): `Dev`, every public operation, the construction sequence and `NewI2C`.
- `Session` (`session.dfy`): sequences of calls. It proves that the
  backlight level persists and that only the two setters change the
  mirrored settings.
- `Results` (`results.dfy`): `Option` and `Result`.

Bytes are `bv8`, so the Go byte arithmetic wraps exactly as it does in Go.
The I2C address is a `bv16` (Go `uint16`). Instead of restating how each
operation's bytes are built, most contracts say what the controller
receives (`Received`, `ExecutesOnly`) and which line levels every byte
carries (`BacklightIs`).

Behaviour of the code worth knowing:

- The backlight starts off. `backlight_state` is a zero-valued Go field, and construction never switches it on.
- Results of bus writes are discarded. No operation reports a bus failure.
- `SetPosition` accepts a column equal to the column count, and line 0.
  Line 0, and any other line outside 1..4 that passes the check, goes to
  address 0 whatever the column.
- Setting shift-right alone does not set the entry-mode shift bit. That
  bit follows the display-shift flag only.
- The construction delays are 200/100/100/10 ms. Delays are not modelled.
- The line bases 0x00/0x40/0x10/0x50 suit 16-column modules. On a 20x4 module, whose rows 3 and 4 start at 0x14/0x54, the driver's lines 3 and 4 start four cells early: their columns 0-3 write to columns 16-19 of lines 1 and 2, and their later columns land four cells to the left.

## Model

| member | source | states |
|---|---|---|
| Pins.PinInterpret | lcd1602.go:293-304 | for a pin below 8, sets that bit exactly when `value` is true; every other bit is copied from `data`; a pin of 8 or more leaves the byte unchanged (the Go shift yields a zero mask) |
| Pins.PinInterpretIdempotent | lcd1602.go:293-304 | driving a line a second time to the same level gives the same byte |
| Hd44780.PulseLatchesOnce | lcd1602.go:285-289 | a low, high, low enable sequence on a write byte makes the controller latch that byte's RS and D4-D7 exactly once |
| Hd44780.LatchedAppend | lcd1602.go:278-290 | since every strobe ends with enable low, nothing is latched across the boundary between two consecutive writes |
| Hd44780.ReceivedAppend | lcd1602.go:243-276 | what the controller receives from two back-to-back framed traces is what it receives from each, in order |
| Transmit.Enable | lcd1602.go:278-290 | exactly three bytes `b, b|0x04, b`, where `b` is the input with bit 3 forced to the backlight level; EN is raised only in the middle byte (given EN clear in the input) |
| Transmit.NibbleFrame | lcd1602.go:246-256 | the frame carries the nibble on D4-D7 (bits 4-7) and RS set exactly for data; R/W, EN and backlight are low |
| Transmit.SendByte | lcd1602.go:243-276 | six bytes in two well-formed strobes; the first base byte carries bits 4-7 of the value and the second carries bits 0-3; RS set exactly for data; R/W and EN clear in each base byte; the backlight level is on every byte |
| Transmit.SendByteLatched | lcd1602.go:243-276 | the controller latches exactly the high nibble and then the low nibble, tagged with RS = not command |
| Transmit.SendByteReceived | lcd1602.go:243-276 | the controller reassembles exactly the byte sent, as an instruction or as data |
| Transmit.Command | lcd1602.go:237-239 | the controller receives exactly one instruction with this code, and the trace ends framed |
| Transmit.Data | lcd1602.go:253-256 | the controller receives exactly one data byte with this value |
| Transmit.SendData | lcd1602.go:130-136 | six bytes per character, all at the backlight level, ending framed |
| Transmit.SendDataReceived | lcd1602.go:130-136 | the controller receives the buffer, byte for byte and in order, as character data |
| Commands.EntryModeByte | lcd1602.go:226-235 | decodes to an entry-mode instruction with increment set exactly when not shifting right and display shift set exactly when display shift is on |
| Commands.DisplaySwitchByte | lcd1602.go:194-207 | decodes to display control with the display, cursor and blink switches as given |
| Commands.CursorShiftByte | lcd1602.go:217-224 | decodes to a cursor move (not a display shift) in the given direction; the byte is `0x10`, plus `0x04` when moving right |
| Commands.DisplayShiftByte | lcd1602.go:209-215 | decodes to a whole-display shift in the given direction; the byte is `0x18`, plus `0x04` when shifting right |
| Commands.FunctionSetByte | lcd1602.go:176 | decodes to function set with a 4-bit bus, two lines and the 5x8 font, with the two unused low bits clear |
| Commands.DdramAddress | lcd1602.go:115-125 | for lines 1 to 4, the base from the table 0x00/0x40/0x10/0x50 plus the column, wrapping as a byte; any other line maps to 0 |
| Commands.PositionByte | lcd1602.go:126 | the command is `(0x80 + address) mod 256`; when the address is below 0x80 it decodes to set-DDRAM-address with that address |
| Commands.DdramAddressInjective | lcd1602.go:115-125 | on a 16-column display, distinct cells of lines 1 to 4 get distinct addresses |
| Commands.LineOneOverflowsIntoLineThree | lcd1602.go:112-125 | line 1 column 16, which the bound check admits, is the same address as line 3 column 0 |
| Commands.TwentyColumnAliasing | lcd1602.go:115-125 | on a 20-column display, columns 16-19 of lines 1 and 2 have the addresses of columns 0-3 of lines 3 and 4, because the bases are 0x10/0x50 rather than the 0x14/0x54 of 20x4 modules |
| Options.I2cAddr | lcd1602_options.go:28-38 | 0 normalises to 0x27; each of 0x20..0x27 is returned unchanged; every other value is an error; every success lies in 0x20..0x27 |
| Options.I2cAddrIdempotent | lcd1602_options.go:28-38 | re-normalising a normalised address returns it unchanged |
| Options.DefaultOptsValid | lcd1602_options.go:21-26 | the defaults have address 0x27, which normalisation accepts, and 2 lines of 16 columns |
| Device.PowerOnState | lcd1602.go:149-158 | display, cursor and blink on; backlight, display shift and shift-right off; options kept |
| Device.Command | lcd1602.go:237-239 | the device record is unchanged, and the controller receives exactly that instruction byte |
| Device.SetBacklight | lcd1602.go:95-98 | exactly one byte, 0x08 when on and 0x00 when off; no strobe, so nothing is latched; only the backlight flag changes |
| Device.Clear | lcd1602.go:100-102 | the controller executes exactly a clear-display; the record is unchanged |
| Device.Home | lcd1602.go:104-106 | the controller executes exactly a return-home; the record is unchanged |
| Device.Halt | lcd1602.go:88-93 | a clear at the old backlight level followed by a single 0x00 byte; only the backlight flag changes, to off |
| Device.SetPosition | lcd1602.go:108-128 | refused with no bytes written exactly when the line exceeds the line count or the column exceeds the column count (equal is accepted); otherwise exactly the position command is received and the record is unchanged |
| Device.Write | lcd1602.go:130-136 | reports the buffer length; the controller receives every byte as data, in order; the record is unchanged |
| Device.WriteChar | lcd1602.go:138-142 | the controller receives the character as data, then a cursor-left move |
| Device.WriteCell | lcd1602.go:240-242 | the controller receives one data byte that has bit 6 set and agrees with the argument on every other bit |
| Device.WriteEntryMode | lcd1602.go:226-235 | the controller executes exactly the entry mode the record describes |
| Device.WriteDisplaySwitch | lcd1602.go:194-207 | the controller executes exactly the display control the record describes |
| Device.SetDisplayShift | lcd1602.go:184-187 | only the display-shift flag changes, and the controller executes the resulting entry mode |
| Device.SetShiftRight | lcd1602.go:189-192 | only the shift-right flag changes, and the controller executes the resulting entry mode, with increment cleared when shifting right |
| Device.CursorShift | lcd1602.go:217-224 | the controller executes a cursor move in the given direction; no flag changes |
| Device.DisplayShift | lcd1602.go:209-215 | the controller executes a display shift in the given direction; no flag changes |
| Device.WakeFrame | lcd1602.go:161-163 | the wake-up frame is 0x30: nibble 3 with RS, R/W and EN low |
| Device.FourBitFrame | lcd1602.go:172 | the 4-bit switch frame is 0x20: nibble 2 with RS, R/W and EN low |
| Device.Handshake | lcd1602.go:160-174 | four strobes, each latching a single nibble (3, 3, 3, 2); with the backlight off the bytes are `30 34 30` three times, then `20 24 20` |
| Device.InitLatched | lcd1602.go:160-174 | the handshake latches exactly the nibbles 3, 3, 3, 2 and leaves enable low |
| Device.Setup | lcd1602.go:176-180 | the four set-up instructions 0x28, 0x0F, 0x06, 0x01 arrive as whole bytes, in that order |
| Device.InitReceived | lcd1602.go:176-180 | function set, display control, entry mode and clear are received in order from the power-on record |
| Device.MakeDev | lcd1602.go:148-182 | the power-on record; 36 bytes, all with the backlight bit clear; the handshake bytes and nibbles, then the four set-up instructions |
| Device.InitMeaning | lcd1602.go:160-180 | the handshake nibbles mean 8-bit then 4-bit function set; the set-up bytes mean 4-bit two-line function set, display/cursor/blink on, increment without shift, clear |
| Device.Open | lcd1602.go:76-84 | fails exactly when the address does not normalise; on success it returns the normalised address and the constructed device, which keeps the options as given |
| Device.NewI2C | lcd1602.go:72-85 | missing options mean the defaults, which open on address 0x27 |
| Session.Step | lcd1602.go:88-242 | every public call keeps the options and leaves the controller between bytes; a refused position writes nothing and changes nothing |
| Session.StepBacklight | lcd1602.go:278-284 | apart from setting the backlight or halting, a call keeps the backlight flag and puts it on every byte; a setting puts the new level on its byte |
| Session.StepEntryMode | lcd1602.go:184-192 | only the two entry-mode setters change the display-shift and shift-right flags |
| Session.StepDisplaySwitches | lcd1602.go:194-207 | no call changes the display, cursor or blink flags; they are only read, to build the display-control byte |
| Session.Run | lcd1602.go:88-242 | any call sequence keeps the options and leaves the controller between bytes |
| Session.RunReceived | lcd1602.go:237-276 | what the controller receives from a call sequence is the first call's transfers followed by those of the remaining calls |
| Session.BacklightPersists | lcd1602.go:278-284 | with no backlight setting or halt in a sequence, every byte written carries the recorded backlight level and the flag is unchanged |
| Session.BacklightFollowsSetting | lcd1602.go:95-98 | after `SetBacklight(on)`, every byte carries `on` until the next setting |
| Session.SettingsPersist | lcd1602.go:184-192 | across any sequence without the two setters, all mirrored display and entry settings are unchanged |
| Session.WriteAfterInit | lcd1602.go:130-136 | on a freshly constructed default display, writing "A" emits `41 45 41 11 15 11`: nibbles 4 and 1 with RS set and the backlight off; the record is unchanged |

## Left out

- Delays: every `time.Sleep` (the 40 µs strobe holds, the construction waits and the per-character `CharDelay`) is wall-clock timing and is not in the trace. `Opts` therefore has no `CharDelay` field.
- Logging through logrus and `String()`: side output with no effect on the bus.
- The periph `i2c.Dev`, `mmr.Dev8` and `conn.Conn` plumbing. Each `WriteUint8(0, b)` becomes an append of `b` to the trace. `Open` returns the bus address the connection would use instead of opening one.
- Bus write failures: the code discards every `WriteUint8` result. `Write`, `WriteChar` and `Halt` always succeed, so no failure path is modelled.
- `isSPI`: set at construction and never read.
- `Right()`: a getter that returns the column count and writes nothing.
- Device.SetPosition: the Go error values are formatted strings, and both print the line and the I2C address (the column error never prints the column). The model keeps which bound was exceeded and the rejected argument.
- Device.NewI2C: the Go error message wrapping of an address failure is not modelled. Only the failure itself is.
- Device.NewI2C: the model fixes `DefaultOpts` at its initial value (address 0x27, 2 lines, 16 columns), although Go makes it an exported package variable that callers may reassign before calling `NewI2C(nil)`; the promise that a missing options value opens on 0x27 holds only while it keeps that value.
