/**
 The bit packer: the expander's eight output lines and the operation that
 drives one of them while leaving the other seven alone.
 */
module Pins {

  /** Expander output bits as wired on the backpack. */
  const RS: bv8 := 0         // register select: 0 = instruction, 1 = character data
  const WR: bv8 := 1         // read/write, always low (write) in this driver
  const EN: bv8 := 2         // enable strobe
  const BACKLIGHT: bv8 := 3  // backlight transistor
  const D4: bv8 := 4
  const D5: bv8 := 5
  const D6: bv8 := 6
  const D7: bv8 := 7

  /** Bit `i` of `b`, counting from the least significant bit. */
  predicate Bit(b: bv8, i: bv8)
    requires i < 8
  {
    (b >> i) & 1 == 1
  }

  /**
   Drives line `pin` of `data` high (`value`) or low. Like a Go shift of a
   byte, a shift by eight or more yields an all-zero mask, so an
   out-of-range pin leaves the byte as it was.
   */
  function PinInterpret(pin: bv8, data: bv8, value: bool): (r: bv8)
    ensures pin < 8 ==> Bit(r, pin) == value
    ensures forall i: bv8 :: i < 8 && i != pin ==> Bit(r, i) == Bit(data, i)
    ensures 8 <= pin ==> r == data
  {
    var mask: bv8 := if pin < 8 then 1 << pin else 0;
    if value then data | mask else data & (mask ^ 0xFF)
  }

  /** Driving a line to the level it already has changes nothing. */
  lemma PinInterpretIdempotent(pin: bv8, data: bv8, value: bool)
    ensures PinInterpret(pin, PinInterpret(pin, data, value), value) == PinInterpret(pin, data, value)
  {
  }
}
