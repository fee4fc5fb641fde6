/** Construction options and validation of the expander's I2C address. */
module Options {
  import opened Results

  /** Bus address (a Go uint16), line count and column count of the display. */
  datatype Opts = Opts(i2cAddr: bv16, lines: bv8, cols: bv8)

  /** A 16x2 display on the backpack's factory address. */
  const DefaultOpts := Opts(0x27, 2, 16)

  datatype AddrError = UnsupportedAddress

  /** The address the expander answers on when none is configured. */
  const DefaultAddr: bv16 := 0x27

  /** The address range the expander's three address pins can select. */
  predicate ExpanderAddress(a: bv16) {
    0x20 <= a <= 0x27
  }

  /**
   Normalises the configured address: 0 selects the default, the eight
   expander addresses pass through, anything else is refused.
   */
  function I2cAddr(o: Opts): (r: Result<bv16, AddrError>)
    ensures o.i2cAddr == 0 ==> r == Ok(DefaultAddr)
    ensures ExpanderAddress(o.i2cAddr) ==> r == Ok(o.i2cAddr)
    ensures r.Ok? <==> o.i2cAddr == 0 || ExpanderAddress(o.i2cAddr)
    ensures r.Ok? ==> ExpanderAddress(r.value)
  {
    match o.i2cAddr
    case 0 => Ok(0x27)
    case 0x20 | 0x21 | 0x22 | 0x23 | 0x24 | 0x25 | 0x26 | 0x27 => Ok(o.i2cAddr)
    case _ => Err(UnsupportedAddress)
  }

  /** A normalised address normalises to itself. */
  lemma I2cAddrIdempotent(o: Opts)
    requires I2cAddr(o).Ok?
    ensures I2cAddr(o.(i2cAddr := I2cAddr(o).value)) == I2cAddr(o)
  {
  }

  /** The default options are accepted as they stand. */
  lemma DefaultOptsValid()
    ensures I2cAddr(DefaultOpts) == Ok(0x27)
    ensures DefaultOpts.lines == 2 && DefaultOpts.cols == 16
  {
  }
}
