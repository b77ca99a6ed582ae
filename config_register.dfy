/** The MCP3421's one configuration register: the gain, resolution and mode
    codes, and the packing of the five register fields into one byte.

    The C++ header declares the register as a bit-field struct and reads and
    writes it by reinterpreting its storage as a byte. C++ leaves the order of
    bit-fields to the compiler; this model ASSUMES the least-significant-bit
    first allocation GCC uses on the Arduino targets, which is also the bit
    layout of the device register:
      bits 0-1 gain, bits 2-3 resolution, bit 4 mode, bits 5-6 unused, bit 7 ready. */
module ConfigRegister {

  /** A one-bit field value. */
  type Bits1 = b: bv8 | b < 2
  /** A two-bit field value. */
  type Bits2 = b: bv8 | b < 4

  /** Programmable gain amplifier setting. */
  datatype Gain = Gain1X | Gain2X | Gain4X | Gain8X

  /** Sample resolution (each implies a fixed sample rate on the device). */
  datatype Resolution = Res12Bit | Res14Bit | Res16Bit | Res18Bit

  /** Conversion mode. */
  datatype Mode = Continuous | OneShot

  /** The register code of each gain. */
  function GainCode(g: Gain): (r: Bits2)
    ensures r == 0x00 <==> g == Gain1X
    ensures r == 0x01 <==> g == Gain2X
    ensures r == 0x02 <==> g == Gain4X
    ensures r == 0x03 <==> g == Gain8X
  {
    match g
    case Gain1X => 0
    case Gain2X => 1
    case Gain4X => 2
    case Gain8X => 3
  }

  /** The gain a two-bit field holds (the `static_cast` of a getter). */
  function GainOf(code: Bits2): (g: Gain)
    ensures GainCode(g) == code
  {
    if code == 0 then Gain1X
    else if code == 1 then Gain2X
    else if code == 2 then Gain4X
    else Gain8X
  }

  /** The register code of each resolution. */
  function ResolutionCode(r: Resolution): (code: Bits2)
    ensures code == 0x00 <==> r == Res12Bit
    ensures code == 0x01 <==> r == Res14Bit
    ensures code == 0x02 <==> r == Res16Bit
    ensures code == 0x03 <==> r == Res18Bit
  {
    match r
    case Res12Bit => 0
    case Res14Bit => 1
    case Res16Bit => 2
    case Res18Bit => 3
  }

  /** The resolution a two-bit field holds. */
  function ResolutionOf(code: Bits2): (r: Resolution)
    ensures ResolutionCode(r) == code
    ensures r == Res18Bit <==> code == 0x03
  {
    if code == 0 then Res12Bit
    else if code == 1 then Res14Bit
    else if code == 2 then Res16Bit
    else Res18Bit
  }

  /** The register code of each mode: continuous is 1, one-shot is 0. */
  function ModeCode(m: Mode): (r: Bits1)
    ensures r == 0x01 <==> m == Continuous
    ensures r == 0x00 <==> m == OneShot
  {
    match m
    case Continuous => 1
    case OneShot => 0
  }

  /** The mode a one-bit field holds. */
  function ModeOf(code: Bits1): (m: Mode)
    ensures ModeCode(m) == code
  {
    if code == 1 then Continuous else OneShot
  }

  lemma CodesRoundTrip(g: Gain, r: Resolution, m: Mode)
    ensures GainOf(GainCode(g)) == g
    ensures ResolutionOf(ResolutionCode(r)) == r
    ensures ModeOf(ModeCode(m)) == m
  {
  }

  /** The five fields of the register, each within its width. */
  datatype Config = Config(gain: Bits2, resolution: Bits2, mode: Bits1, unused: Bits2, ready: Bits1)


  /** Packs the fields into the register byte. (In Dafny `|` binds tighter
      than `<<`, hence the parentheses.) */
  function Encode(c: Config): (b: bv8)
    ensures b & 0x03 == c.gain
    ensures (b >> 2) & 0x03 == c.resolution
    ensures (b >> 4) & 0x01 == c.mode
    ensures (b >> 5) & 0x03 == c.unused
    ensures b >> 7 == c.ready
  {
    c.gain | (c.resolution << 2) | (c.mode << 4) | (c.unused << 5) | (c.ready << 7)
  }

  /** Unpacks a register byte into its fields; no bit is lost. */
  function Decode(b: bv8): (c: Config)
    ensures Encode(c) == b
  {
    Config(b & 0x03, (b >> 2) & 0x03, (b >> 4) & 0x01, (b >> 5) & 0x03, b >> 7)
  }

  /** The register as the constructor leaves it: every field zero, so the
      register byte is 0x00. */
  function Cleared(): (c: Config)
    ensures Encode(c) == 0x00
  {
    Config(0, 0, 0, 0, 0)
  }

  lemma DecodeEncode(c: Config)
    ensures Decode(Encode(c)) == c
  {
  }

  lemma EncodeInjective(c: Config, d: Config)
    requires Encode(c) == Encode(d)
    ensures c == d
  {
    DecodeEncode(c);
    DecodeEncode(d);
  }

  lemma ClearedIsZero()
    ensures Decode(0x00) == Cleared()
    ensures GainOf(Cleared().gain) == Gain1X && ResolutionOf(Cleared().resolution) == Res12Bit
    ensures ModeOf(Cleared().mode) == OneShot
  {
  }
}
