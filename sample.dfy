/** The decode step of `readADC`: the buffered sample bytes and the
    resolution field give a signed 32-bit reading. The arithmetic is that of a
    32-bit `int` (the model ASSUMES a 32-bit `int`; on a 16-bit `int` target
    `adc_data[0] << 16` is undefined) and of GCC's modulo conversion of an
    out-of-range value to a signed type. */
module SampleDecode {
  import opened ConfigRegister

  /** The signed value of an unsigned `n` of 16 bits, read in two's complement. */
  function Signed16(n: int): (r: int)
    requires 0 <= n < 0x1_0000
    ensures -0x8000 <= r < 0x8000
    ensures r % 0x1_0000 == n
  {
    if n < 0x8000 then n else n - 0x1_0000
  }

  /** The signed value of an unsigned `n` of 32 bits, read in two's complement. */
  function Signed32(n: int): (r: int)
    requires 0 <= n < 0x1_0000_0000
    ensures -0x8000_0000 <= r < 0x8000_0000
    ensures r % 0x1_0000_0000 == n
  {
    if n < 0x8000_0000 then n else n - 0x1_0000_0000
  }

  /** `static_cast<int16_t>` of a 16-bit pattern (GCC reduces modulo 2^16). */
  function Int16Of(w: bv16): (r: int)
    ensures -0x8000 <= r < 0x8000
    ensures r % 0x1_0000 == w as int
  {
    Signed16(w as int)
  }

  /** The value of a 32-bit pattern held in an `int32_t`. */
  function Int32Of(w: bv32): (r: int)
    ensures -0x8000_0000 <= r < 0x8000_0000
    ensures r % 0x1_0000_0000 == w as int
  {
    Signed32(w as int)
  }

  /** The 18-bit two's-complement value of the low 18 bits of `n`. */
  function SignExtend18(n: nat): (r: int)
    ensures -0x2_0000 <= r < 0x2_0000
    ensures r % 0x4_0000 == n % 0x4_0000
  {
    var low := n % 0x4_0000;
    if low < 0x2_0000 then low else low - 0x4_0000
  }

  /** `(hi << 8) | lo`: the OR of non-overlapping shifted bytes is their weighted sum. */
  lemma Join16(hi: bv8, lo: bv8)
    ensures (((hi as bv16) << 8) | lo as bv16) as int == hi as int * 0x100 + lo as int
    ensures ((hi as bv16) << 8) | lo as bv16 >= 0x8000 <==> hi >= 0x80
  {
  }

  /** `(b0 << 16) | (b1 << 8) | b2` as a number. */
  lemma Join24(b0: bv8, b1: bv8, b2: bv8)
    ensures (((b0 as bv32) << 16) | ((b1 as bv32) << 8) | b2 as bv32) as int
            == b0 as int * 0x1_0000 + b1 as int * 0x100 + b2 as int
    ensures ((b0 as bv32) << 16) | ((b1 as bv32) << 8) | b2 as bv32 < 0x100_0000
  {
  }

  /** Setting the top byte of a 24-bit pattern adds 0xFF000000. */
  lemma SetTopByte(v: bv32)
    requires v < 0x100_0000
    ensures (v | 0xFF00_0000) as int == v as int + 0xFF00_0000
  {
  }

  /** 256 to the power `k`: one more than the largest `k`-byte number. */
  function Pow256(k: nat): (p: nat)
    ensures p > 0
  {
    if k == 0 then 1 else 0x100 * Pow256(k - 1)
  }

  /** Bytes read most-significant first (the order the device sends its data
      register in), as one unsigned number; it fits in as many bytes. */
  function BigEndian(bytes: seq<bv8>): (n: nat)
    ensures n < Pow256(|bytes|)
  {
    if bytes == [] then 0
    else BigEndian(bytes[..|bytes| - 1]) * 0x100 + bytes[|bytes| - 1] as nat
  }

  /** The three buffered bytes, most significant first, as one number. */
  function Unsigned24(adc: seq<bv8>): (n: nat)
    requires |adc| == 3
    ensures n < 0x100_0000
  {
    adc[0] as nat * 0x1_0000 + adc[1] as nat * 0x100 + adc[2] as nat
  }

  /** `Unsigned24` is the big-endian reading of the buffer, and its first two
      bytes are the big-endian reading `ShortPattern` casts. */
  lemma Unsigned24IsBigEndian(adc: seq<bv8>)
    requires |adc| == 3
    ensures Unsigned24(adc) == BigEndian(adc)
    ensures adc[0] as int * 0x100 + adc[1] as int == BigEndian(adc[..2])
  {
    assert adc[..2][..1] == adc[..1] && adc[..1][..0] == [];
    assert BigEndian(adc[..1]) == adc[0] as nat;
    assert BigEndian(adc[..2]) == BigEndian(adc[..1]) * 0x100 + adc[1] as nat;
    assert BigEndian(adc) == BigEndian(adc[..2]) * 0x100 + adc[2] as nat;
  }

  /** The 16-bit pattern the 12/14/16-bit branch casts: `(adc[0] << 8) | adc[1]`. */
  function ShortPattern(adc: seq<bv8>): (w: bv16)
    requires |adc| == 3
    ensures w as int == adc[0] as int * 0x100 + adc[1] as int
    ensures w >= 0x8000 <==> adc[0] >= 0x80
  {
    Join16(adc[0], adc[1]);
    ((adc[0] as bv16) << 8) | adc[1] as bv16
  }

  /** The 32-bit pattern the 18-bit branch leaves in `adcValue`: the three
      bytes, with the top byte forced to ones when bit 1 of `adc[0]` is set. */
  function LongPattern(adc: seq<bv8>): (w: bv32)
    requires |adc| == 3
    ensures w as int == adc[0] as int * 0x1_0000 + adc[1] as int * 0x100 + adc[2] as int
                        + (if adc[0] & 0x02 != 0 then 0xFF00_0000 else 0)
  {
    var v: bv32 := ((adc[0] as bv32) << 16) | ((adc[1] as bv32) << 8) | adc[2] as bv32;
    Join24(adc[0], adc[1], adc[2]);
    if adc[0] & 0x02 != 0 then SetTopByte(v); v | 0xFF00_0000 else v
  }

  /** The value `readADC` returns for the buffer `adc` under `resolution`. */
  function SampleValue(adc: seq<bv8>, resolution: Bits2): (r: int)
    requires |adc| == 3
    ensures -0x8000_0000 <= r < 0x8000_0000
    ensures resolution != ResolutionCode(Res18Bit) ==>
              -0x8000 <= r < 0x8000 && r == Signed16(adc[0] as int * 0x100 + adc[1] as int)
    ensures resolution == ResolutionCode(Res18Bit) ==>
              r == if adc[0] & 0x02 != 0 then Unsigned24(adc) - 0x100_0000 else Unsigned24(adc)
  {
    if resolution != ResolutionCode(Res18Bit) then
      Int16Of(ShortPattern(adc))
    else
      Signed32Of24(Unsigned24(adc));
      Int32Of(LongPattern(adc))
  }

  /** At 12, 14 and 16 bits the first two bytes are one 16-bit two's-complement
      number, whatever the nominal width. */
  lemma ShortSampleValue(adc: seq<bv8>, resolution: Bits2)
    requires |adc| == 3 && resolution != ResolutionCode(Res18Bit)
    ensures SampleValue(adc, resolution) == Signed16(BigEndian(adc[..2]))
    ensures SampleValue(adc, resolution)
            == BigEndian(adc[..2]) - (if adc[0] >= 0x80 then 0x1_0000 else 0)
  {
    Unsigned24IsBigEndian(adc);
    var w := ShortPattern(adc);
    assert w as int == BigEndian(adc[..2]);
    assert SampleValue(adc, resolution) == Signed16(w as int);
  }

  /** At 12, 14 and 16 bits the third byte takes no part. */
  lemma ShortSampleIgnoresThirdByte(adc: seq<bv8>, adc': seq<bv8>, resolution: Bits2)
    requires |adc| == 3 && |adc'| == 3 && adc[..2] == adc'[..2]
    requires resolution != ResolutionCode(Res18Bit)
    ensures SampleValue(adc, resolution) == SampleValue(adc', resolution)
  {
  }

  /** At 18 bits the three bytes form a 24-bit number; only bit 1 of the first
      byte decides the sign, and a set bit subtracts 2^24. */
  lemma LongSampleValue(adc: seq<bv8>)
    requires |adc| == 3
    ensures adc[0] & 0x02 == 0 ==>
              SampleValue(adc, 3) == BigEndian(adc) && 0 <= SampleValue(adc, 3) < 0x100_0000
    ensures adc[0] & 0x02 != 0 ==>
              SampleValue(adc, 3) == BigEndian(adc) - 0x100_0000 && SampleValue(adc, 3) < 0
  {
    Unsigned24IsBigEndian(adc);
  }

  /** A 24-bit number is its own `int32_t` value; with the top byte set to
      ones it reads as the number minus 2^24. */
  lemma Signed32Of24(n: nat)
    requires n < 0x100_0000
    ensures Signed32(n) == n
    ensures Signed32(n + 0xFF00_0000) == n - 0x100_0000
  {
  }

  /** The device repeats the sign bit of its 18-bit result through the top six
      bits of the first byte; for such a buffer the reading is exactly the
      18-bit two's-complement value. */
  lemma ConformantLongSample(adc: seq<bv8>)
    requires |adc| == 3
    requires adc[0] <= 0x01 || adc[0] >= 0xFE
    ensures SampleValue(adc, 3) == SignExtend18(BigEndian(adc))
    ensures -0x2_0000 <= SampleValue(adc, 3) < 0x2_0000
  {
    LongSampleValue(adc);
    Unsigned24IsBigEndian(adc);
    var rest := adc[1] as int * 0x100 + adc[2] as int;
    if adc[0] <= 0x01 {
      assert adc[0] & 0x02 == 0;
      SignExtendSmall(adc[0] as int * 0x1_0000 + rest);
    } else {
      assert adc[0] & 0x02 != 0;
      SignExtendRepeatedOnes(adc[0] as int, rest);
    }
  }

  /** A value below 2^17 is its own 18-bit sign extension. */
  lemma SignExtendSmall(n: nat)
    requires n < 0x2_0000
    ensures SignExtend18(n) == n
  {
  }

  /** With the six bits above bit 17 all ones, dropping them and reading the
      18-bit field as signed equals subtracting 2^24. */
  lemma SignExtendRepeatedOnes(top: int, rest: int)
    requires 0xFE <= top <= 0xFF && 0 <= rest < 0x1_0000
    ensures SignExtend18(top * 0x1_0000 + rest) == top * 0x1_0000 + rest - 0x100_0000
  {
    var low := (top - 0xFC) * 0x1_0000 + rest;
    assert top * 0x1_0000 + rest == 0x3F * 0x4_0000 + low;
    assert 0x2_0000 <= low < 0x4_0000;
  }

  lemma SampleExamples()
    ensures SampleValue([0xFF, 0xFF, 0x00], 0) == -1
    ensures SampleValue([0xFE, 0x00, 0x00], 3) == -131072
    ensures SampleValue([0x02, 0x00, 0x00], 3) == -16646144
    ensures SampleValue([0x02, 0x00, 0x00], 3) != SignExtend18(0x02_0000)
  {
  }
}
