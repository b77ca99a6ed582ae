/** The driver object: a cached copy of the configuration register and the
    three sample bytes of the last successful read. Every method that talks to
    the device takes the bus outcome as a parameter (`read` for a read of the
    four-byte frame, `writeOk` for a write), and the ghost field `writes` logs
    every byte the driver sends. */
module Mcp3421Driver {
  import opened Transport
  import opened ConfigRegister
  import opened SampleDecode

  /** The configuration a frame carries: byte 3 when byte 3 itself says
      18-bit (a three-byte sample), otherwise byte 2 (a two-byte sample, byte 3
      being padding). */
  function FrameConfig(frame: Frame): (c: Config)
    ensures Encode(c) == frame[3] || Encode(c) == frame[2]
  {
    var trailing := Decode(frame[3]);
    if trailing.resolution != ResolutionCode(Res18Bit) then Decode(frame[2]) else trailing
  }

  /** An 18-bit frame: bits 2-3 of byte 3 are `0b11`; its config is byte 3. */
  lemma FrameConfigLong(frame: Frame)
    requires (frame[3] >> 2) & 0x03 == 0x03
    ensures FrameConfig(frame) == Decode(frame[3])
    ensures ResolutionOf(FrameConfig(frame).resolution) == Res18Bit
  {
  }

  /** A short frame: its config is byte 2, whatever byte 3 holds. */
  lemma FrameConfigShort(frame: Frame)
    requires (frame[3] >> 2) & 0x03 != 0x03
    ensures FrameConfig(frame) == Decode(frame[2])
  {
  }

  /** Two short frames that agree on their first three bytes give the same
      configuration: the padding byte is ignored. */
  lemma FramePaddingIgnored(f: Frame, g: Frame)
    requires f[..3] == g[..3]
    requires (f[3] >> 2) & 0x03 != 0x03 && (g[3] >> 2) & 0x03 != 0x03
    ensures FrameConfig(f) == FrameConfig(g)
  {
    assert f[2] == f[..3][2] == g[..3][2] == g[2];
  }

  class Mcp3421 {
    /** The cached configuration register. */
    var config: Config
    /** The sample bytes of the last successful read. */
    const adcData: array<bv8>
    /** Every byte written to the device, oldest first. */
    ghost var writes: seq<bv8>

    /** The sample buffer holds exactly three bytes. */
    ghost predicate Valid()
      reads this
      ensures Valid() ==> adcData.Length == 3
    {
      adcData.Length == 3
    }

    /** The state a refresh from `read` leaves, given the state before it:
        unchanged if the read failed, else the frame's sample bytes and config. */
    ghost predicate Refreshed(config0: Config, adc0: seq<bv8>, read: Option<Frame>)
      reads this, adcData
      ensures Refreshed(config0, adc0, read) && read.Some? ==>
                Encode(config) == read.value[3] || Encode(config) == read.value[2]
    {
      match read
      case None => config == config0 && adcData[..] == adc0
      case Some(frame) => config == FrameConfig(frame) && adcData[..] == frame[..3]
    }

    /** Every field zero, so the register byte is 0x00; no byte sent yet.
        The sample bytes are left indeterminate, as in the source. */
    constructor ()
      ensures Valid() && fresh(adcData)
      ensures config == Cleared() && Encode(config) == 0x00
      ensures writes == []
    {
      config := Cleared();
      adcData := new bv8[3];
      writes := [];
    }

    /** Sets the gain field and writes the register; the write result is dropped. */
    method SetGain(gain: Gain)
      requires Valid()
      modifies `config, `writes
      ensures Valid()
      ensures config == old(config).(gain := GainCode(gain))
      ensures writes == old(writes) + [Encode(config)]
    {
      config := config.(gain := GainCode(gain));
      writes := writes + [Encode(config)];
    }

    /** Sets the resolution field and writes the register; the write result is dropped. */
    method SetResolution(res: Resolution)
      requires Valid()
      modifies `config, `writes
      ensures Valid()
      ensures config == old(config).(resolution := ResolutionCode(res))
      ensures writes == old(writes) + [Encode(config)]
    {
      config := config.(resolution := ResolutionCode(res));
      writes := writes + [Encode(config)];
    }

    /** Sets the mode field and writes the register; the write result is dropped. */
    method SetMode(mode: Mode)
      requires Valid()
      modifies `config, `writes
      ensures Valid()
      ensures config == old(config).(mode := ModeCode(mode))
      ensures writes == old(writes) + [Encode(config)]
    {
      config := config.(mode := ModeCode(mode));
      writes := writes + [Encode(config)];
    }

    /** Sets the ready bit, which asks the device for one conversion, writes the
        register and reports whether the write succeeded. */
    method StartOneShotConversion(writeOk: bool) returns (ok: bool)
      requires Valid()
      modifies `config, `writes
      ensures Valid()
      ensures config == old(config).(ready := 1)
      ensures writes == old(writes) + [Encode(config)]
      ensures writes[|writes| - 1] & 0x80 == 0x80
      ensures ok == writeOk
    {
      config := config.(ready := 1);
      writes := writes + [Encode(config)];
      ok := writeOk;
    }

    /** Reads the four-byte frame: keeps its first three bytes as the sample
        and takes the configuration from byte 3, or from byte 2 unless byte 3
        says 18-bit. A failed read changes nothing. */
    method ReadData(read: Option<Frame>) returns (ok: bool)
      requires Valid()
      modifies `config, adcData
      ensures Valid()
      ensures ok == read.Some?
      ensures Refreshed(old(config), old(adcData[..]), read)
    {
      if read.None? {
        return false;
      }
      var data := read.value;
      adcData[0], adcData[1], adcData[2] := data[0], data[1], data[2];
      config := Decode(data[3]);
      if config.resolution != ResolutionCode(Res18Bit) {
        config := Decode(data[2]);
      }
      assert adcData[..] == data[..3];
      return true;
    }

    /** Refreshes, then returns the gain field: the frame's on success, the
        cached one on failure. */
    method GetGain(read: Option<Frame>) returns (gain: Gain)
      requires Valid()
      modifies `config, adcData
      ensures Valid()
      ensures Refreshed(old(config), old(adcData[..]), read)
      ensures gain == GainOf(config.gain)
      ensures read.None? ==> gain == GainOf(old(config).gain)
    {
      var _ := ReadData(read);
      gain := GainOf(config.gain);
    }

    /** Refreshes, then returns the resolution field. */
    method GetResolution(read: Option<Frame>) returns (res: Resolution)
      requires Valid()
      modifies `config, adcData
      ensures Valid()
      ensures Refreshed(old(config), old(adcData[..]), read)
      ensures res == ResolutionOf(config.resolution)
      ensures read.None? ==> res == ResolutionOf(old(config).resolution)
    {
      var _ := ReadData(read);
      res := ResolutionOf(config.resolution);
    }

    /** Refreshes, then returns the mode field. */
    method GetMode(read: Option<Frame>) returns (mode: Mode)
      requires Valid()
      modifies `config, adcData
      ensures Valid()
      ensures Refreshed(old(config), old(adcData[..]), read)
      ensures mode == ModeOf(config.mode)
      ensures read.None? ==> mode == ModeOf(old(config).mode)
    {
      var _ := ReadData(read);
      mode := ModeOf(config.mode);
    }

    /** Refreshes; true when the read succeeded and the ready bit is 0
        (the conversion is complete). */
    method IsReady(read: Option<Frame>) returns (ready: bool)
      requires Valid()
      modifies `config, adcData
      ensures Valid()
      ensures Refreshed(old(config), old(adcData[..]), read)
      ensures ready <==> read.Some? && config.ready == 0
    {
      var ok := ReadData(read);
      if !ok {
        return false;
      }
      ready := config.ready == 0;
    }

    /** Refreshes, then decodes the sample bytes under the refreshed
        resolution; 0 when the read failed. */
    method ReadADC(read: Option<Frame>) returns (value: int)
      requires Valid()
      modifies `config, adcData
      ensures Valid()
      ensures Refreshed(old(config), old(adcData[..]), read)
      ensures read.None? ==> value == 0
      ensures read.Some? ==> value == SampleValue(read.value[..3], FrameConfig(read.value).resolution)
      ensures -0x8000_0000 <= value < 0x8000_0000
    {
      var ok := ReadData(read);
      if !ok {
        return 0;
      }
      value := SampleValue(adcData[..], config.resolution);
    }
  }
}
