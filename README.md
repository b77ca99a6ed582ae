# MCP3421 driver model

A Dafny model of the Adafruit driver for the Microchip MCP3421, a
single-channel 18-bit delta-sigma ADC on the I2C bus. The model covers two
pieces and proves what the driver promises about each.

- **Configuration register codec** (module `ConfigRegister`, file
  `config_register.dfy`). The device has one configuration byte. The driver
  mirrors it as a bit-field struct with five fields: gain, resolution, mode,
  two unused bits and the ready bit. The model writes the struct-to-byte
  reinterpretation out as mask-and-shift `Encode`/`Decode` functions. It proves
  that each field sits at its bit position and that the round trip holds both
  ways: for every field tuple, and for all 256 bytes. The gain, resolution and
  mode enumerations map to their register codes through matching `…Code`/`…Of`
  function pairs.
- **Driver state machine** (module `Mcp3421Driver`, file `driver.dfy`, and
  module `SampleDecode`, file `sample.dfy`). The class `Mcp3421` holds the cached
  `config` and the three-byte `adcData` array. The setters and
  `StartOneShotConversion` change one field and log the encoded byte they send.
  `ReadData` parses the fixed four-byte frame. It keeps bytes 0-2 as the sample.
  It takes the configuration from byte 3 when byte 3 says 18-bit, and from byte 2
  otherwise (`FrameConfig`). The getters, `IsReady` and `ReadADC` refresh first
  and then read the cache. `ReadADC` converts the buffered bytes to a 32-bit
  signed value with the pure function `SampleValue`.

The bus is abstract (module `Transport`, file `transport.dfy`). A read outcome
is an `Option<Frame>`, where a `Frame` is exactly four bytes and `None` is a
failed read. A write outcome is a `bool` parameter. It appears only on
`StartOneShotConversion`, because the setters discard their write result.
These outcomes are method parameters. The ghost field `writes` records every
byte the driver sends.

Assumptions stated in the model:
- Bit-field order. C++ leaves the order of bit-fields to the compiler. The model
  assumes the LSB-first allocation that GCC uses on the Arduino targets: gain in
  bits 0-1, resolution in bits 2-3, mode in bit 4, unused in bits 5-6 and ready
  in bit 7.
- Integer width. `int` is taken to be 32 bits wide.
- Signed conversions. Converting an out-of-range value to `int16_t`/`int32_t`
  reduces modulo 2^16/2^32, as GCC does (`Signed16`, `Signed32`).

Two behaviours of the code are worth stating on their own:
- The setters return `void`, so a caller cannot learn whether their write
  failed (Adafruit_MCP3421.cpp:28-32, 51-55, 73-77).
- In 18-bit mode the code ORs `0xFF000000` when bit 1 of `adc[0]` is set. It
  leaves bits 18-23 as they came. So `[0x02, 0x00, 0x00]` at 18-bit gives
  `0xFF020000` (-16646144), not its 18-bit sign extension -131072
  (`SampleExamples`). This matters only for bytes the device does not send: the
  device repeats the sign bit through the top six bits of the first byte. For
  every such buffer the result is exactly the 18-bit two's-complement value
  (`ConformantLongSample`).

`SampleDecode.SignExtend18` is the reference 18-bit two's-complement value of
the low 18 bits of a number, with no source line of its own.
`SampleDecode.SignExtendSmall` and `SampleDecode.SignExtendRepeatedOnes` are two
helper facts about it that `ConformantLongSample` uses.

## Model

| member | source | states |
|---|---|---|
| `ConfigRegister.GainCode` | Adafruit_MCP3421.h:12-15 | the gain codes: 1X is 0, 2X is 1, 4X is 2 and 8X is 3, each code for exactly that gain |
| `ConfigRegister.GainOf` | Adafruit_MCP3421.h:11-16 | the gain read back from a 2-bit field has that field as its code (1X=0, 2X=1, 4X=2, 8X=3), so every code names exactly one gain |
| `ConfigRegister.ResolutionCode` | Adafruit_MCP3421.h:23-26 | the resolution codes: 12-bit is 0, 14-bit is 1, 16-bit is 2 and 18-bit is 3, each code for exactly that resolution |
| `ConfigRegister.ResolutionOf` | Adafruit_MCP3421.h:22-27 | the resolution read back from a 2-bit field has that field as its code (12=0, 14=1, 16=2, 18=3), and it is 18-bit exactly when the field is `0b11` |
| `ConfigRegister.ModeCode` | Adafruit_MCP3421.h:34-35 | the mode codes: continuous is 1 and one-shot is 0 |
| `ConfigRegister.ModeOf` | Adafruit_MCP3421.h:33-36 | the mode read back from a 1-bit field has that field as its code (continuous=1, one-shot=0) |
| `ConfigRegister.CodesRoundTrip` | Adafruit_MCP3421.h:11-36 | code-then-read-back gives back every gain, resolution and mode |
| `ConfigRegister.Encode` | Adafruit_MCP3421.h:42-48 | the packed byte has gain in bits 0-1, resolution in bits 2-3, mode in bit 4, unused in bits 5-6 and ready in bit 7 |
| `ConfigRegister.Decode` | Adafruit_MCP3421.h:42-48 | re-encoding the decoded fields gives back every one of the 256 bytes, unused bits included |
| `ConfigRegister.DecodeEncode` | Adafruit_MCP3421.h:42-48 | decoding the packed byte gives back every in-range field tuple, unused bits included |
| `ConfigRegister.EncodeInjective` | Adafruit_MCP3421.h:42-48 | two configurations with the same byte are equal |
| `ConfigRegister.Cleared` | Adafruit_MCP3421.cpp:8 | the zero-initialised configuration packs to the byte 0x00 |
| `ConfigRegister.ClearedIsZero` | Adafruit_MCP3421.cpp:7-9 | the all-zero configuration packs to 0x00 and reads as gain 1X, 12-bit, one-shot |
| `SampleDecode.Signed16` | Adafruit_MCP3421.cpp:164 | the `int16_t` value of a 16-bit unsigned number lies in [-32768, 32767] and is congruent to it modulo 2^16 |
| `SampleDecode.Signed32` | Adafruit_MCP3421.cpp:158-176 | the `int32_t` value of a 32-bit unsigned number lies in the `int32_t` range and is congruent to it modulo 2^32 |
| `SampleDecode.Int16Of` | Adafruit_MCP3421.cpp:164 | `static_cast<int16_t>` of a 16-bit pattern is in the `int16_t` range and equals the pattern modulo 2^16 |
| `SampleDecode.Int32Of` | Adafruit_MCP3421.cpp:158-176 | a 32-bit pattern read as `int32_t` is in range and equals the pattern modulo 2^32 |
| `SampleDecode.Join16` | Adafruit_MCP3421.cpp:164 | `(hi << 8) \| lo` is `hi*256 + lo`, and its top bit is the top bit of `hi` |
| `SampleDecode.Join24` | Adafruit_MCP3421.cpp:168 | `(b0 << 16) \| (b1 << 8) \| b2` is `b0*65536 + b1*256 + b2`, below 2^24 |
| `SampleDecode.SetTopByte` | Adafruit_MCP3421.cpp:170-172 | OR-ing `0xFF000000` into a value below 2^24 adds `0xFF000000` |
| `SampleDecode.BigEndian` | Adafruit_MCP3421.cpp:164-168 | bytes read most-significant first form a number below 256^(number of bytes) |
| `SampleDecode.Unsigned24` | Adafruit_MCP3421.cpp:168 | the value `(adc[0] << 16) \| (adc[1] << 8) \| adc[2]` as a number, below 2^24 |
| `SampleDecode.Unsigned24IsBigEndian` | Adafruit_MCP3421.cpp:164-168 | the 24-bit number of the 18-bit branch, and the 16-bit number of the other branches, are the big-endian readings of `adc[0..3)` and `adc[0..2)` |
| `SampleDecode.Signed32Of24` | Adafruit_MCP3421.cpp:168-172 | a 24-bit value read as `int32_t` is itself; with `0xFF000000` OR-ed in, it reads as the value minus 2^24 |
| `SampleDecode.ShortPattern` | Adafruit_MCP3421.cpp:164 | the 16-bit pattern is `adc[0]*256 + adc[1]`, and its sign bit is bit 7 of `adc[0]` |
| `SampleDecode.LongPattern` | Adafruit_MCP3421.cpp:168-172 | the 32-bit pattern is the 24-bit number `adc[0..3)`, with `0xFF000000` added exactly when bit 1 of `adc[0]` is set |
| `SampleDecode.SampleValue` | Adafruit_MCP3421.cpp:158-176 | the reading is in the `int32_t` range; below 18 bits it is the `int16_t` value of `adc[0]*256 + adc[1]`; at 18 bits it is the 24-bit number, minus 2^24 exactly when bit 1 of `adc[0]` is set |
| `SampleDecode.ShortSampleValue` | Adafruit_MCP3421.cpp:160-165 | at 12/14/16 bits the reading is the 16-bit two's-complement value of the big-endian `adc[0..2)` |
| `SampleDecode.ShortSampleIgnoresThirdByte` | Adafruit_MCP3421.cpp:160-165 | at 12/14/16 bits `adc[2]` does not affect the reading |
| `SampleDecode.LongSampleValue` | Adafruit_MCP3421.cpp:166-173 | at 18 bits, with bit 1 of `adc[0]` clear, the reading is the big-endian number `adc[0..3)`, in [0, 2^24); with it set, the reading is that number minus 2^24, which is negative |
| `SampleDecode.ConformantLongSample` | Adafruit_MCP3421.cpp:166-173 | at 18 bits, when the top six bits of `adc[0]` repeat its bit 1 (as the device sends them), the reading is the 18-bit two's-complement value, in [-2^17, 2^17) |
| `SampleDecode.SampleExamples` | Adafruit_MCP3421.cpp:159-173 | `[0xFF,0xFF]` at 12-bit gives -1; `[0xFE,0,0]` at 18-bit gives -131072; `[0x02,0,0]` at 18-bit gives `0xFF020000`, not its 18-bit sign extension |
| `Mcp3421Driver.FrameConfig` | Adafruit_MCP3421.cpp:124-130 | the configuration taken from a frame is, bit for bit, byte 3 or byte 2 of the frame |
| `Mcp3421Driver.FrameConfigLong` | Adafruit_MCP3421.cpp:124-130 | when bits 2-3 of byte 3 are `0b11`, the configuration is the decode of byte 3 and is 18-bit |
| `Mcp3421Driver.FrameConfigShort` | Adafruit_MCP3421.cpp:127-130 | otherwise the configuration is the decode of byte 2 |
| `Mcp3421Driver.FramePaddingIgnored` | Adafruit_MCP3421.cpp:127-130 | two short frames that agree on bytes 0-2 give the same configuration, whatever their byte 3 holds |
| `Mcp3421Driver.Mcp3421.Valid` | Adafruit_MCP3421.h:75 | the sample buffer holds exactly three bytes |
| `Mcp3421Driver.Mcp3421.Refreshed` | Adafruit_MCP3421.cpp:116-130 | the state `readData` leaves: unchanged on a failed read, else frame bytes 0-2 and the frame's configuration, which is bit for bit frame byte 3 or byte 2 |
| `Mcp3421Driver.Mcp3421.constructor` | Adafruit_MCP3421.cpp:7-9 | every config field is 0, so the register byte is 0x00, and nothing has been written |
| `Mcp3421Driver.Mcp3421.SetGain` | Adafruit_MCP3421.cpp:28-32 | only the gain field changes (a leftover ready bit stays), and exactly one byte, the new encoded config, is logged as written |
| `Mcp3421Driver.Mcp3421.SetResolution` | Adafruit_MCP3421.cpp:51-55 | only the resolution field changes, and exactly the new encoded config is logged as written |
| `Mcp3421Driver.Mcp3421.SetMode` | Adafruit_MCP3421.cpp:73-77 | only the mode field changes, and exactly the new encoded config is logged as written |
| `Mcp3421Driver.Mcp3421.StartOneShotConversion` | Adafruit_MCP3421.cpp:141-145 | ready becomes 1 and nothing else changes; the byte written has bit 7 set; the write result is returned |
| `Mcp3421Driver.Mcp3421.ReadData` | Adafruit_MCP3421.cpp:115-133 | true exactly when the read succeeds; on failure config and sample bytes are unchanged; on success the sample bytes are frame bytes 0-2 and config is the frame's configuration |
| `Mcp3421Driver.Mcp3421.GetGain` | Adafruit_MCP3421.cpp:39-42 | refreshes as `ReadData` does, then returns the gain of the refreshed config, which is the cached gain when the read fails |
| `Mcp3421Driver.Mcp3421.GetResolution` | Adafruit_MCP3421.cpp:62-65 | refreshes, then returns the refreshed resolution, or the cached one when the read fails |
| `Mcp3421Driver.Mcp3421.GetMode` | Adafruit_MCP3421.cpp:85-88 | refreshes, then returns the refreshed mode, or the cached one when the read fails |
| `Mcp3421Driver.Mcp3421.IsReady` | Adafruit_MCP3421.cpp:97-102 | refreshes; true exactly when the read succeeded and the refreshed ready bit is 0 |
| `Mcp3421Driver.Mcp3421.ReadADC` | Adafruit_MCP3421.cpp:153-177 | refreshes; 0 when the read fails, otherwise `SampleValue` of frame bytes 0-2 under the frame's resolution, always in the `int32_t` range |

## Left out

- `begin`, the `Adafruit_I2CDevice` and `TwoWire` objects, and the Arduino headers (Adafruit_MCP3421.cpp:18-21). These are bus plumbing in a foreign library. Reads and writes are modelled only by their outcomes, passed in as parameters.
- Calls made before `begin`, which dereference the null `i2c_dev`. The model assumes a bound device.
- The sample rates in the resolution comments (Adafruit_MCP3421.h:23-26). They are documentation only, and the code has no timing.
- Platform integer width. On an AVR with a 16-bit `int`, `adc_data[0] << 16` is undefined. The model assumes a 32-bit `int`.
- The enum parameters of the setters. The model takes only the named enumerators. C++ would also accept an out-of-range value and truncate it to the field width.
- The contents of `adc_data` after construction. C++ leaves them uninitialised, so the model's constructor promises nothing about them.
- Concurrency. The driver has none, and callers serialise access.
