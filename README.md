# Verified model of the pico-temp-logger peripheral drivers

The repository drives two peripherals from a Raspberry Pi Pico:

- an **SSD1306 OLED panel** over I2C (`src/SD1306.cpp`). The driver resolves a size tag to
  a width and height. It keeps a page-addressed framebuffer with one bit per pixel: byte
  `(y/8)*width + x`, bit `y % 8`. It draws into that buffer in place and flushes it by sending
  command transactions `{0x00, opcode}` followed by one data transaction `{0x40, bytes...}`;
- a **MAX31865 RTD-to-digital converter** over SPI (`src/MAX31865.cpp`). Every setter is a
  read-modify-write of the 8-bit configuration register. The fault thresholds are 16-bit values
  split over pairs of byte registers. `readRTD` runs a fixed one-shot conversion sequence and
  drops the fault bit of the 16-bit result.

The model has two modules, one per driver:

- `Ssd1306Driver` (`ssd1306.dfy`)
  - `Ssd1306` is a class. It holds the resolved dimensions, the framebuffer as an
    `array<bv8>` updated in place, the full-frame render area (a `RenderArea` object, since
    the source writes its `buflen` through a pointer) and a ghost log of every I2C
    transaction sent.
  - Each drawing method is proved against a function on the buffer's contents: `Drawn` or
    `Cleared`.
  - The properties of those functions are proved as lemmas: only one bit changes,
    INVERSE twice is the identity, and clearing to black then drawing one white pixel leaves
    exactly that pixel set.
- `Max31865Driver` (`max31865.dfy`)
  - The chip is a register file: a function from register to byte. An address byte selects
    a register by its low seven bits (`Key`), so bit 7 only tells a read from a write.
  - The driver object `Max31865` holds that register file and a ghost trace of bus
    transactions. The trace events are a read (address byte, then n bytes in), a write
    (the bytes sent) and a sleep (milliseconds).
  - Each method is proved equal to a chip-level function of the state before the call, over a
    `Chip` (registers plus trace). The setters are `FaultCleared`, `BiasSet` and so on;
    `readRTD` is `RtdSequence` and `RtdResult`, and `begin` is `BeginSequence`.
  - The lemmas prove what those functions do to the configuration bits, to the other
    registers and to the trace.

## Model

| member | source | states |
|---|---|---|
| Ssd1306Driver.Resolve | src/SD1306.cpp:17-29 | W64xH32 gives 64x32, W128xH64 gives 128x64, every other tag 128x32; width is in 1..128 and height in 1..64, a multiple of 8 |
| Ssd1306Driver.Ssd1306.GetHeight | src/SD1306.cpp:264-268 | the height reported equals the height the constructor resolves, for every size tag |
| Ssd1306Driver.Ssd1306.GetWidth | src/SD1306.cpp:274-278 | the width reported equals the width the constructor resolves, for every size tag |
| Ssd1306Driver.Ssd1306.constructor | src/SD1306.cpp:15-95 | the dimensions are resolved from the tag; `bufferlen == width * (height/8)` and the buffer has that length; the I2C log is exactly the initialisation sequence, with multiplex ratio `height - 1`; the frame area spans columns 0..width-1 and pages 0..height/8-1, and its `buflen` equals `bufferlen` |
| Ssd1306Driver.AfterInit | src/SD1306.cpp:34-79 | defines the log after the initialisation sequence: 26 command transactions in the order of the source, with multiplex ratio `height - 1`; SendInitCommands and the constructor are proved to produce it |
| Ssd1306Driver.Command | src/SD1306.cpp:111-115 | defines a command transaction, the two bytes `{0x00, command}` |
| Ssd1306Driver.DataMessage | src/SD1306.cpp:244-252 | defines a data transaction, 0x40 followed by the payload |
| Ssd1306Driver.Ssd1306.SendInitCommands | src/SD1306.cpp:34-79 | sends exactly the fixed initialisation command list, in order: display off first, display on last, multiplex ratio `height - 1` |
| Ssd1306Driver.Ssd1306.SetFullFrame | src/SD1306.cpp:82-89 | the frame area becomes columns 0..width-1 and pages 0..height/8-1, and its byte count is `bufferlen` |
| Ssd1306Driver.RenderArea.constructor | src/SD1306.cpp:82-87 | a render area starts with every field zero, as the aggregate initialiser leaves `buflen` |
| Ssd1306Driver.Ssd1306.CalculateRenderAreaBuffLen | src/SD1306.cpp:255-258 | `buflen` becomes the byte count of the window, (end_col - start_col + 1) * (end_page - start_page + 1) |
| Ssd1306Driver.AreaLength | src/SD1306.cpp:257 | defines the byte count of a window; AreaOffsetInRange, AreaOffsetInjective and AreaOffsetOnto show it is the number of its cells |
| Ssd1306Driver.AreaOffsetInRange | src/SD1306.cpp:255-258 | every column/page cell of a well-formed window lands at an offset below the window's byte count |
| Ssd1306Driver.AreaOffsetInjective | src/SD1306.cpp:255-258 | distinct cells of a window land at distinct offsets |
| Ssd1306Driver.AreaOffsetOnto | src/SD1306.cpp:255-258 | every offset below the window's byte count is the offset of a cell (column sc + o % cols, page sp + o / cols); with AreaOffsetInRange and AreaOffsetInjective, the byte count is exactly the number of cells |
| Ssd1306Driver.FullFrameLength | src/SD1306.cpp:82-89 | for every size, the full-frame area's byte count equals `width * (height/8)` (512 for 128x32) |
| Ssd1306Driver.PixelIndex | src/SD1306.cpp:188-190 | defines the byte of pixel (x, y), `(y/8)*width + x`; bounded by PixelIndexInBounds, injective with the bit by PixelAddrInjective |
| Ssd1306Driver.Pixel | src/SD1306.cpp:181-191 | defines the value of pixel (x, y): bit `y % 8` of its byte, least significant bit first |
| Ssd1306Driver.Painted | src/SD1306.cpp:193-204 | defines the pixel value each colour draws: WHITE set, BLACK clear, INVERSE the old value flipped |
| Ssd1306Driver.ApplyColor | src/SD1306.cpp:193-204 | defines the byte after drawing bit k in a colour (OR, AND-NOT or XOR with `1 << k`); WhiteBit, BlackBit, InverseBit and ApplyColorBits state its effect bit by bit |
| Ssd1306Driver.PixelIndexInBounds | src/SD1306.cpp:176-190 | for `0 <= x < width` and `0 <= y < height`, `(y/8)*width + x < bufferlen` |
| Ssd1306Driver.PixelAddrInjective | src/SD1306.cpp:188-190 | two in-range pixels with the same byte and the same bit are the same pixel |
| Ssd1306Driver.BitIndex | src/SD1306.cpp:196 | the bit a row selects, `y % 8`, is one of the byte's eight bits |
| Ssd1306Driver.WhiteBit | src/SD1306.cpp:195-197 | WHITE sets bit y%8 and leaves the other seven bits as they were |
| Ssd1306Driver.BlackBit | src/SD1306.cpp:198-200 | BLACK clears bit y%8 and leaves the other seven bits as they were |
| Ssd1306Driver.InverseBit | src/SD1306.cpp:201-203 | INVERSE flips bit y%8 and leaves the other seven bits as they were |
| Ssd1306Driver.ApplyColorBit | src/SD1306.cpp:193-204 | bit j of the drawn byte is the painted value when j is the pixel's bit, and the old bit otherwise |
| Ssd1306Driver.ApplyColorBits | src/SD1306.cpp:193-204 | the pixel's bit takes the painted value (set, cleared, flipped) and all seven other bits are kept |
| Ssd1306Driver.Drawn | src/SD1306.cpp:190-205 | drawing keeps the buffer length, changes no byte but the pixel's, gives the pixel its painted value and keeps the other bits of its byte |
| Ssd1306Driver.DrawnPixels | src/SD1306.cpp:174-206 | after drawing (x, y), pixel (x', y') has the painted value when it is (x, y), and its old value otherwise |
| Ssd1306Driver.InverseTwice | src/SD1306.cpp:201-202 | drawing the same pixel twice in INVERSE restores the buffer exactly |
| Ssd1306Driver.Cleared | src/SD1306.cpp:213-224 | defines the buffer after clear: all 0xFF for WHITE, all 0x00 for BLACK, unchanged for INVERSE; ClearedPixels states it pixel by pixel |
| Ssd1306Driver.ClearedPixels | src/SD1306.cpp:213-224 | after clear(WHITE) every pixel is set, after clear(BLACK) none is, and clear(INVERSE) changes no pixel |
| Ssd1306Driver.ClearThenDraw | src/SD1306.cpp:174-224 | clear(BLACK) followed by one WHITE pixel leaves exactly that pixel set |
| Ssd1306Driver.Ssd1306.DrawPixel | src/SD1306.cpp:174-206 | for an in-range pixel, the new buffer is exactly `Drawn` of the old one, with nothing sent |
| Ssd1306Driver.Ssd1306.Fill | src/SD1306.cpp:218-221 | every one of the `bufferlen` bytes becomes the fill value |
| Ssd1306Driver.Ssd1306.Clear | src/SD1306.cpp:213-224 | the new buffer is all 0xFF for WHITE and all 0x00 for BLACK; INVERSE leaves it unchanged |
| Ssd1306Driver.Ssd1306.SendCommand | src/SD1306.cpp:111-115 | exactly one transaction `{0x00, command}` is appended to the log |
| Ssd1306Driver.Ssd1306.InvertColors | src/SD1306.cpp:122-125 | sends 0xA7 for a non-zero argument and 0xA6 for zero |
| Ssd1306Driver.Ssd1306.RotateDisplay | src/SD1306.cpp:132-143 | the argument is clamped to 1; it sends 0xA0 then 0xC0 for 0, and 0xA1 then 0xC8 otherwise |
| Ssd1306Driver.Ssd1306.DisplayOn | src/SD1306.cpp:151-154 | sends 0xAF for a non-zero argument and 0xAE for zero |
| Ssd1306Driver.Ssd1306.SetContrast | src/SD1306.cpp:161-165 | sends the contrast opcode 0x81, then the contrast value, as two command transactions |
| Ssd1306Driver.Ssd1306.SendData | src/SD1306.cpp:244-252 | appends one transaction: 0x40 followed by the first `buff_size` bytes of the data |
| Ssd1306Driver.Ssd1306.Display | src/SD1306.cpp:231-241 | sends commands 0x21, start_col, end_col, 0x22, start_page and end_page, each as `{0x00, b}`. It then sends one data transaction of `bufferlen + 1` bytes: first 0x40, then the caller's data, or the own buffer when `data` is null |
| Max31865Driver.ReadAddress | src/MAX31865.cpp:262 | the read address byte has bit 7 clear and keeps the 7-bit address |
| Max31865Driver.WriteAddress | src/MAX31865.cpp:289 | the write address byte has bit 7 set and keeps the 7-bit address |
| Max31865Driver.Key | src/MAX31865.cpp:289 | defines the chip's address decoding: an address byte selects the register named by its low seven bits |
| Max31865Driver.ReadWriteSameRegister | src/MAX31865.cpp:260-293 | the read form (bit 7 clear) and the write form (bit 7 set) of an address select the same register; two address bytes select the same register exactly when their low seven bits agree |
| Max31865Driver.Combine16 | src/MAX31865.cpp:275-277 | the 16-bit value has the first byte read as its high byte and the second as its low byte |
| Max31865Driver.Combine16Value | src/MAX31865.cpp:275-279 | the value returned is `buffer[0] * 256 + buffer[1]` as a number, so it is below 65536 |
| Max31865Driver.Combine16Injective | src/MAX31865.cpp:275-277 | two byte pairs combine to the same value exactly when they are equal |
| Max31865Driver.LowByte | src/MAX31865.cpp:118 | defines the low byte `v & 0xFF` that setThresholds writes; SplitCombine relates it to Combine16 |
| Max31865Driver.HighByte | src/MAX31865.cpp:119 | defines the high byte `v >> 8` that setThresholds writes; SplitCombine relates it to Combine16 |
| Max31865Driver.SplitCombine | src/MAX31865.cpp:117-122 | splitting a 16-bit value into `v >> 8` and `v & 0xFF` and recombining MSB-first gives it back |
| Max31865Driver.RtdCode | src/MAX31865.cpp:252-253 | the result without its fault bit is below 0x8000, and shifted back left it is the raw value with bit 0 cleared |
| Max31865Driver.Assign | src/MAX31865.cpp:66-74 | the bits of the mask are set when the flag is true and cleared when false; every other bit is kept |
| Max31865Driver.WiresConfig | src/MAX31865.cpp:151-160 | the 3-wire bit is set if and only if the wiring is 3-wire; every other bit is kept |
| Max31865Driver.ClearFaultValue | src/MAX31865.cpp:53-58 | bits 0x20, 0x08 and 0x04 are cleared, the fault-clear bit is set, every other bit is kept |
| Max31865Driver.TwoAndFourWireAlias | src/MAX31865.cpp:153-158 | two-wire and four-wire give the identical configuration value, with the 3-wire bit clear |
| Max31865Driver.ConfigBitsDistinct | src/MAX31865.cpp:55-56 | the six named configuration bits are pairwise disjoint; the 0x2C mask shares no bit with them except 1-shot, which it contains |
| Max31865Driver.Written | src/MAX31865.cpp:288-293 | defines the effect of writeRegister8: the frame `{addr OR 0x80, data}` is appended to the trace and the register addressed stores data |
| Max31865Driver.ConfigRmw | src/MAX31865.cpp:54-57 | defines a read-modify-write of the configuration register that writes v; ConfigRmwEffect states its effect |
| Max31865Driver.FaultCleared | src/MAX31865.cpp:53-58 | defines the effect of clearFault on the chip; FaultClearedBits and ConfigRmwEffect state it |
| Max31865Driver.BiasSet | src/MAX31865.cpp:66-74 | defines the effect of enableBias on the chip; SetterBits and ConfigRmwEffect state it |
| Max31865Driver.AutoConvertSet | src/MAX31865.cpp:82-90 | defines the effect of autoConvert on the chip; SetterBits and ConfigRmwEffect state it |
| Max31865Driver.FilterSet | src/MAX31865.cpp:99-107 | defines the effect of enable50Hz on the chip; SetterBits and ConfigRmwEffect state it |
| Max31865Driver.WiresSet | src/MAX31865.cpp:151-160 | defines the effect of setWires on the chip; WiresSetEffect states it |
| Max31865Driver.OneShotStarted | src/MAX31865.cpp:243-245 | defines readRTD's read-modify-write that sets the 1-shot bit; ConfigRmwEffect states its effect |
| Max31865Driver.ThresholdsSet | src/MAX31865.cpp:117-122 | defines the effect of setThresholds: four writes, lower LSB, lower MSB, upper LSB, upper MSB; ThresholdsRoundTrip states it |
| Max31865Driver.LowerThreshold | src/MAX31865.cpp:130-132 | defines the lower threshold as read back, MSB-first from register 0x05 and the next one; ThresholdsRoundTrip reads it back |
| Max31865Driver.UpperThreshold | src/MAX31865.cpp:140-142 | defines the upper threshold as read back, MSB-first from register 0x03 and the next one; ThresholdsRoundTrip reads it back |
| Max31865Driver.RtdConverted | src/MAX31865.cpp:240-246 | defines the chip when readRTD reads the result: faults cleared, bias on, a 10 ms wait logged, 1-shot set, a 65 ms wait logged |
| Max31865Driver.RtdSequence | src/MAX31865.cpp:239-256 | defines the effect of readRTD on the chip; RtdSequenceRegisters and RtdSequenceTrace state it |
| Max31865Driver.RtdResult | src/MAX31865.cpp:248-255 | defines the value readRTD returns; RtdResultValue states it |
| Max31865Driver.BeginSequence | src/MAX31865.cpp:25-36 | defines the effect of begin on the chip; BeginSequenceEffect states it |
| Max31865Driver.ConfigRmwEffect | src/MAX31865.cpp:54-57 | a read-modify-write reads register 0x00 and sends `{0x80, v}`; the configuration register becomes v and every other register is unchanged |
| Max31865Driver.SetterBits | src/MAX31865.cpp:66-107 | enableBias, autoConvert and enable50Hz each set their own bit when the flag is true and clear it when false, keeping every other configuration bit |
| Max31865Driver.WiresSetEffect | src/MAX31865.cpp:151-160 | after setWires the 3-wire bit is set if and only if the wiring is 3-wire; the other bits are kept; two and four wires leave the identical chip state, trace included |
| Max31865Driver.FaultClearedBits | src/MAX31865.cpp:53-58 | after clearFault, bits 0x2C are clear, the fault-clear bit is set and every other bit is as before |
| Max31865Driver.ThresholdsRoundTrip | src/MAX31865.cpp:117-142 | after setThresholds(lower, upper), the MSB-first 16-bit reads from the lower-MSB and upper-MSB registers give back exactly lower and upper; no register outside the four threshold registers changes |
| Max31865Driver.RtdSequenceConfig | src/MAX31865.cpp:239-256 | defines the configuration value readRTD leaves; RtdSequenceConfigBits states its bits |
| Max31865Driver.RtdSequenceConfigBits | src/MAX31865.cpp:239-256 | the configuration value readRTD leaves has bias off and bits 0x0C clear, and keeps the auto-convert, 3-wire and filter bits |
| Max31865Driver.RtdResultValue | src/MAX31865.cpp:248-255 | readRTD returns the RTD MSB/LSB register pair shifted right by one, which is below 0x8000 |
| Max31865Driver.RtdSequenceRegisters | src/MAX31865.cpp:239-256 | readRTD changes no register but the configuration register, and leaves its bias bit clear |
| Max31865Driver.RtdSequenceTrace | src/MAX31865.cpp:239-256 | readRTD issues exactly these transactions: clearFault's read-modify-write, bias on, sleep 10 ms, the 1-shot write, sleep 65 ms, the 2-byte read from register 0x01, bias off |
| Max31865Driver.BeginConfig | src/MAX31865.cpp:25-36 | defines the configuration value begin leaves; BeginConfigBits states its bits |
| Max31865Driver.BeginConfigBits | src/MAX31865.cpp:25-36 | the configuration value begin leaves has bias and auto-convert off, the 3-wire bit set if and only if the wiring is 3-wire, the fault-clear bit set, bits 0x2C clear and the filter bit kept |
| Max31865Driver.BeginSequenceEffect | src/MAX31865.cpp:25-36 | after begin(w): bias and auto-convert clear; 3-wire bit set if and only if w is 3-wire; thresholds read back as (0, 0xFFFF); the last transaction is a configuration write carrying the fault-clear bit |
| Max31865Driver.ShiftedOut | src/example.cpp:36-46 | once the address byte is in, the chip shifts out the addressed register first and the next register second |
| Max31865Driver.WriteThenReadRegisters | src/example.cpp:36-46 | sending the address byte and then reading one or two bytes gives the addressed register, or it and the next one MSB-first |
| Max31865Driver.DuplexReceived | src/MAX31865.cpp:264 | defines the bytes received by a single full-duplex transfer that begins with the address byte: the idle level first, then the registers from the address on |
| Max31865Driver.DuplexRead8 | src/MAX31865.cpp:260-267 | defines readRegister8 as written, a one-byte full-duplex transfer; DuplexRead8Shifted and DuplexReadExample state what it returns |
| Max31865Driver.DuplexRead16 | src/MAX31865.cpp:269-280 | defines readRegister16 as written, a two-byte full-duplex transfer combined MSB-first; DuplexRead16Shifted states what it returns |
| Max31865Driver.DuplexRead8Shifted | src/MAX31865.cpp:260-267 | readRegister8 as written returns the line level seen while the address byte goes out; that is the register only when the two happen to agree |
| Max31865Driver.DuplexRead16Shifted | src/MAX31865.cpp:269-280 | readRegister16 as written returns the idle level as MSB and the addressed register as LSB; that is the register pair only when both registers equal the idle level |
| Max31865Driver.DuplexReadExample | src/MAX31865.cpp:264 | a configuration register holding 0x5A, read with the line idling at 0xFF, reads as 0xFF |
| Max31865Driver.Max31865.constructor | src/MAX31865.cpp:15 | creating the driver sends nothing and leaves the registers as they are |
| Max31865Driver.Max31865.ReadRegister8 | src/MAX31865.cpp:260-267 | returns the addressed register; the only transaction is a 1-byte read at the address with bit 7 clear; no register changes |
| Max31865Driver.Max31865.ReadRegister16 | src/MAX31865.cpp:269-280 | returns the addressed register and the next one, MSB-first; the only transaction is a 2-byte read at the address with bit 7 clear; no register changes |
| Max31865Driver.Max31865.WriteRegister8 | src/MAX31865.cpp:288-293 | sends exactly two bytes, the address with bit 7 set and then data; the addressed register becomes data and no other register changes |
| Max31865Driver.Max31865.ReadFault | src/MAX31865.cpp:44-46 | returns the fault-status register (0x07) by one 1-byte read |
| Max31865Driver.Max31865.ClearFault | src/MAX31865.cpp:53-58 | the new chip state is `FaultCleared` of the old one |
| Max31865Driver.Max31865.EnableBias | src/MAX31865.cpp:66-74 | the new chip state is `BiasSet` of the old one |
| Max31865Driver.Max31865.AutoConvert | src/MAX31865.cpp:82-90 | the new chip state is `AutoConvertSet` of the old one |
| Max31865Driver.Max31865.Enable50Hz | src/MAX31865.cpp:99-107 | the new chip state is `FilterSet` of the old one |
| Max31865Driver.Max31865.SetWires | src/MAX31865.cpp:151-160 | the new chip state is `WiresSet` of the old one |
| Max31865Driver.Max31865.SetThresholds | src/MAX31865.cpp:117-122 | four writes, in order: lower LSB, lower MSB, upper LSB, upper MSB (`ThresholdsSet`) |
| Max31865Driver.Max31865.GetLowerThreshold | src/MAX31865.cpp:130-132 | returns the 16-bit lower threshold, read MSB-first from register 0x05 |
| Max31865Driver.Max31865.GetUpperThreshold | src/MAX31865.cpp:140-142 | returns the 16-bit upper threshold, read MSB-first from register 0x03 |
| Max31865Driver.Max31865.ReadRtd | src/MAX31865.cpp:239-256 | the new chip state is `RtdSequence` of the old one, and the value returned is `RtdResult` of it |
| Max31865Driver.Max31865.Begin | src/MAX31865.cpp:25-36 | returns true; the new chip state is `BeginSequence` of the old one |

Some rows name a method whose contract equates the new state with a chip-level function.
What each such function does is stated by the lemmas above it:
- `FaultCleared` by ConfigRmwEffect and FaultClearedBits;
- `BiasSet`, `AutoConvertSet` and `FilterSet` by SetterBits;
- `WiresSet` by WiresSetEffect;
- `ThresholdsSet` by ThresholdsRoundTrip;
- `RtdSequence` and `RtdResult` by RtdResultValue, RtdSequenceRegisters and RtdSequenceTrace;
- `BeginSequence` by BeginSequenceEffect.

## Left out

- `temperature` and `calculateTemperature` (src/MAX31865.cpp:175-231): single-precision
  floating point, `sqrt` and a fifth-order polynomial, which integers cannot model faithfully.
- `readRegisterN` (src/MAX31865.cpp:282-286): a pass-through to the SPI transfer that nothing in
  the core calls. It makes the same full-duplex transfer as the other two reads.
- The SPI and I2C transports are modelled only by their effect: the register file and a
  trace of transactions. Chip select, clocking and the I2C instance pointer are not modelled.
  The return value of `i2c_write_blocking`, which the source ignores, is not modelled either.
- `sleep_ms` is recorded as a `Sleep(ms)` trace event; no time passes.
- The MAX31865 is modelled as a plain register file. Writes store the byte as sent, and
  the chip's own behaviour is not modelled:
  - the 1-shot and fault-clear bits clearing themselves;
  - the conversion updating the RTD result registers;
  - the fault-status bits.
  So `RtdResult` is the result registers as the chip holds them when they are read.
- Register addresses, configuration bits and SSD1306 opcode names come from the MAX31865 and
  SSD1306 datasheets, because `MAX31865.hpp` and `SSD1306.hpp` are not part of this model. The
  values agree with the literals in the source: 0x2C, 0xA0/0xC0, 0x21/0x22. They also agree
  with src/example.cpp:84, which writes 0xD1 (bias, auto-convert, 3-wire and 50 Hz) to the
  configuration register.
- The MAX31865 constructor (src/MAX31865.cpp:15) does not store its `spi` argument. Which SPI
  instance the driver then uses depends on the header, which is not part of this model.
- The SSD1306 destructor's `delete` of a `new[]` buffer (src/SD1306.cpp:103) and the
  variable-length stack array in `sendData` are memory-management details. The buffer is an
  owned Dafny array and the message is a sequence.
- The framebuffer's contents after `new[]` are indeterminate in C++. Every contract of the
  model holds for any initial contents.
- The SSD1306 constructor's mem-initialisers `width(width), height(height)` copy the members
  into themselves before the body assigns them. The model starts from the resolved values.
- `drawPixel`'s `assert` (src/SD1306.cpp:176) becomes its precondition; an out-of-range pixel
  is not modelled.
- `clear(INVERSE)`: the code's switch has no INVERSE case, so the buffer is left unchanged,
  and the model does the same.
- The meaning of the initialisation sequence's magic bytes (COM pins 0x02, pre-charge 0xF1
  and so on) is not modelled. The sequence is recorded as a fixed list.
- `src/example.cpp` is not modelled: pin setup, the main loop and text drawing through a GFX
  class. Its register read (src/example.cpp:36-46) is used only as the reference for the
  corrected SPI read.
- The size tag: `Size` has exactly the three tags the constructor tests (W128xH32, W64xH32 and
  W128xH64). The `size` enum is declared in `SSD1306.hpp`, which is not part of this model; any
  further tag it may have resolves to 128x32, as the `else` branch does.

## Findings

| source | as written | input that shows it | evidently intended | confidence | as-written member | corrected member |
|---|---|---|---|---|---|---|
| src/MAX31865.cpp:264 | `readRegister8` makes one full-duplex transfer of a single byte, the address. The byte it returns is the one clocked in while the address goes out, before the chip drives any data. | a configuration register holding 0x5A, with the data line idling at 0xFF: the read returns 0xFF | send the address byte, then clock in one data byte, as src/example.cpp:36-46 does | not executed; relies on the MAX31865 sending data only after the address byte | Max31865Driver.DuplexRead8Shifted | Max31865Driver.Max31865.ReadRegister8 |
| src/MAX31865.cpp:273 | `readRegister16` makes one full-duplex transfer of two bytes starting at the one-byte `addr`. It takes the idle byte as MSB and the MSB register as LSB, and never reads the LSB register. The second byte it sends is read from past `addr`. | RTD registers 0x12 (MSB) and 0x34 (LSB), line idling at 0xFF: the read returns 0xFF12 instead of 0x1234 | send the address byte, then clock in two data bytes, MSB first | not executed; relies on the MAX31865 sending data only after the address byte | Max31865Driver.DuplexRead16Shifted | Max31865Driver.Max31865.ReadRegister16 |

In the model, the as-written reads are `DuplexRead8` and `DuplexRead16`. The driver object's
`ReadRegister8` and `ReadRegister16` read as intended, through `ShiftedOut`, and every other
operation builds on those two.
