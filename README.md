# ATmega16 ADC acquisition sketch, modelled in Dafny

The sketch in `src/main.c` runs on an ATmega16. A converter-complete interrupt
appends 8-bit samples to a 400-byte buffer. A foreground `loop()` reads
single-byte commands from the serial link:

- `'P'` plus one byte sets the prescaler index;
- `'S'` toggles sampling;
- `'R'` queries the settings.

The loop is also meant to send the buffer as a 404-byte data frame once it is
full. Configuration goes through read-modify-write updates of the converter
registers `ADCSRA` and `ADMUX`.

The model has three layers:

- **Firmware.Device** is the sketch as written. It is a class whose fields are
  the sketch's globals: `analogBuffer` (an `array` of 400 bytes), the byte
  `bufferIndex`, `samplingActive`, `samplingPaused`, the `settings` record, the
  registers `ADCSRA` and `ADMUX` (as `bv8`), an output log standing for
  `Serial.write`/`println`, and the received bytes with a read position standing
  for `Serial.available`/`read`. There is one method per routine, performing the
  same steps in the same order. `sendDataFrame` keeps its 400-iteration loop.
- **Machine** holds the same globals as one `State` value, with one function per
  routine. Each Device method is proved to leave exactly the state its function
  gives: `ensures Snapshot() == Toggled(old(Snapshot()))` and so on. The
  functions' contracts, and the lemmas beside them, state what the routines
  promise: alone, in sequence, and across any interleaving of interrupts and
  loop passes (`Run`).
- **Registers**, **Frames** and **Commands** give the datasheet bit positions
  and the prescaler table, the exact bytes of every reply, and the command
  decoder with its encoder (they round-trip).

`Bytes.byte` is the sketch's `byte`. Its wrap-around is written out: the
interrupt stores `(bufferIndex + 1) % 256`.

The model follows the code as written, defects included, and proves what they
lead to:

- `bufferIndex` is one byte, so it never reaches 400
  (`Machine.SamplesCursor`). The interrupt's capacity guard therefore always
  passes. Slots 256..399 keep their start value 0 (`Machine.Invariant`). The
  257th sample after a reset overwrites the first
  (`Machine.WrapOverwritesFirstSample`). The data-frame branch of `loop()` can
  never run (`Machine.LoopStep`). No interleaving of commands and conversions
  ever sends a byte 0xFF, so no data frame ever reaches the host
  (`Machine.RunSendsNoDataFrame`).
- `sendSettings` reports the global `adcPrescaler`, which is 2 and never
  assigned. Every settings reply is therefore `'S', 2, 153, 80`, whatever
  index a `'P'` command stored (`Machine.ServedPrescalerCommand`).
- `stopSampling` sets `samplingPaused`. From reset, the first `'S'` reports
  `'X', 0, 1` and the second reports `'X', 1, 0`
  (`Machine.ToggleTwiceReplies`). `samplingPaused == !samplingActive` holds
  from start-up on and is kept by every routine (`Machine.Invariant`,
  `Machine.RunKeepsInvariant`).
- `setADCPrescaler` copies the low three bits of the table value (2, 4, 8, …)
  into the ADPS field. That field encodes a power of two (datasheet table
  "ADC Prescaler Selections"), so the converter runs at /4, /16, /2, /2, /2,
  /2, /2 instead of the table's /2 … /128 (`Registers.ProgrammedDivisionFactor`).
  After a `'P'` command `ADSC` is left clear
  (`Firmware.PowerUpThenSetPrescaler`).

Where the design description and the code disagree, the model follows the code:

- The description's example expects `'X', 0, 0` after the first `'S'`.
- It expects no reply to an out-of-range `'P'`. The code sends the settings
  frame anyway.
- It expects a settings query to echo the index just set.
- It expects exactly 400 samples between data frames.

## Model

| member | source | states |
|---|---|---|
| Firmware.Device.constructor | src/main.c:3-21 | The globals start as declared: zeroed buffer, cursor 0, active, not paused, settings {3, 0, false, false, 128}, registers at reset value 0. The Machine invariant holds. |
| Firmware.Device.AdcInterrupt | src/main.c:194-198 | Ends in `Sampled` of the old state. Only the cursor and the buffer may change. |
| Firmware.Device.StartSampling | src/main.c:106-115 | Ends in `Started` of the old state. |
| Firmware.Device.StopSampling | src/main.c:117-124 | Ends in `Stopped` of the old state. |
| Firmware.Device.SendSamplingStatus | src/main.c:126-130 | Ends in `StatusSent` of the old state. Only the output log may change. |
| Firmware.Device.ToggleSampling | src/main.c:132-143 | Ends in `Toggled` of the old state and keeps the invariant. |
| Firmware.Device.SendDataFrame | src/main.c:83-96 | Its loop appends exactly `DataFrame(analogBuffer[..])` (404 bytes) to the output. Nothing else may change. |
| Firmware.Device.SendSettings | src/main.c:98-103 | Ends in `SettingsSent` of the old state: `'S', 2, 153, 80` appended. |
| Firmware.Device.SetInputChannel | src/main.c:36-40 | Ends in `ChannelSet` of the old state. |
| Firmware.Device.SetAdcPrescaler | src/main.c:42-55 | Its disable, clear, conditional ADPS ORs and enable steps end in `PrescalerSet` of the old state. |
| Firmware.Device.SetVoltageReference | src/main.c:57-64 | Ends in `ReferenceSet` of the old state. |
| Firmware.Device.SetTriggerMode | src/main.c:187-190 | Ends in `TriggerModeSet` of the old state. |
| Firmware.Device.InitializeAdc | src/main.c:66-74 | Composing the three setters with the ADCSRA writes ends in `AdcInitialized` of the old state. |
| Firmware.Device.HandleSerialCommands | src/main.c:145-166 | Ends in `Served` of the old state and keeps the invariant. Requires a `'P'` to have its parameter byte. |
| Firmware.Device.Loop | src/main.c:168-182 | Ends in `LoopStep` of the old state, which is one served command. |
| Firmware.PowerUpThenToggleTwice | src/main.c:77-143 | After construction, `initializeADC` and two `'S'` commands, the output is the STOPPED line, `'X',0,1`, the STARTED line, `'X',1,0`. Sampling is active and not paused. |
| Firmware.PowerUpThenSetPrescaler | src/main.c:42-163 | After `'P'`,0 and then `'R'`, index 0 is stored and ADCSRA is `PrescalerControl(0)`. Both replies are `'S',2,153,80`. |
| Registers.PrescalerControl | src/main.c:45-53 | The ADCSRA value after an accepted index has ADEN, ADATE and ADIE set and ADSC clear. Its ADPS field is the table entry's low three bits. |
| Registers.ProgrammedDivisionFactor | src/main.c:48-51 | For each index, the datasheet division factor of the programmed ADPS field is 4, 16, 2, 2, 2, 2, 2. It never equals the table entry. |
| Frames.Println | src/main.c:114 | A printed line is the text's bytes followed by CR and LF. |
| Frames.StatusFrame | src/main.c:126-130 | 3 bytes: `'X'`, then 1 iff active and 1 iff paused (0 otherwise). |
| Frames.SettingsFrame | src/main.c:98-103 | 4 bytes: `'S'` and the index. Byte 2 × 100 + byte 3 gives back the table rate in hundredths, with byte 3 < 100. |
| Frames.DataFrame | src/main.c:83-96 | Length is samples + 4. It starts with 0xFF 0xAA, ends with 0x55 0xEE, and byte i+2 is sample i. |
| Frames.SettingsFrameForIndexTwo | src/main.c:6 | The frame for index 2 is `'S', 2, 153, 80`. |
| Frames.TextLinesAreAscii | src/main.c:114-123 | Every byte of both status lines is below 0x80. |
| Commands.NextCommand | src/main.c:146-152 | Returns None iff no byte is available. Otherwise the consumed bytes are exactly the encoding of the decoded command, and any other byte decodes as Ignored. |
| Commands.EncodeThenDecode | src/main.c:149-163 | Decoding an encoded command gives back that command and moves past its 1 or 2 bytes, whatever surrounds it. |
| Machine.Initial | src/main.c:3-21 | The start-up state satisfies the invariant: valid settings, paused == !active, slots 256..399 zero. |
| Machine.Sampled | src/main.c:194-198 | When active: the sample is at the old cursor, the cursor becomes (old + 1) mod 256, and other slots and all other state are unchanged. When inactive: no change. The paused flag is not consulted. Keeps the invariant. |
| Machine.AfterSamples | src/main.c:194-198 | A run of interrupts changes only the buffer and the cursor, and changes nothing while inactive. |
| Machine.SamplesCursor | src/main.c:4 | After n interrupts while active, the cursor is (start + n) mod 256, always below 400. |
| Machine.SamplesInOrder | src/main.c:196 | Without a wrap, slot j holds sample j - start for start ≤ j < start + n. Every other slot is unchanged. |
| Machine.SamplesCompose | src/main.c:194-198 | Two runs of interrupts equal one run of their concatenation. |
| Machine.WrapOverwritesFirstSample | src/main.c:195-196 | From cursor 0, 257 samples leave the cursor at 1 and slot 0 holding the 257th sample. Slots 1..255 hold samples 1..255. |
| Machine.Started | src/main.c:106-115 | Paused is cleared and the cursor is 0. In ADCSRA, ADEN, ADATE, ADIE and ADSC are set and the other bits kept. The STARTED line is appended. Nothing else changes. |
| Machine.Stopped | src/main.c:117-124 | Paused is set. In ADCSRA, only ADATE is cleared. The STOPPED line is appended. Nothing else changes. |
| Machine.StatusSent | src/main.c:126-130 | Exactly the 3-byte status frame of the current flags is appended. Nothing else changes. |
| Machine.Toggled | src/main.c:132-143 | Active is negated and paused becomes !active. The cursor goes to 0 only when starting. ADCSRA is changed as in start or stop. Output is the line, then `'X'`, active, paused. Buffer, settings, ADMUX and read position are unchanged. Keeps the invariant. |
| Machine.ToggleTwice | src/main.c:132-143 | Two toggles restore both flags. When they end active, the cursor is 0. |
| Machine.DataFrameSent | src/main.c:83-96 | The output grows by the data frame of the whole buffer. Nothing else changes. |
| Machine.SettingsSent | src/main.c:98-103 | The output grows by `'S', 2, 153, 80` whatever the stored settings. Nothing else changes. |
| Machine.ChannelSet | src/main.c:36-40 | A channel > 5 changes nothing. Otherwise ADMUX keeps its high nibble, its low nibble becomes the channel, and the channel is stored. Keeps the invariant. |
| Machine.PrescalerSet | src/main.c:42-55 | An index ≥ 7 changes nothing. Otherwise ADCSRA is `PrescalerControl(index)` and the index is stored. Keeps the invariant. |
| Machine.ReferenceSet | src/main.c:57-64 | ADMUX only gains bits, and only REFS1/REFS0. REFS0 is always set, REFS1 is set when the flag is false, and the flag is stored. |
| Machine.TriggerModeSet | src/main.c:187-190 | Stores the trigger mode and level. Nothing else changes. |
| Machine.AdcInitialized | src/main.c:66-74 | From a valid state: ADCSRA is `PrescalerControl(stored index)` plus ADSC. The ADMUX low nibble is the stored channel and the REFS bits of the stored reference are ORed in. Settings and everything else are unchanged. |
| Machine.Served | src/main.c:145-166 | The buffer is unchanged. The read position moves by 0 to 2 bytes, by 0 only when no byte is available, and nothing changes then. |
| Machine.LoopStep | src/main.c:168-182 | A loop pass equals serving one command: the frame/reset/trigger branch can never run. |
| Machine.ServedKeepsInvariant | src/main.c:145-166 | Serving any command keeps the invariant. |
| Machine.ServedWithoutInput | src/main.c:146 | With no input available, a loop pass changes nothing. |
| Machine.ServedIgnoredByte | src/main.c:147-164 | A byte other than `'P'`, `'S'`, `'R'` is consumed and nothing else changes: no output, no state change. |
| Machine.ServedPrescalerCommand | src/main.c:150-155 | `'P'` consumes two bytes and stores an index < 7. The reply is always `'S',2,153,80`. An index ≥ 7 changes nothing but the position and the output. |
| Machine.ServedQueryCommand | src/main.c:161-163 | `'R'` consumes one byte and appends `'S',2,153,80`. Nothing else changes. |
| Machine.ServedToggleCommand | src/main.c:157-159 | `'S'` consumes one byte and toggles. |
| Machine.ToggleTwiceReplies | src/main.c:117-143 | From an active state, `'S'` then `'S'` reply STOPPED + `'X',0,1`, then STARTED + `'X',1,0`, and restore both flags. |
| Machine.Run | src/main.c:168-198 | Any interleaving of interrupts and loop passes keeps the buffer at 400 slots and the read position within the input. |
| Machine.RunKeepsInvariant | src/main.c:168-198 | Every interleaving keeps the invariant: paused == !active, valid settings, slots 256..399 zero. |
| Machine.ServedSendsNoFrameStart | src/main.c:145-166 | No command reply contains the byte 0xFF. |
| Machine.RunSendsNoDataFrame | src/main.c:168-182 | No interleaving ever outputs 0xFF, so the data frame never reaches the host. |

## Left out

- Serial transport (`Serial.begin`, baud rate, UART): output is an appended byte log and input a fixed byte sequence with a read position. `println` is the text followed by CR LF.
- Converter hardware (real conversions, `ADSC` self-clearing, the value of `ADCH`): the interrupt takes the sample as a parameter, and the registers are plain bytes that start at 0.
- Interrupt concurrency and `volatile`: the interrupt is an atomic step between whole routines (`Machine.Run` interleaves it between loop passes). An interrupt that fires inside a routine, for example between the flag flip and the cursor reset of `toggleSampling`, is not modelled.
- The busy wait for the `'P'` parameter (src/main.c:151): `HandleSerialCommands` requires the byte to be there. In `Machine.Run`, a pass whose parameter is missing stays blocked and changes nothing.
- `waitForTrigger` (src/main.c:23-34) is not modelled. It spins on the hardware latch `ADCH`, and it is only called from the `loop()` branch proved unreachable. The branch's state effect (frame, cursor reset) is in `Machine.LoopStep`.
- Firmware.Device.Loop: the unreachable branch is `assert false` in the method rather than the frame send, cursor reset and trigger wait. Its contract is still the full `Machine.LoopStep`.
- Floating-point `samplingRates` (src/main.c:6, 101-102) is an integer table of hundredths. Entries 0 and 1 (615.4, 307.7) would overflow the byte cast, so `SettingsFrame` requires an entry whose integer part fits a byte. Only entry 2 is ever read.
- `setup()` (src/main.c:77-80) is `Serial.begin` plus `initializeADC`. The scenario methods call the constructor and then `InitializeAdc`.
