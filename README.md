# pico_runtime_example in Dafny

A model of the byte-exact core of the pico_runtime_example repository. The repository has three parts:

- firmware for a Raspberry Pi Pico (RP2040);
- the Python host API that talks to it over USB serial;
- a Python generator that writes the C look-up-table readers used to play waveforms.

The model covers four groups of code.

- **Waveform look-up tables.** The FULL and OPT readers of the C template are modelled as a class with the template's `state` and `lut_position` fields. They are proved against the period they should play, together with the lengths `get_waveform_lgth_<id>` reports. The firmware's one generated instance (`waveform_lut1.c`) is modelled too, along with the generator's helpers: the C integer type choice, the `{$key}` placeholder substitution, and the template builder with its parameters.
- **The host↔MCU byte protocol.** This covers:
  - the host side: `InterfaceSerial.convert`, the string chunking and the UTF-8 round trip;
  - the firmware's three-byte receive FIFO, which fills from its last index down;
  - the two firmware command dispatchers, their reply encoders and the DAQ frame encoder;
  - the host's reply decoders, DAQ frame decoder and `echo`;
  - the LSL frame builder with its additive checksum.

  The `Protocol` module joins the two sides. It proves that a host frame reaches the firmware's dispatcher intact, and it states where the two command tables and the two DAQ layouts differ.
- **Peripheral drivers.** These are the LTC2668 DAC, the ADGS1208 multiplexer, the AD5141 and AD526x potentiometers, the SHT21 and VEML7700 sensors, and the I2C helpers. Each driver is a class whose methods append their bus traffic to a log. Each is proved against a function that says what the device reads from that traffic, using the device's data sheet.
- **Small conversions.** These are the state-code name tables and the recording-file name mapping.

Outside the drivers, C `uint8_t` and `uint16_t` arithmetic is written with explicit `% 256` and `% 65536`. The drivers' bit operations use `bv8` inside small lemmas. Python's raising paths are `Result` values (module `Wrappers`). The modules `Bytes`, `Bits` and `PyStr` hold the shared encodings and the few Python `str` operations the host code relies on.

## Model

| member | source | states |
|---|---|---|
| WaveformLutTemplate.GetWaveformLgthFull | generator/template_c/waveform_lut_template.h:48-50 | the FULL period length `lut_lgth`, or one less when the last point is skipped, fits a `uint16_t` |
| WaveformLutTemplate.FullNextInBounds | generator/template_c/waveform_lut_template.h:21-30 | with `skip_last_point` held constant the FULL reader either steps one position up or wraps to 0, and the position stays in [0, L-1] (in [0, L-2] when skipping) |
| WaveformLutTemplate.FullSweep | generator/template_c/waveform_lut_template.h:20-30 | from position i the FULL reader returns `offset + lut[i]`, `offset + lut[i+1]`, … up to its last position and is then back at (state 0, position 0) |
| WaveformLutTemplate.FullPeriod | generator/template_c/waveform_lut_template.h:20-50 | from the reset state one period of `get_waveform_lgth` calls returns `offset + lut[0..L)` (or `[0..L-1)` when skipping) and ends in the reset state: the reported length is the period |
| WaveformLutTemplate.FullSkipSwitchOverruns | generator/template_c/waveform_lut_template.h:21-29 | switching `skip_last_point` on while standing on L-1 fires neither reset branch, so the position becomes L, past the table |
| WaveformLutTemplate.OptNextInv | generator/template_c/waveform_lut_template.h:58-102 | for L ≥ 2 every OPT call keeps the state in 0..4 and the position in [0, L-1], in the combinations reachable from the reset state |
| WaveformLutTemplate.OptInvalidStateResets | generator/template_c/waveform_lut_template.h:98-102 | a state outside 0..4 returns the offset and resets to (state 0, position 0) |
| WaveformLutTemplate.RisingQuarter | generator/template_c/waveform_lut_template.h:58-81 | a rising quarter (state 0 or 2) from position i returns `offset ± lut[i..L-1)` in order and hands over to the next state at position L-1 |
| WaveformLutTemplate.FallingQuarter | generator/template_c/waveform_lut_template.h:66-93 | a falling quarter (state 1 or 3) from position i returns `offset ± lut[i]`, `lut[i-1]`, … `lut[1]` and hands over at position 0 (state 3 to 0 when skipping, to 4 otherwise) |
| WaveformLutTemplate.OptPositiveHalf | generator/template_c/waveform_lut_template.h:58-73 | the first 2(L-1) calls return `offset + lut[0..L-2]` then `offset + lut[L-1..1]` and end in state 2 at position 0 |
| WaveformLutTemplate.OptNegativeHalf | generator/template_c/waveform_lut_template.h:74-93 | the next 2(L-1) calls return the same values subtracted from the offset and end in state 4 (state 0 when skipping) |
| WaveformLutTemplate.OptCycle | generator/template_c/waveform_lut_template.h:58-104 | one OPT period (4L-3 calls, 4L-4 when skipping) from the reset state returns the whole-period wave and ends in the reset state |
| WaveformLutTemplate.OptWaveMirror | generator/template_c/waveform_lut_template.h:58-83 | output k + 2(L-1) of a period is 2·offset minus output k |
| WaveformLutTemplate.OptWaveBounds | generator/template_c/waveform_lut_template.h:58-104 | a table with values in [0, m] yields outputs within m of the offset |
| WaveformLutTemplate.GetWaveformLgthOpt | generator/template_c/waveform_lut_template.h:120-122 | the OPT length, 4L-2 with skipping and 4L-3 without, reduced to a `uint16_t` |
| WaveformLutTemplate.OptLengthNoSkip | generator/template_c/waveform_lut_template.h:120-122 | without skipping, the reported OPT length 4L-3 is the period |
| WaveformLutTemplate.OptLengthSkipDisagrees | generator/template_c/waveform_lut_template.h:120-122 | with skipping, the reported OPT length 4L-2 exceeds the period 4L-4 by two |
| WaveformLutTemplate.GetWaveformLgthOptCorrected | generator/template_c/waveform_lut_template.h:120-122 | the OPT length that equals the period in both cases, and agrees with the source without skipping |
| WaveformLutTemplate.OptSingleEntryRunsAway | generator/template_c/waveform_lut_template.h:58-65 | with L = 1 the reader never leaves state 0 and after k calls stands at position k |
| WaveformLutTemplate.WaveformSettings.constructor | generator/template_c/waveform_lut_template.h:39-45 | the static settings start in state 0 at position 0 with the instance's table, and with its length and offset reduced modulo 2^16 as the `uint16_t` fields store them |
| WaveformLutTemplate.WaveformSettings.ReadFull | generator/template_c/waveform_lut_template.h:16-32 | returns `offset + lut[position]` and moves the settings by `FullNext`, keeping the `uint8_t`/`uint16_t` field ranges |
| WaveformLutTemplate.WaveformSettings.ReadOpt | generator/template_c/waveform_lut_template.h:53-104 | returns the OPT value of the current state and moves the settings by `OptNext`, with `uint16_t` wrap-around of the position |
| WaveformLut1.Lut1ReadsPastTable | firmware/src/waveform_lut1.c:7 | with seven entries declared and six values listed, the seventh call from reset reads `lut[6]`, past the listed values |
| WaveformLut1.Lut1CorrectedInBounds | firmware/src/waveform_lut1.c:7 | with the seven-value table every call from reset reads inside the table |
| WaveformLut1.Lut1CorrectedCycle | firmware/src/waveform_lut1.c:7 | with the seven-value table and skipping, the period is 24 calls and returns the whole-period wave |
| WaveformLut1.Lut1CorrectedRange | firmware/src/waveform_lut1.c:7 | the corrected wave stays in [-8192, 8192], peaking at call 6 and bottoming at call 18 |
| Translater.FitsMeaning | generator/helper/translater.py:13 | the test `(w / bits_used) - 1 >= 0` means `bits_used <= w` for a positive bit count and never holds for a negative one |
| Translater.EmbeddedWidth | generator/helper/translater.py:12-13 | a width exists exactly for bit counts in [0, 64]; it is one of 8, 16, 32, 64, at least the bit count, and no smaller candidate is |
| Translater.GetEmbeddedDatatype | generator/helper/translater.py:4-14 | fails (the `[0]` of an empty selection) exactly above 64 bits or below 0; otherwise `[u]int<width>_t` with the `u` exactly when unsigned |
| Translater.ReplaceVariablesWithParameters | generator/helper/translater.py:17-39 | the output has one line per input line, line i is the substitution of input line i alone, and lines without `{$` come back unchanged |
| Translater.PlaceholderKeysOfRender | generator/helper/translater.py:30-33 | the keys the split on `{$` and `}` finds in a template line are its placeholder keys in order, and the line holds `{$` exactly when it has a placeholder |
| Translater.ReplaceKeyRenderSlots | generator/helper/translater.py:35-36 | one `replace` step fills exactly the placeholders with that key and leaves the others verbatim |
| Translater.ApplyKeysRender | generator/helper/translater.py:32-37 | applying the steps for a sequence of keys fills exactly the placeholders whose key is among them and is a parameter |
| Translater.SubstTemplate | generator/helper/translater.py:26-38 | on a well-formed line every `{$key}` whose key is a parameter is replaced by its value and placeholders with unknown keys stay verbatim |
| Translater.SubstTemplateIdempotent | generator/helper/translater.py:26-38 | on a well-formed line, with no parameter value holding `{`, a second substitution changes nothing |
| Translater.SubstNotIdempotent | generator/helper/translater.py:26-38 | without that condition a second pass can change the line: `{${$a}}` with a ↦ a gives `{$a}`, then `a` |
| WaveformLutGenerator.UseOption | generator/function_c/waveform_lut.py:91 | the option string is `OPT` exactly when the reduced table is asked for |
| WaveformLutGenerator.TemplateShape | generator/function_c/waveform_lut.py:84-115 | the header has 8 lines and the source 11, the parameter list is empty, both start with the banner naming the option, and the source's last line starts with `DEF_NEW_WAVEFORM_LUT_<option>_IMPL(` |
| WaveformLutGenerator.PrototypeLineText | generator/function_c/waveform_lut.py:100 | the header's last line is the prototype macro applied to the placeholders of the id and the two type names |
| WaveformLutGenerator.LinesOk | generator/function_c/waveform_lut.py:92-114 | every template line is well formed and names only keys of the parameter dictionary |
| WaveformLutGenerator.ModuleIdUsed | generator/function_c/waveform_lut.py:29 | the id used is never empty and is the given id whenever that is not empty |
| WaveformLutGenerator.IdHandling | generator/function_c/waveform_lut.py:29-50 | an empty id becomes `0`; for an ASCII id, upper-casing changes exactly the lower-case letters and lower-casing undoes it |
| WaveformLutGenerator.BitwidthRoundTrip | generator/function_c/waveform_lut.py:32-33 | the width parsed back out of `[u]int<w>_t` by the two splits is w |
| WaveformLutGenerator.CounterWidth | generator/function_c/waveform_lut.py:51 | a counter type exists exactly for 1 to 2^64 entries, and it is the smallest of 8, 16, 32, 64 bits whose range covers the size |
| WaveformLutGenerator.LutOffsetMidScale | generator/function_c/waveform_lut.py:55 | the unsigned offset is half of 2^width, the midpoint of the unsigned range, and the signed offset is 0 |
| WaveformLutGenerator.Params | generator/function_c/waveform_lut.py:46-58 | the dictionary has exactly the eleven keys the templates use |
| WaveformLutGenerator.ParamsPlain | generator/function_c/waveform_lut.py:46-58 | when the time stamp, include path and id hold no `{`, no dictionary value does |
| WaveformLutGenerator.NoPlaceholdersLeft | generator/function_c/waveform_lut.py:60-62 | substituting such a dictionary into the template leaves no `{$` in any line of either file |
| WaveformLutGenerator.PrototypeLine | generator/function_c/waveform_lut.py:61 | the generated prototype line is the macro applied to the id and the two type names from the dictionary |
| WaveformLutGenerator.GenerateWaveformLutC | generator/function_c/waveform_lut.py:11-81 | succeeds exactly when the bit size is in [0, 64] and the table has 1 to 2^64 entries; the files are named after the lower-cased id, have 8 and 11 lines, each line is the template line with its placeholders filled from the dictionary (the id upper-cased, the chosen data and counter types, the offset, the table), and no placeholder is left when the inputs hold no `{` |
| McuConv.ConvertPinState | python_api/api/mcu_conv.py:1-10 | the name is `NONE` exactly for code 0 and `LED_USER` for every other code |
| McuConv.ConvertSystemState | python_api/api/mcu_conv.py:13-21 | a name exactly for codes in [0, 6), ValueError otherwise, and the name is that code's entry of the six-name list |
| McuConv.SystemStateTable | python_api/api/mcu_conv.py:18 | codes 0 to 5 name ERROR, RESET, INIT, IDLE, TEST and DAQ |
| McuConv.SystemStateInjective | python_api/api/mcu_conv.py:13-21 | two accepted codes with the same name are the same code |
| Conversion.ConvertPinState | python_api/api/conversion.py:4-8 | the name is `NONE` exactly for code 0 and `LED_USER` otherwise |
| Conversion.ConvertSystemState | python_api/api/conversion.py:11-13 | list indexing: a name exactly for codes in [-6, 6), negative codes counting from the end, IndexError otherwise |
| Conversion.PinStateAgrees | python_api/api/conversion.py:4-8 | the older pin converter agrees with the range-checked module's on every code |
| Conversion.SystemStateAgrees | python_api/api/conversion.py:11-13 | on [0, 6) both converters agree; on [-6, 0) the older one answers a name where the newer raises ValueError |
| Conversion.NegativeStates | python_api/api/conversion.py:11-13 | -1 names DAQ and -6 ERROR; 6 and -7 raise IndexError |
| Interface.ToBytesLittle | python_api/api/interface.py:65-66 | `to_bytes(k, 'little')` succeeds exactly for 0 <= n < 256^k, with OverflowError otherwise, and gives k bytes whose little-endian value is n |
| Interface.Convert | python_api/api/interface.py:63-67 | a frame exists exactly when data and head fit their byte counts; it has `total_num_bytes` bytes, the data little-endian first and the head after it |
| Interface.ConvertThreeBytes | python_api/api/interface.py:30-67 | with the default one head byte and two data bytes the frame is `[data low, data high, head]` |
| Interface.SerializeString | python_api/api/interface.py:92-97 | one chunk per two characters of the (optionally blank-padded) string, each the big-endian value of that pair's UTF-8 bytes |
| Interface.DeserializeString | python_api/api/interface.py:100-102 | with padding the last byte is dropped before decoding, without it the bytes are decoded whole |
| Interface.DecodeEncode | python_api/api/interface.py:96-102 | UTF-8 decoding gives back every encoded string |
| Interface.StringRoundTrip | python_api/api/interface.py:92-102 | an ASCII string padded when its length is odd, chunked, written two bytes per chunk big-endian and deserialised with the same flag comes back unchanged |
| Interface.ChunksOfAscii | python_api/api/interface.py:96 | the chunks of an even-length ASCII string, written two bytes each, are the string's bytes |
| Interface.GetComportName | python_api/api/interface.py:11-21 | a port name exactly when some listed port has both the VID and the PID, ConnectionError otherwise, and the name is that of the first such port |
| McuApi.Slice | python_api/api/mcu_api.py:222-225 | Python slicing is clipped to the bytes present: it is the exact slice when the end is in range and never longer than asked |
| McuApi.PrepareDaqForLsl | python_api/api/mcu_api.py:212-226 | an empty read or a frame without 0xA0 first and 0xFF last gives the empty list; otherwise timestamp (bytes 2-9), index (byte 1) and the two channels (bytes 10-11, 12-13), little-endian |
| McuApi.HostDaqFrame | python_api/api/mcu_api.py:218-226 | the 15-byte layout the decoder expects starts with 0xA0 and ends with 0xFF |
| McuApi.DecodeHostDaqFrame | python_api/api/mcu_api.py:212-226 | the decoder reads back timestamp, index and both channels of that layout |
| McuApi.ShortFrameDecodes | python_api/api/mcu_api.py:215-226 | the length is never checked: the two sentinel bytes alone decode, with zeros for the missing fields |
| McuApi.CheckHeader | python_api/api/mcu_api.py:145-146 | a reply passes exactly when its first byte is the expected command; an empty reply raises IndexError, another header ValueError |
| McuApi.SystemClockKhz | python_api/api/mcu_api.py:142-147 | accepted exactly with header 2; the clock is ten times the little-endian payload |
| McuApi.RuntimeMicros | python_api/api/mcu_api.py:159-166 | accepted exactly with header 5; the runtime is the little-endian payload and below 256 to the payload length |
| McuApi.FirmwareVersion | python_api/api/mcu_api.py:168-175 | accepted exactly with header 6 and two payload bytes; a wrong header raises ValueError; the version is `major.minor` in decimal |
| McuApi.FirmwareVersionParses | python_api/api/mcu_api.py:175 | the version string splits at the dot into the two numbers, which parse back to the two bytes |
| McuApi.LastByte | python_api/api/mcu_api.py:151 | `ret[-1]` exists exactly for a non-empty reply and is its last byte |
| McuApi.SystemState | python_api/api/mcu_api.py:149-152 | a name exactly when the reply's last byte is below 6, and it is that code's state name |
| McuApi.PinState | python_api/api/mcu_api.py:154-157 | a name for every non-empty reply, `NONE` exactly when the last byte is 0 |
| McuApi.EchoPadding | python_api/api/mcu_api.py:133 | the string is padded exactly when its length is odd |
| McuApi.EchoStep | python_api/api/mcu_api.py:135-139 | one exchange succeeds exactly when the chunk fits two bytes and the reply starts with 0, and then appends the reply without its first byte |
| McuApi.EchoErrSticks | python_api/api/mcu_api.py:135-139 | once an exchange raises, the loop's result stays that exception |
| McuApi.EchoExchange | python_api/api/mcu_api.py:134-139 | the loop's result is the step-by-step specification of the exchange, and every frame written is a chunk sent as command 0 |
| McuApi.Echo | python_api/api/mcu_api.py:128-140 | the result is the exchange of the serialised string followed by deserialisation with the same padding flag |
| McuApi.DeviceApi.constructor | python_api/api/mcu_api.py:61-73 | the stored sampling rate starts at 4 Hz, no recording thread runs and nothing has been written |
| McuApi.DeviceApi.Write | python_api/api/mcu_api.py:92-95 | the frame of a two-byte value is appended to what was written, the rate unchanged |
| McuApi.DeviceApi.DoReset | python_api/api/mcu_api.py:120-126 | when the recording threads run, the `stop_daq` frame `[0, 0, 11]` is written first and the threads end; then `[0, 0, 1]`; the rate is unchanged |
| McuApi.DeviceApi.EnableLed | python_api/api/mcu_api.py:189-193 | writes exactly `[0, 0, 7]` |
| McuApi.DeviceApi.DisableLed | python_api/api/mcu_api.py:195-199 | writes exactly `[0, 0, 8]` |
| McuApi.DeviceApi.ToggleLed | python_api/api/mcu_api.py:201-205 | writes exactly `[0, 0, 9]` |
| McuApi.DeviceApi.StartDaq | python_api/api/mcu_api.py:228-246 | the recording threads run and exactly `[0, 0, 10]` is written |
| McuApi.DeviceApi.StopDaq | python_api/api/mcu_api.py:248-251 | the recording threads end and exactly `[0, 0, 11]` is written |
| McuApi.DeviceApi.UpdateDaqSamplingRate | python_api/api/mcu_api.py:257-268 | ValueError exactly below 0 or above 10000, with nothing changed; otherwise the rate is stored and `[low, high, 12]` of its integer part is written |
| DataApi.GlobH5 | python_api/api/data_api.py:41 | the overview holds exactly the listed names ending in `.h5`, each placed in the data folder |
| DataApi.NewDataApi | python_api/api/data_api.py:32-41 | every overview entry is an `.h5` file of the given folder |
| DataApi.WithPrefixSpec | python_api/api/data_api.py:43-45 | the data files are exactly the overview entries whose names contain the data prefix, kept in overview order |
| DataApi.GetFileNameData | python_api/api/data_api.py:47-49 | a path exactly for an index in [-n, n) of the n data files, negative indices counting from the end, IndexError otherwise |
| DataApi.GetFileNameUtil | python_api/api/data_api.py:51-54 | succeeds exactly when the data-file lookup does (IndexError otherwise), and names the utilisation file of data file n, a negative n counting from the end |
| DataApi.UtilPathOfPrefixed | python_api/api/data_api.py:54 | a file named data prefix plus a tail without the prefix's first character maps to util prefix plus the same tail in the same folder |
| DataApi.ReadUtilizationFile | python_api/api/data_api.py:84-94 | the utilisation file is read exactly when the index is valid and the file exists; a missing file raises AttributeError |
| DaqSample.DaqFrame | firmware/src/daq_sample.c:36-50 | 14 bytes: packet id, iteration, runtime byte k at position 2+k, channel id at 10, end marker 0xFF at 13 |
| DaqSample.DaqFrameDecodes | firmware/src/daq_sample.c:36-50 | every field is read back from the frame: runtime from bytes 2-9 and value from bytes 11-12, little-endian |
| DaqSample.SendDaqDataUsb | firmware/src/daq_sample.c:36-51 | the buffer sent, filled by shifting the runtime out one byte per loop step, is exactly that frame |
| DaqSample.FrameEqual | firmware/src/daq_sample.c:37-49 | a 14-byte buffer that agrees with the layout at every position is the frame |
| DaqSample.TimerIrq.UpdateDaqSamplingRate | firmware/src/daq_sample.c:11-23 | the period becomes the new value and the running flag is unchanged; a running timer is disabled before and re-enabled after, an idle one is not touched; the result is the running flag on entry |
| RpcCallbacks.StateSystemReply | firmware/callbacks/rpc_callbacks.c:36-43 | three bytes: the state-query code first and the system state last |
| RpcCallbacks.ClockReply | firmware/callbacks/rpc_callbacks.c:46-54 | three bytes after the clock-query code, holding the clock in units of 10 kHz cut to 16 bits, little-endian |
| RpcCallbacks.StatePinReply | firmware/callbacks/rpc_callbacks.c:57-63 | three bytes with the pin-query code first and a last byte that is non-zero exactly when the LED is on |
| RpcCallbacks.RuntimeFrame | firmware/callbacks/rpc_callbacks.c:66-75 | nine bytes: the header, then the runtime read back little-endian from the other eight |
| RpcCallbacks.FillRuntime | firmware/callbacks/rpc_callbacks.c:67-73 | the buffer filled by shifting the runtime out one byte per loop step is exactly that frame |
| RpcCallbacks.RuntimeFrameEqual | firmware/callbacks/rpc_callbacks.c:67-73 | a nine-byte buffer that agrees with the runtime frame at every position is that frame |
| RpcCallbacks.FirmwareReply | firmware/callbacks/rpc_callbacks.c:78-84 | three bytes after the firmware code: the values of the version's first and third characters when they are digits |
| RpcCallbacks.TempReply | firmware/callbacks/rpc_callbacks.c:87-95 | three bytes after the temperature code, holding the raw ADC value little-endian |
| RpcCallbacks.RequestedHz | firmware/callbacks/rpc_callbacks.c:126 | the requested rate is bytes 1 and 2, high byte first, below 65536 |
| RpcCallbacks.PeriodUs | firmware/callbacks/rpc_callbacks.c:125-128 | a period exists exactly for a non-zero rate; for 0 the division is infinite and the conversion to `int64_t` undefined |
| RpcCallbacks.PeriodBounds | firmware/callbacks/rpc_callbacks.c:127 | the period is negative and its magnitude is the whole number of microseconds in one sampling interval |
| RpcCallbacks.Dispatch | firmware/callbacks/rpc_callbacks.c:133-151 | one event at most, appended to the log; no event exactly for the three LED commands; only start and stop change the system state and only the LED commands the LED |
| RpcCallbacks.Apply | firmware/callbacks/rpc_callbacks.c:133-154 | a frame that is not ready changes nothing; a ready one is dispatched |
| RpcCallbacks.RepliesCarryCommand | firmware/callbacks/rpc_callbacks.c:36-95 | every query answers with one frame whose first byte is the command code, leaving state and LED alone |
| RpcCallbacks.EchoReturnsBuffer | firmware/callbacks/rpc_callbacks.c:26-28 | an echo sends back the first `length` bytes of the buffer and does nothing else |
| RpcCallbacks.LedCommands | firmware/callbacks/rpc_callbacks.c:98-110 | toggling twice restores the board; enable and disable set the LED whatever it was |
| RpcCallbacks.StartStopDaq | firmware/callbacks/rpc_callbacks.c:113-122 | start then stop leaves the system idle, with sampling started and then stopped and the LED unchanged |
| RpcCallbacks.UnknownCommandSleeps | firmware/callbacks/rpc_callbacks.c:150 | an unknown command only waits 10 microseconds |
| RpcCallbacks.RpcBoard.constructor | firmware/callbacks/rpc_callbacks.c:133 | the board starts with the given state, LED and an empty log |
| RpcCallbacks.RpcBoard.ApplyRpcCallback | firmware/callbacks/rpc_callbacks.c:133-154 | always true, and the board's new state is that of the dispatch specification |
| RpcCallbacksLegacy.LegacyPeriodUs | firmware/src/rpc_callbacks.c:83-86 | the period is minus 256 times bytes 1 and 2 read high byte first, never positive |
| RpcCallbacksLegacy.DispatchLegacy | firmware/src/rpc_callbacks.c:90-105 | only byte 2 of the buffer can change, and only for the two state queries; at most one event is appended |
| RpcCallbacksLegacy.ApplyLegacy | firmware/src/rpc_callbacks.c:90-108 | a frame that is not ready changes nothing; a ready one is dispatched |
| RpcCallbacksLegacy.StateRepliesInPlace | firmware/src/rpc_callbacks.c:32-41 | a three-byte state query is answered in place: its own first two bytes and the state or LED as the last byte |
| RpcCallbacksLegacy.RuntimeReplyHeader | firmware/src/rpc_callbacks.c:44-53 | the runtime reply repeats the command byte and carries the runtime little-endian |
| RpcCallbacksLegacy.LegacyPeriodScale | firmware/src/rpc_callbacks.c:84-85 | the period is 256 microseconds per unit of the two bytes the current dispatcher reads as a rate |
| RpcCallbacksLegacy.LegacyBoard.constructor | firmware/src/rpc_callbacks.c:90 | the board starts with the given state, LED and an empty log |
| RpcCallbacksLegacy.LegacyBoard.ApplyRpcCallback | firmware/src/rpc_callbacks.c:90-108 | always true; the board and the receive buffer become those of the dispatch specification |
| UsbFifo.Step | firmware/hal/usb.c:6-18 | the received byte lands at the position and nothing else in the buffer changes; `ready` is raised exactly when the position was 0; a valid FIFO stays valid |
| UsbFifo.StepPosition | firmware/hal/usb.c:11-17 | the position drops by one, or wraps from 0 to `length - 1` |
| UsbFifo.ZeroLengthWraps | firmware/hal/usb.c:12 | with `length` 0 the 8-bit wrap lands on 255 |
| UsbFifo.Feed | firmware/hal/usb.c:6-18 | any run of received bytes keeps the FIFO valid, its size and its length |
| UsbFifo.FeedSnoc | firmware/hal/usb.c:6-18 | feeding one more byte is one more call |
| UsbFifo.FeedDown | firmware/hal/usb.c:8-17 | up to `position + 1` bytes fill the slots from the position downwards in arrival order, leave the other slots alone, and raise `ready` only with the byte stored at 0 |
| UsbFifo.FifoBatch | firmware/hal/usb.c:6-18 | a batch of `length` bytes from the top lands in reverse order, the k-th byte at `length - 1 - k`, and leaves the FIFO ready and back at the top |
| UsbFifo.ReadyEveryLength | firmware/hal/usb.c:11-17 | from the top, after j calls the position is `length - 1 - j mod length`, and `ready` holds exactly when j is a non-zero multiple of `length` |
| UsbFifo.BatchReversed | firmware/hal/usb.c:8 | reading a full batch back from the top index gives the bytes in arrival order |
| UsbFifo.FifoBuffer.constructor | firmware/hardware_io.c:7-13 | zeroed data, full length, position at the top, not ready |
| UsbFifo.FifoBuffer.Handle | firmware/hal/usb.c:6-18 | the FIFO's new state is that of one step with the received byte, and a valid FIFO stays valid |
| HexSend.Bits16 | template/hal/usb.c:35 | `data & 0xFFFF` of an `int16_t` is its two's-complement pattern: below 65536 and equal to the value or the value plus 65536 |
| HexSend.Uint16ToHex | template/hal/usb.c:27-31 | the separator, then two bytes whose big-endian value is the data |
| HexSend.Int16ToHex | template/hal/usb.c:39-43 | the separator, then two bytes whose big-endian value is the 16-bit pattern; the high byte has its top bit set exactly for a negative value |
| HexSend.Int16RoundTrip | template/hal/usb.c:39-43 | the two bytes read back as a signed 16-bit number give the value sent |
| HexSend.HexDigit | template/hal/usb.c:23 | every digit `%x` prints is a lower-case hex digit |
| HexSend.HexString4 | template/hal/usb.c:23 | `%c%04x` prints the separator and four lower-case hex digits |
| HexSend.HexString4Value | template/hal/usb.c:23 | the four digits read back, most significant first, give the value |
| HexSend.Uint16ToHexString | template/hal/usb.c:22-24 | five characters starting with the separator; the digits are those of `HexString4Value` |
| HexSend.Int16ToHexString | template/hal/usb.c:34-36 | five characters starting with the separator, the digits of the 16-bit pattern |
| HexSend.HexFormsAgree | template/hal/usb.c:34-43 | the digit pairs of the text form are the two bytes of the raw form, so both carry the same 16 bits |
| CommunicationUsb.DataRead | firmware/src/communication_usb.c:51 | the 16-bit value has `buffer[1]` as its high byte and `buffer[0]` as its low byte |
| CommunicationUsb.Dispatch | firmware/src/communication_usb.c:29-56 | '1' and '0' set the LED state, 'A' and 'Q' enable and disable the timer interrupt, 'Y' prints the 'D' message of the two data bytes; the test pin is untouched |
| CommunicationUsb.Process | firmware/src/communication_usb.c:23-59 | an incomplete frame only stores the byte; after a completed frame the test pin follows the LED state |
| CommunicationUsb.FrameYEchoesData | firmware/src/communication_usb.c:49-53 | the frame 'Y', hi, lo from the top of a three-byte FIFO answers 'D', hi, lo, the data bytes in the order they were sent |
| CommunicationUsb.UsbCommunication.ProcessUsbData | firmware/src/communication_usb.c:23-59 | the FIFO stays valid and the routine's new state is that of one `Process` step |
| UsbHandlerLib.LedCommand | firmware/lib/usb_handler.c:25-39 | '1' turns the LED state on, '0' off, and any other byte keeps it and prints `Invalid Input!` |
| UsbHandlerLib.Process | firmware/lib/usb_handler.c:19-42 | an incomplete frame changes nothing but the FIFO; after a completed frame the LED pin is driven to the stored state |
| UsbHandlerLib.FrameActsOnFirstByte | firmware/lib/usb_handler.c:19-42 | a three-byte frame from the top acts on its first byte, drives the pin to the new state and leaves the FIFO ready at the top |
| UsbHandlerLib.UsbHandler.ProcessUsbData | firmware/lib/usb_handler.c:19-42 | the FIFO stays valid and the handler's new state is that of one `Process` step |
| UsbHandlerWrapper.Process | template/wrapper/usb_handler.c:22-49 | an incomplete frame changes neither LED nor output; '0' and '1' switch the LED and any other byte echoes the FIFO from its top index down |
| UsbHandlerWrapper.FrameEchoedInOrder | template/wrapper/usb_handler.c:41-45 | a three-byte frame not starting with '0' or '1' is echoed back in the order it arrived |
| UsbHandlerWrapper.FrameSwitchesLed | template/wrapper/usb_handler.c:30-40 | a frame starting with '0' or '1' leaves the LED off or on |
| UsbHandlerWrapper.UsbWrapper.EchoFifo | template/wrapper/usb_handler.c:43-45 | the loop prints the first `length` buffer bytes from the top index down and leaves the LED alone |
| UsbHandlerWrapper.UsbWrapper.ProcessUsbData | template/wrapper/usb_handler.c:22-49 | the FIFO stays valid and the wrapper's new state is that of one `Process` step |
| UsbCallbacks.SendBytes | template/src/usb_callbacks.c:16-20 | defined exactly when the count fits the buffer, and then the first n bytes from the last down |
| UsbCallbacks.EchoAsWrittenOverruns | template/src/usb_callbacks.c:24-26 | with `sizeof(char *)` = 4 as the count, the echo reads past the three-byte FIFO whatever it holds |
| UsbCallbacks.EchoCorrectedInOrder | template/src/usb_callbacks.c:24-26 | with the FIFO length as the count, a full frame is echoed in the order it arrived |
| UsbCallbacks.SendStateCorrected | template/src/usb_callbacks.c:29-32 | with the FIFO length as the count, the reply has `length` bytes and ends with the system state |
| UsbCallbacks.Apply | template/src/usb_callbacks.c:51-68 | an incomplete frame changes neither LED nor output; toggle inverts the LED; an unknown command changes nothing |
| UsbCallbacks.StateReply | template/src/usb_callbacks.c:29-32 | a state request is answered in arrival order with its command byte, its second byte and the system state, which also replaces `buffer[0]` |
| UsbCallbacks.UsbCallbackHandler.SendBytesLoop | template/src/usb_callbacks.c:16-20 | the loop outputs the first n bytes from the last down and leaves the LED alone |
| UsbCallbacks.UsbCallbackHandler.ApplyUsbCallback | template/src/usb_callbacks.c:51-68 | always true; the FIFO stays valid and the handler's new state is that of one `Apply` step |
| LslMapper.Checksum | library/LSL/lsl_mapper.c:7-13 | the checksum byte differs from the arithmetic sum of the bytes by a multiple of 256 |
| LslMapper.CalcChecksum | library/LSL/lsl_mapper.c:7-14 | summing in a `uint16_t` gives the checksum of the first `len` bytes; it is stored at `frame[len]` and nothing else changes |
| LslMapper.Body | library/LSL/lsl_mapper.c:26-29 | start byte, command, data length cut to 8 bits, then the data |
| LslMapper.LslBuildFrame | library/LSL/lsl_mapper.c:25-33 | always true; the array holds the header and data, with the checksum of the first `(len + 3) mod 2^16` bytes stored right after them, and the rest untouched |
| LslMapper.LslFrame | library/LSL/lsl_mapper.c:25-33 | the complete frame is four bytes longer than the data |
| LslMapper.BuiltFrame | library/LSL/lsl_mapper.c:25-33 | below the 16-bit wrap the built array is the complete frame followed by the untouched bytes |
| LslMapper.BuiltFrameValidates | library/LSL/lsl_mapper.c:12 | every complete frame ends with the checksum of the bytes before it, and its length byte is the data length modulo 256 |
| LslMapper.SumUpdate | library/LSL/lsl_mapper.c:9-10 | replacing one byte changes the sum by the difference of the two bytes |
| LslMapper.SingleByteErrorDetected | library/LSL/lsl_mapper.c:7-13 | changing any single byte changes the checksum |
| Protocol.ReceiveByte | firmware/callbacks/rpc_callbacks.c:133-154 | one received byte steps the FIFO and calls the dispatcher with its buffer, length and ready flag; nothing is dispatched until the frame is complete |
| Protocol.ReceiveBytes | firmware/hal/usb.c:6-18 | the FIFO after a run of bytes is the FIFO fed with them, and stays valid |
| Protocol.FrameReachesDispatcher | python_api/api/interface.py:63-67 | a host frame `convert(head, data)` lands in the FIFO as head, high byte, low byte; the dispatcher runs exactly once, on the third byte, and the FIFO is back at the top |
| Protocol.DispatchOnFrame | firmware/callbacks/rpc_callbacks.c:125-136 | the dispatcher only reads the first three buffer bytes |
| Protocol.FrameEffect | firmware/callbacks/rpc_callbacks.c:133-151 | the firmware's answer to one host frame is the dispatch of `[head, data high, data low]` |
| Protocol.EchoReply | firmware/callbacks/rpc_callbacks.c:26-28 | the firmware's reply to an echo chunk is command 0 followed by the chunk's two bytes, high first |
| Protocol.FirmwareEchoesChunk | firmware/callbacks/rpc_callbacks.c:26-28 | every echo frame of the host comes back as that reply |
| Protocol.EchoPrefixCollects | python_api/api/mcu_api.py:134-139 | with the firmware's echo replies, the first n exchanges collect the bytes of the first n chunks |
| Protocol.EchoCollectsAll | python_api/api/mcu_api.py:134-139 | with the firmware's echo replies, all exchanges together collect the bytes of every chunk |
| Protocol.EchoRoundTrip | python_api/api/mcu_api.py:128-140 | `echo(s)` returns s for every ASCII string when the device answers as the firmware's echo does |
| Protocol.TablesShifted | python_api/api/mcu_api.py:189-205 | the host's and firmware's codes agree up to the firmware query and are one apart from the LED commands on |
| Protocol.HostEnableLedQueriesTemperature | python_api/api/mcu_api.py:189-193 | as written, `enable_led` makes the firmware answer a temperature query and leaves the LED as it was |
| Protocol.HostStopDaqStartsSampling | python_api/api/mcu_api.py:248-251 | as written, `stop_daq` makes the firmware start sampling |
| Protocol.HostCodeMatchesFirmware | firmware/callbacks/rpc_callbacks.c:7-22 | the corrected host table gives each operation the firmware's code, and no two operations share a code |
| Protocol.EnableLedArrives | firmware/callbacks/rpc_callbacks.c:98-100 | with the corrected code, enable turns the LED on and changes nothing else |
| Protocol.DisableLedArrives | firmware/callbacks/rpc_callbacks.c:103-105 | with the corrected code, disable turns the LED off and changes nothing else |
| Protocol.ToggleLedArrives | firmware/callbacks/rpc_callbacks.c:108-110 | with the corrected code, toggle inverts the LED and changes nothing else |
| Protocol.StartDaqArrives | firmware/callbacks/rpc_callbacks.c:113-122 | with the corrected codes, `start_daq` starts sampling and the host then reads the state as DAQ |
| Protocol.StopDaqArrives | firmware/callbacks/rpc_callbacks.c:113-122 | with the corrected codes, `stop_daq` stops sampling and the host then reads the state as IDLE |
| Protocol.HostRateBelowOneUndefined | python_api/api/mcu_api.py:261-268 | every rate in [0, 1) passes the host's check and reaches the firmware as 0, whose period is undefined |
| Protocol.RateReachesTimer | firmware/callbacks/rpc_callbacks.c:125-128 | every rate from 1 to 10000 Hz reaches the timer as a defined negative period of whole microseconds per sample of its integer part |
| Protocol.ClockReplyDecodes | python_api/api/mcu_api.py:142-147 | the clock reply reads back as the clock in kHz rounded down to a multiple of 10, while it fits the 16-bit field |
| Protocol.StateReplyDecodes | python_api/api/mcu_api.py:149-152 | the state reply reads back as the state's name: DAQ after start and IDLE after stop |
| Protocol.PinReplyDecodes | python_api/api/mcu_api.py:154-157 | the pin reply reads back as `LED_USER` exactly when the LED is on |
| Protocol.RuntimeReplyDecodes | python_api/api/mcu_api.py:159-166 | the runtime reply reads back as the runtime counter |
| Protocol.FirmwareReplyDecodes | python_api/api/mcu_api.py:168-175 | a version starting with two single digits around a dot reads back as `M.m` |
| Protocol.DaqLayoutsDisagree | python_api/api/mcu_api.py:212-226 | the firmware's 14-byte DAQ frame, read as the host's 15-byte layout, gives runtime and iteration intact but mixes channel id, value and end marker into the two channel fields |
| I2cHandler.Mask78 | firmware/lib/i2c_handler.c:18 | `addr & 0x78` is a multiple of 8 no larger than 0x78 |
| I2cHandler.Mask78IsAnd | firmware/lib/i2c_handler.c:18 | the arithmetic form agrees with the bitwise mask on every byte |
| I2cHandler.ReservedGroups | firmware/lib/i2c_handler.c:17-19 | a seven-bit address is reserved exactly when it is below 0x08 or at least 0x78, the two groups section 3.1.12 of the I2C-bus specification (NXP UM10204) reserves |
| I2cHandler.CountReservedBelow | firmware/lib/i2c_handler.c:17-19 | the number of reserved addresses below n counts the low group up to 8 and the high group from 0x78 |
| I2cHandler.SixteenReserved | firmware/lib/i2c_handler.c:17-19 | 16 of the 128 seven-bit addresses are reserved |
| I2cHandler.TranslateArrayIntoUint | firmware/lib/i2c_handler.c:71-77 | defined exactly while every shift stays inside a signed 32-bit `int` (under four bytes, or four with the top byte below 0x80); then the result is the little-endian value of the bytes |
| I2cHandler.IntRange | firmware/lib/i2c_handler.c:74 | in those cases the value stays below 2^31 |
| I2cHandler.I2cDevice.constructor | firmware/lib/i2c_handler.h:24-30 | the default handler runs at 100 kHz and is not configured |
| I2cHandler.I2cDevice.ConfigureI2cModule | firmware/lib/i2c_handler.c:4-14 | returns true and sets the flag; the bus is initialised at `fi2c_khz * 1000` Hz and both pins are switched to I2C with pull-ups, in that order |
| I2cHandler.I2cDevice.ConstructI2cWriteData | firmware/lib/i2c_handler.c:54-58 | returns true after one write with a stop and a 10 us wait |
| I2cHandler.I2cDevice.ConstructI2cReadData | firmware/lib/i2c_handler.c:61-68 | returns true after a write without stop, a 10 us wait, and reads repeated with 2 ms waits until the first one that does not return `PICO_ERROR_GENERIC` |
| I2cHandler.RetryCalls | firmware/lib/i2c_handler.c:64-66 | n failed reads are n read calls, each followed by a 2 ms wait |
| Ltc2668.SpiFrame | library/LTC2668/ltc2668.c:5-12 | the 24-bit SPI word is three bytes |
| Ltc2668.DecodeFrame | library/LTC2668/ltc2668.c:7-9 | the device reads back a four-bit command and a four-bit address |
| Ltc2668.FrameRoundTrip | library/LTC2668/ltc2668.c:7-9 | the device reads back the command and address cut to their low nibble and the 16-bit data word whole, high byte first |
| Ltc2668.FrameOfDecoded | library/LTC2668/ltc2668.c:7-9 | every three-byte word is the frame of the command it decodes to, so the encoding loses nothing else |
| Ltc2668.PowerUpFrames | library/LTC2668/ltc2668.c:62-68 | one "power up channel n" frame per selected channel, in order, with data 0 |
| Ltc2668.PowerUpStep | library/LTC2668/ltc2668.c:62-68 | one more loop step adds the power-up frame of bit idx, at the end, exactly when that bit is set |
| Ltc2668.PowerUpDecodes | library/LTC2668/ltc2668.c:62-68 | the i-th power-up frame of a partial mask addresses the i-th set bit of the mask |
| Ltc2668.PowerUpChannels | library/LTC2668/ltc2668.c:62-68 | a channel is powered up exactly when its bit is set in `pwr_up_chnnl` |
| Ltc2668.PowerUpAscending | library/LTC2668/ltc2668.c:62-68 | the channels are powered up in increasing order |
| Ltc2668.ClrPulses | library/LTC2668/ltc2668.c:85-90 | n pulses on the CLR pin are 2n pin writes |
| Ltc2668.ClrPulsesAlternate | library/LTC2668/ltc2668.c:85-90 | each pulse drives the pin low and then releases it high |
| Ltc2668.ClearDataEnds | library/LTC2668/ltc2668.c:82-95 | with the CLR pin, four pulses ending with the pin high; without it, one broadcast write-and-update of the mid-scale code 0x8000 |
| Ltc2668.MuxData | library/LTC2668/ltc2668.c:99 | enabling the multiplexer sends 0x10 with the channel's low nibble; disabling sends 0 |
| Ltc2668.UpdateValue | library/LTC2668/ltc2668.c:114 | a 16-bit device gets the code unchanged; a 12-bit device gets the low twelve bits shifted left by four |
| Ltc2668.WriteEffect | library/LTC2668/ltc2668.c:103-110 | a write command leaves sixteen input registers |
| Ltc2668.WriteCommandsSwapped | library/LTC2668/ltc2668.c:103-110 | as written, the all-channel write sets channel 0 only and the single-channel write overwrites all sixteen registers |
| Ltc2668.WriteCommandsCorrected | library/LTC2668/ltc2668.c:103-110 | with the two commands exchanged, the all-channel write sets every register and the single-channel write sets the addressed one and no other |
| Ltc2668.Ltc2668Device.constructor | library/LTC2668/ltc2668.c:15 | a handler holds the settings it is given, not yet initialised, with no bus traffic |
| Ltc2668.Ltc2668Device.Transmission | library/LTC2668/ltc2668.c:5-12 | one SPI transfer of the three-byte frame |
| Ltc2668.Ltc2668Device.Init | library/LTC2668/ltc2668.c:15-79 | SPI set-up when not done, CLR pin low, reference selection, power-up by mask, clearing, span for all channels, in this order; the result and `init_done` are true exactly when the SPI mode is 0 |
| Ltc2668.Ltc2668Device.PowerUpEachChannel | library/LTC2668/ltc2668.c:62-68 | the loop sends the power-up frames of the set bits of the mask, in order |
| Ltc2668.Ltc2668Device.ClearDataMethod | library/LTC2668/ltc2668.c:82-95 | the traffic is that of the clear-data sequence |
| Ltc2668.Ltc2668Device.MuxControl | library/LTC2668/ltc2668.c:98-101 | one multiplexer-control frame carrying the multiplexer data |
| Ltc2668.Ltc2668Device.WriteOutputAllChannel | library/LTC2668/ltc2668.c:103-105 | one frame, the as-written all-channel write |
| Ltc2668.Ltc2668Device.WriteOutputSingleChannel | library/LTC2668/ltc2668.c:108-110 | one frame, the as-written single-channel write |
| Ltc2668.Ltc2668Device.UpdateOutputAllChannel | library/LTC2668/ltc2668.c:113-116 | one write-and-update-all frame carrying the code adapted to the resolution |
| Ltc2668.Ltc2668Device.UpdateOutputSingleChannel | library/LTC2668/ltc2668.c:119-122 | one write-and-update-n frame to the channel's low nibble, carrying the adapted code |
| Adgs1208.GpioBits | library/ADGS1208/adgs1208.c:85-88 | the four GPIO states fill the high nibble only |
| Adgs1208.MuxCodeAsWritten | library/ADGS1208/adgs1208.c:90-101 | the switch-code table, as written, stays in the low nibble |
| Adgs1208.OrIsSum | library/ADGS1208/adgs1208.c:102 | OR-ing a high nibble and a low nibble is their sum |
| Adgs1208.GetDataIsOr | library/ADGS1208/adgs1208.c:84-103 | the data byte is the bitwise OR of the GPIO bits and the switch code |
| Adgs1208.Decode | library/ADGS1208/adgs1208.c:84-103 | the device reads one of eight inputs from a data byte |
| Adgs1208.GpioSurvives | library/ADGS1208/adgs1208.c:84-103 | the GPIO states and the switch code come back unchanged from the data byte |
| Adgs1208.CodeDecodes | library/ADGS1208/adgs1208.c:90-102 | the enable bit is bit 0 of the switch code and the input address is the code's bits 1 to 3 |
| Adgs1208.SelectionSevenDisables | library/ADGS1208/adgs1208.c:90-101 | as written, selections 1 to 8 enable the multiplexer, except 7 (code 0x0C), which opens every switch |
| Adgs1208.MuxCode | library/ADGS1208/adgs1208.c:90-101 | the corrected code enables input `mux_sel - 1` for selections 1 to 8 and is 0 otherwise |
| Adgs1208.MuxCodeOnlySevenDiffers | library/ADGS1208/adgs1208.c:90-101 | the corrected table agrees with the written one at every selection except 7 |
| Adgs1208.SelectionDecodes | library/ADGS1208/adgs1208.c:84-103 | with the corrected code, selections 1 to 8 enable input `mux_sel - 1`, any other selection disables, and the GPIOs are as asked |
| Adgs1208.Repeat | library/ADGS1208/adgs1208.c:32-39 | n copies of a block are n times as long |
| Adgs1208.WritesAppend | library/ADGS1208/adgs1208.c:29-81 | the bytes written by two traffic runs in a row are those of the first followed by those of the second |
| Adgs1208.RepeatWrites | library/ADGS1208/adgs1208.c:32-39 | n framed two-byte commands write those two bytes n times |
| Adgs1208.SoftwareResetWrites | library/ADGS1208/adgs1208.c:57-79 | the software reset sends 0x0BA3 to every device of the chain, then 0x0B05 to every device |
| Adgs1208.ChainBytes | library/ADGS1208/adgs1208.c:121-124 | one write per device of the chain |
| Adgs1208.ChainWrites | library/ADGS1208/adgs1208.c:121-124 | device i of the chain receives the data byte of its own selection, in index order |
| Adgs1208.ChainWindow | library/ADGS1208/adgs1208.c:116-127 | a chain write opens chip select first and closes it last, with only data bytes between, one per device |
| Adgs1208.ChainBody | library/ADGS1208/adgs1208.c:121-124 | every step inside the chain window is a write |
| Adgs1208.Adgs1208Device.constructor | library/ADGS1208/adgs1208.c:5 | a handler holds the settings it is given, not yet initialised, with no bus traffic |
| Adgs1208.Adgs1208Device.Init | library/ADGS1208/adgs1208.c:5-26 | SPI set-up when needed, the reset pin driven low when used, the reset, then the daisy-chain command; the result is always true |
| Adgs1208.Adgs1208Device.EnableDaisyChainMethod | library/ADGS1208/adgs1208.c:29-40 | command 0x2500 once per device, each in its own chip-select window |
| Adgs1208.Adgs1208Device.Reset | library/ADGS1208/adgs1208.c:43-81 | two low-high pulses on the reset pin, or the two-step software reset across the chain, after SPI set-up when needed |
| Adgs1208.Adgs1208Device.DefineOutput | library/ADGS1208/adgs1208.c:106-128 | one addressed write to register 0x01 for a single device, otherwise one data byte per device inside one chip-select window |
| Ad5141Spi.ShutdownFrame | library/AD5141_SPI/ad5141_spi.c:33-43 | a shutdown command is two bytes with the command nibble 0xC |
| Ad5141Spi.DataBit | library/AD5141_SPI/ad5141_spi.c:36 | the data byte is 0 exactly when the channel is enabled, 1 otherwise |
| Ad5141Spi.LevelFrame | library/AD5141_SPI/ad5141_spi.c:66-68 | "write RDAC" (command nibble 1) to the low nibble of `rdac_sel`, with the wiper position as data |
| Ad5141Spi.ShutdownTable | library/AD5141_SPI/ad5141_spi.c:26-47 | both enabled turns both channels on, both disabled shuts both down, and enabling one channel turns that one on and leaves the other as it was |
| Ad5141Spi.LevelMovesWiper | library/AD5141_SPI/ad5141_spi.c:64-75 | the level command moves the selected wiper and changes nothing else |
| Ad5141Spi.InitLeavesChannelsOn | library/AD5141_SPI/ad5141_spi.c:50-61 | after initialisation both channels run, whatever their shutdown state before |
| Ad5141Spi.Ad5141SpiDevice.constructor | library/AD5141_SPI/ad5141_spi.c:4-7 | a handler starts uninitialised with no bus traffic |
| Ad5141Spi.Ad5141SpiDevice.ResetHandlerParams | library/AD5141_SPI/ad5141_spi.c:4-7 | clears `init_done` |
| Ad5141Spi.Ad5141SpiDevice.EnsureSpi | library/AD5141_SPI/ad5141_spi.c:12-14 | the SPI module is configured exactly when it was not yet |
| Ad5141Spi.Ad5141SpiDevice.ResetSoftware | library/AD5141_SPI/ad5141_spi.c:10-23 | SPI set-up when needed, then the reset command 0xB000; `init_done` is cleared and the result is true |
| Ad5141Spi.Ad5141SpiDevice.ControlShutdown | library/AD5141_SPI/ad5141_spi.c:26-47 | SPI set-up when needed, then the one shutdown frame for the two flags; true |
| Ad5141Spi.Ad5141SpiDevice.Init | library/AD5141_SPI/ad5141_spi.c:50-61 | the reset frame, then "both channels on"; `init_done` set and the result true |
| Ad5141Spi.Ad5141SpiDevice.DefineLevel | library/AD5141_SPI/ad5141_spi.c:64-75 | when initialised, one level frame and true; otherwise nothing sent and false |
| Ad526x.WriteFrame | library/AD526x/ad526x.c:4-18 | an AD5262 frame is the channel byte (1 exactly for channel 1) then the data; an AD5260 frame is the data byte alone |
| Ad526x.Ad5262RoundTrip | library/AD526x/ad526x.c:9-14 | the AD5262 reads back the channel and the data it was sent |
| Ad526x.SoftReset | library/AD526x/ad526x.c:33-41 | n rounds of the soft reset are 2n transfers |
| Ad526x.SoftResetZeroes | library/AD526x/ad526x.c:33-41 | every soft-reset transfer writes 0, alternating channel 0 and channel 1 |
| Ad526x.ShutdownCarriesNoCommand | library/AD526x/ad526x.c:44-47 | the shutdown setting reaches an AD5260 not at all and an AD5262 only as the channel of a write of 0 |
| Ad526x.Ad526xDevice.constructor | library/AD526x/ad526x.c:22 | a handler holds the settings it is given, with no bus traffic |
| Ad526x.Ad526xDevice.WriteData | library/AD526x/ad526x.c:16-18 | one transfer of the frame for the device type |
| Ad526x.Ad526xDevice.SoftResetMethod | library/AD526x/ad526x.c:33-41 | the loop sends the four rounds of the soft reset; true |
| Ad526x.Ad526xDevice.DefineShutdown | library/AD526x/ad526x.c:44-47 | one transfer of the shutdown frame |
| Ad526x.Ad526xDevice.DefineOutput | library/AD526x/ad526x.c:50-52 | one transfer of the frame for the channel and position |
| Ad526x.Ad526xDevice.Init | library/AD526x/ad526x.c:22-30 | SPI set-up when needed, the soft reset, then the shutdown frame; true |
| Sht21.UserRegisterFields | firmware/sens/SHT21.c:27-60 | the register written back has the heater bit set exactly when the heater is enabled, the OTP bit exactly when OTP reload is disabled, bits 0 and 7 equal to the resolution code (12/14 bit for an unknown code), and bits 3 to 6 as read from the sensor |
| Sht21.RawData | firmware/sens/SHT21.c:88 | the raw value is the big-endian word of the first two bytes rounded down to a multiple of 4 |
| Sht21.RawDataIsMask | firmware/sens/SHT21.c:88 | this is the first byte with the second masked by 0xFC, as `& 0xFFFC` does |
| Sht21.HumidityTruncated | firmware/sens/SHT21.c:92-97 | the humidity as computed is the data sheet's -6 + 125 * S / 2^16 rounded down to a whole percent |
| Sht21.HalfScaleLosesFraction | firmware/sens/SHT21.c:95 | at raw value 0x8000 the computed humidity is 56 where the conversion gives 56.5 |
| Sht21.HumidityAsWrittenRange | firmware/sens/SHT21.c:95 | the computed humidity lies between -6 and 118 |
| Sht21.HumidityRange | firmware/sens/SHT21.c:95 | the exact conversion lies between -6 % and 119 % and grows with the raw value |
| Sht21.Sht21Sensor.constructor | firmware/sens/SHT21.c:10-11 | no bus traffic yet |
| Sht21.Sht21Sensor.Init | firmware/sens/SHT21.c:14-68 | reads the user register, writes back the changed register; false exactly when that write returns `PICO_ERROR_GENERIC` |
| Sht21.Sht21Sensor.StartMeasurementNoHold | firmware/sens/SHT21.c:70-80 | one write of the command byte; false exactly when the write returns a negative code |
| Sht21.Sht21Sensor.ReadDataNoHold | firmware/sens/SHT21.c:82-90 | three-byte reads are repeated up to and including the first that does not return `PICO_ERROR_GENERIC`, and the raw value comes from that read |
| Sht21.Sht21Sensor.GetHumidityNoHold | firmware/sens/SHT21.c:92-97 | the humidity computed from the raw value of the read |
| Sht21.Reads | firmware/sens/SHT21.c:86-87 | n repeated three-byte reads from address 0x40 |
| Veml7700.ConfigFrame | firmware/sens/VEML7700.c:25-27 | the configuration write is three bytes and starts with command 0 |
| Veml7700.ConfigLowByte | firmware/sens/VEML7700.c:26-40 | the bit-wise low byte has the integration time's two low bits in bits 7..6, the interrupt flag in bit 1, and bit 0 set unless power saving is enabled |
| Veml7700.ConfigHighByte | firmware/sens/VEML7700.c:27 | the bit-wise high byte has the three-bit gain in bits 5..3 and the integration time's two high bits in bits 1..0 |
| Veml7700.ConfigDecodes | firmware/sens/VEML7700.c:25-43 | the register word the sensor assembles carries the integration time, the gain code, no persistence, the interrupt flag as asked, and shutdown exactly when power saving is off |
| Veml7700.ConfigWord | firmware/sens/VEML7700.c:26-27 | the word is gain from bit 11, integration time from bit 6 and the two flags |
| Veml7700.WordFields | firmware/sens/VEML7700.c:26-27 | every field comes back out of a word built from the fields |
| Veml7700.WordOrders | firmware/sens/VEML7700.c:11 | the driver assembles a reading big-endian where the sensor's word is little-endian |
| Veml7700.WordRoundTrip | firmware/sens/VEML7700.c:25-27 | read low byte first, like the configuration write, a word comes back unchanged |
| Veml7700.WordAsWrittenSwaps | firmware/sens/VEML7700.c:11 | as written, a word comes back byte-swapped, unchanged exactly when its two bytes are equal |
| Veml7700.IdRejectedAsWritten | firmware/sens/VEML7700.c:11-14 | the identity 0xC481, sent as 0x81 then 0xC4, is assembled to 0x81C4 and rejected |
| Veml7700.IdAccepted | firmware/sens/VEML7700.c:14 | assembled low byte first, an identity is accepted exactly when it is 0xC481 or 0xD481 |
| Veml7700.PowerSavingModeIsBits | firmware/sens/VEML7700.c:56 | `(mode & 0x03) << 1` is the mode's two low bits times two |
| Veml7700.PowerSavingIgnoredAsWritten | firmware/sens/VEML7700.c:52-64 | as written, the power-saving write goes to the read-only ALS output (command 0x04) and changes no register |
| Veml7700.PowerSavingApplied | firmware/sens/VEML7700.c:52-64 | written to command 0x03, the mode and enable flag land in the power-saving register and no other register changes |
| Veml7700.Reads | firmware/sens/VEML7700.c:10 | n repeated two-byte reads from address 0x10 |
| Veml7700.Veml7700Sensor.constructor | firmware/sens/VEML7700.c:18 | a handler holds the settings it is given, not yet initialised, with no bus traffic |
| Veml7700.Veml7700Sensor.Query | firmware/sens/VEML7700.c:67-74 | one command write, then reads up to and including the first that does not return `PICO_ERROR_GENERIC`; the word is assembled from that read |
| Veml7700.Veml7700Sensor.ReadId | firmware/sens/VEML7700.c:4-15 | true exactly when the assembled identity is 0xC481 or 0xD481 |
| Veml7700.Veml7700Sensor.Init | firmware/sens/VEML7700.c:18-49 | I2C set-up when needed, then the configuration write; `init_done` is false exactly when that write returns `PICO_ERROR_GENERIC`, and is returned |
| Veml7700.Veml7700Sensor.SetPowerSavingMode | firmware/sens/VEML7700.c:52-64 | one write of the as-written power-saving frame |
| Veml7700.Veml7700Sensor.GetAlsValue | firmware/sens/VEML7700.c:67-74 | the ALS reading from command 0x04, with the retried reads |
| Veml7700.Veml7700Sensor.GetWhite | firmware/sens/VEML7700.c:77-84 | the white reading from command 0x05, with the retried reads |

## Left out

- Serial I/O and threads: `InterfaceSerial.open`/`close`/`read`/`write`/`write_wfb*`, and the serial calls, `is_daq_running`, `wait_daq` and `get_state` of `DeviceAPI`. These are I/O and concurrency. The replies are inputs, and the threaded DAQ loop is modelled by its frame decoder only. Of the threads, only whether they run is modelled (`McuApi.DeviceApi.threadsAlive`). `start_daq` sets it and `stop_daq` clears it, taking `ThreadLSL.start`/`stop` to start and end them.
- `ThreadLSL`, `RingBuffer` and the heartbeat/watchdog: their code is not part of this model.
- `get_path_to_project` (python_api/api/mcu_api.py:16-36): filesystem probing.
- `DataAPI._read_file` and the HDF5 reading: h5py I/O. The directory listing is a parameter of `DataApi.NewDataApi`.
- `_get_runtime_sec`: only the header check and the little-endian integer are modelled. The 1e-6 float scaling is left out.
- `generate_waveform_lut_c`: the file writing and the date are left out, and so is the float `f_sys / f_rpt`. The time stamp and the counter size are inputs.
- WaveformLutGenerator.IdHandling: the id is taken to be ASCII. Python's `str.upper()` and `str.lower()` apply full Unicode case mapping, which can change the length ('ß' upper-cases to "SS"). `UpperAscii` and `LowerAscii` map the ASCII letters only.
- WaveformLutGenerator.GenerateWaveformLutC: the `device_id` value and the file names use the same ASCII case mapping, so they match the source for ASCII ids only.
- The firmware timer driver (`timer_daq.c`, `init_daq_sampling`, the bodies of `start_daq_sampling`/`stop_daq_sampling`): hardware. Its calls are recorded in a log, and the enable state is assumed to be restored after an update.
- `update_daq` in firmware/callbacks/rpc_callbacks.c:125-129 divides in `float`. The model uses the exact integer `-(1000000 / hz)`. This is the truncated float result for every rate from 1 to 65535 Hz, because the float spacing there is below `1/hz`. A rate of 0 is modelled as undefined (`None`).
- `STATE_DAQ` is not defined in the firmware's state enum. The codes used (IDLE = 3, DAQ = 5) are those of the host's name table.
- The firmware's main loop, which joins the FIFO and the dispatcher, is not part of this model. `Protocol` assumes the dispatcher runs after every received byte.
- The firmware writes a 14-byte DAQ frame and the host reads a 15-byte one. `Protocol.DaqLayoutsDisagree` states the difference. Which side is intended is not known, so it is not listed as a finding.
- The SPI and I2C send routines (`send_data_spi_module`, `configure_spi_module`, `configure_i2c_module`) are recorded as calls. Their results are inputs or not modelled. GPIO set-up, sleeps and `printf` are left out.
- The command codes of the LTC2668, ADGS1208 and AD5141 come from their data sheets, because the drivers' header files are not part of this model.
- Adgs1208.Adgs1208Device.DefineOutput: `adgs1208_define_output` falls off the end of a `bool` function, so no result is modelled.
- Sht21: the temperature conversion (`SHT21_get_temperature_no_hold`, float) is left out.
- WaveformLutTemplate.WaveformSettings.ReadFull: the output is `offset + lut[position]` as an unbounded integer. Truncation to the instance's `input_type` is not modelled.
- WaveformLutTemplate.WaveformSettings.ReadOpt: likewise, the output is not truncated to `input_type`.
- The `uint16_t` field `lut_offset` keeps the generator's offset modulo 2^16, so an unsigned 32- or 64-bit table gets offset 0 instead of 2^31 or 2^63 (`WaveformLutTemplate.WaveformSettings.constructor` states the reduction). Whether a wider field was intended is not known, so it is not listed as a finding.
- The five copies of `handling_usb_fifo_buffer` (firmware/hal/usb.c, template/hal/usb.c, firmware/lib/usb_handler.c, template/wrapper/usb_handler.c, firmware/src/communication_usb.c) are textually the same and are modelled once in `UsbFifo`. The same holds for the hex senders, which are modelled once in `HexSend`.
- `send_bytes` of firmware/hal/usb.c:22-26 writes through `fwrite`. The output is recorded as a byte sequence.
- The return values of the hex senders are undefined in the source and are not modelled.
- `LSL_FRAME_START` and `PROGRAM_VERSION` are not defined in the source files modelled here. They are parameters.
- `lsl_init` and `lsl_do_transmission`: output only.
- Translater.SubstTemplateIdempotent: proved for well-formed lines whose parameter values hold no `{`. The plain "no value holds `{$`" condition is not enough, as `Translater.SubstNotIdempotent` shows.
- Interface.DecodeEncode: UTF-8 decoding follows the strict decoder. Overlong forms and surrogates are rejected.
- HexSend.Uint16ToHexString: its contract states only the length and the separator. The digits are stated by `HexSend.HexString4Value`.
- HexSend.Int16ToHexString: likewise, the digits are stated by `HexSend.HexString4Value` on the 16-bit pattern.
- The ADS8881, timers, power sequencing, IIR filters and the thin I2C sensor wrappers (VL6180, M24M01E, BME680) are not part of this model. They are hardware timing, floating point, or wrappers whose only logic is covered by `I2cHandler`.

## Findings

| source | as written | input that shows it | evidently intended | confidence | as-written member | corrected member |
|---|---|---|---|---|---|---|
| generator/template_c/waveform_lut_template.h:120-122 | the OPT length with skipping is `4 * lut_lgth - 2` | any L ≥ 2 with `skip_last_point`: the reader repeats after 4L-4 calls | the period, 4L-4 | high, not executed | WaveformLutTemplate.OptLengthSkipDisagrees | WaveformLutTemplate.GetWaveformLgthOptCorrected |
| firmware/src/waveform_lut1.c:7 | the table is declared with 7 entries but only 6 values follow the offset | the seventh call from reset (state 0, position 6) | seven table values | high, not executed | WaveformLut1.Lut1ReadsPastTable | WaveformLut1.Lut1CorrectedInBounds |
| template/src/usb_callbacks.c:24-32 | `send_bytes(buffer, sizeof(buffer))` on a `char *` sends 4 bytes of a 3-byte FIFO | any echo or state request | the FIFO length, 3 | high, not executed | UsbCallbacks.EchoAsWrittenOverruns | UsbCallbacks.EchoCorrectedInOrder |
| python_api/api/mcu_api.py:189-205 | the host's command numbers from 7 on are one below the firmware's | `enable_led` sends 7, which the firmware reads as TEMP_MCU | the firmware's codes (firmware/callbacks/rpc_callbacks.c:7-22) | high, not executed | Protocol.HostEnableLedQueriesTemperature | Protocol.HostCodeMatchesFirmware |
| python_api/api/mcu_api.py:261-268 | rates in [0, 1) pass the range check | rate 0.5 is sent as `int(0.5)` = 0, and the firmware divides by it | reject rates below 1 | high, not executed | Protocol.HostRateBelowOneUndefined | Protocol.RateReachesTimer |
| library/LTC2668/ltc2668.c:103-110 | the all-channel write sends "write code to n" and the single-channel write sends "write code to all" | `ltc2668_write_output_all_channel(d)` changes channel 0 only | the two commands exchanged | high, not executed | Ltc2668.WriteCommandsSwapped | Ltc2668.WriteCommandsCorrected |
| library/ADGS1208/adgs1208.c:91-101 | selection 7 gives switch code 0x0C, which has the enable bit clear | `mux_sel` = 7 opens every switch | 0x0D, input 7 enabled | high, not executed | Adgs1208.SelectionSevenDisables | Adgs1208.SelectionDecodes |
| firmware/sens/SHT21.c:95 | `(125 * raw_data) / RES_CALC_FACTOR` is an integer division | raw value 0x8000 gives 56 instead of 56.5 | the data sheet's conversion without truncation | high, not executed | Sht21.HalfScaleLosesFraction | Sht21.HumidityRange |
| firmware/sens/VEML7700.c:11 | a reading is assembled with the first byte as the high byte, while the configuration is written low byte first | the identity 0xC481, sent as 0x81 then 0xC4, is read as 0x81C4 and rejected | low byte first | medium, not executed | Veml7700.IdRejectedAsWritten | Veml7700.IdAccepted |
| firmware/sens/VEML7700.c:52-64 | the power-saving setting is written to command 0x04, the read-only ALS output | any call of `VEML7700_set_power_saving_mode` changes no register | command 0x03, the power-saving register; and the enable flag in bit 0 of the first (low) data byte, next to the mode, instead of bit 0 of the second (high) byte | medium, not executed | Veml7700.PowerSavingIgnoredAsWritten | Veml7700.PowerSavingApplied |
