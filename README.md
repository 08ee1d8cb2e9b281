# ESP32 CSI Web Collecting Tool — a Dafny model of the firmware's core

The firmware turns an ESP32 into a collector of Wi-Fi channel state
information (CSI). A user provisions the device through a web page served
from its own access point. The page's request is decoded into a CSI
configuration record, stored, and handed to the Wi-Fi task. That task
reconfigures the radio as a *receiver* (an access point whose CSI callback
filters and forwards samples) or a *sender* (a station that sends one UDP
datagram per timer tick). On the receiver, the informer renders each
forwarded sample as an ASCII line or a packed binary record. It writes the
record to the console, the SD card, the serial port, or the card and the
port together.

The model has five modules, one per source file plus the shared types:

- `CsiTypes` (`csi_types.dfy`): the configuration record
  `user_csi_configuration_t`, the sample `wifi_csi_info_t`, the mode
  constants, and the C integer widths as subset types.
- `CsiApp` (`csi_app.dfy`), from `csi_app.c`. The receive callback's
  filter and low-rate deduplication are the pure function `Receive`, with
  `Run` over a stream of samples. A greedy reference definition `Greedy`
  specifies which samples are forwarded. The `csi_task` message loop is
  `HandleCsiMessage`, and the socket retry loop is the method
  `RetrySocket`. The class `CsiApplication` holds the file's statics, and
  its methods are tied to those functions.
- `Informer` (`informer.dfy`), from `informer.c`.
  - The ASCII line and the binary record are pure functions.
  - The methods that build them step by step, one `if` block of the source
    per step, are proved equal to those functions.
  - The binary record has a decoder, and the round trip is proved.
  - The sink dispatch of `send_information`, the start-up flags of
    `start_informer_app` and the task's message switch are functions on an
    `InformerState` whose sinks are byte sequences. The class `InformerApp`
    holds the statics.
- `ConfigDecoder` (`config_decoder.dfy`), from `http_server.c`.
  - `set_default_csi_configuration` is `DEFAULT_CONFIG`.
  - `csi_configuration_json_uri_handler` is `Decode`, a function from the
    request's header map to a record or failure.
  - An imperative version of the handler follows the source's early-return
    chain: `CsiConfigurationHandler`, `BuildConfig`, and `ParseMac` for the
    `strtok` loop.
  - `atoi`/`strtol` are modelled as newlib implements them: leading white
    space, a sign, an optional `0x` in base 16, and saturation to 32 bits.
  - `PageHeaders` builds the headers a page sends for a record. The lemma
    `PageRoundTrip` proves that decoding them gives the record back.
- `WifiApp` (`wifi_app.dfy`), from `wifi_app.c`.
  - The boot decision, the message switch of `wifi_task` and the event
    rules of `wifi_event_handler` are pure functions on a `WifiTask`.
  - Radio, storage and CSI-task calls are recorded in an action trace. The
    flash slot holding the configuration is `stored`.
  - The class `WifiApplication` holds the statics.

Three details of the code that the model follows:

- The MAC in the ASCII line is `MACSTR`: lower-case two-digit groups joined
  by `:`.
- The ASCII timestamp is the unsigned 32-bit field printed with `%d`, so it
  is its bits read as a signed 32-bit int.
- The socket retry loop stops at any nonzero `create_socket` result, an
  error result `-1` included.

## Model

All source paths are under `ESP32_CSI_Web_Collecting_Tool/main/tasks/`.

| member | source | states |
|---|---|---|
| `CsiApp.TruncDiv` | ESP32_CSI_Web_Collecting_Tool/main/tasks/csi_app.c:57 | The quotient is C's truncating division: for a positive divisor, q·b ≤ a < q·b + b; for a negative one, the mirror bounds. |
| `CsiApp.WrapSub` | ESP32_CSI_Web_Collecting_Tool/main/tasks/csi_app.c:78-79 | `uint32` subtraction: the plain difference when the timestamp has not wrapped, the difference plus 2^32 when it has. |
| `CsiApp.Receive` | ESP32_CSI_Web_Collecting_Tool/main/tasks/csi_app.c:56-97 | A missing sample, a missing buffer or a foreign MAC is dropped with the dedup state untouched. Only the sample itself is ever forwarded. At ≥ 30 Hz every matching sample is forwarded and the state is not touched. Below 30 Hz the first sample is forwarded and becomes the reference. A later sample is forwarded and becomes the reference iff the timestamp gate passes; otherwise the state is kept. |
| `CsiApp.HighFrequencyForwardsAllMatching` | ESP32_CSI_Web_Collecting_Tool/main/tasks/csi_app.c:89-96 | At ≥ 30 Hz a stream's output is exactly its MAC-matching samples, in order, and the dedup state is unchanged. |
| `CsiApp.LowFrequencyIsGreedy` | ESP32_CSI_Web_Collecting_Tool/main/tasks/csi_app.c:67-88 | Below 30 Hz the callback's output on a stream equals the greedy timestamp-gated selection over the stream's matching samples. |
| `CsiApp.GreedyKeepsFirst` | ESP32_CSI_Web_Collecting_Tool/main/tasks/csi_app.c:68-76 | From power-on, the first matching sample is always forwarded. |
| `CsiApp.GreedyGapsPassGate` | ESP32_CSI_Web_Collecting_Tool/main/tasks/csi_app.c:78-87 | Every pair of consecutive forwarded samples, and the first one against a prior reference, is at least 0.9 sampling periods apart (wrapping arithmetic). |
| `CsiApp.GreedyIsSubsequence` | ESP32_CSI_Web_Collecting_Tool/main/tasks/csi_app.c:67-88 | The forwarded samples are a subsequence of the matching ones: nothing is reordered, duplicated or invented. |
| `CsiApp.FirstFlagNeverReset` | ESP32_CSI_Web_Collecting_Tool/main/tasks/csi_app.c:68-70 | Once `first_csi_callback` is false, no stream of samples makes it true again. |
| `CsiApp.TwentyHertzExample` | ESP32_CSI_Web_Collecting_Tool/main/tasks/csi_app.c:57-88 | At 20 Hz, samples stamped 0, 40000 and 60000 µs forward the first and the third. |
| `CsiApp.SocketAttempts` | ESP32_CSI_Web_Collecting_Tool/main/tasks/csi_app.c:144-147 | The attempt count is the position of the first nonzero `create_socket` result: every earlier result was 0. |
| `CsiApp.RetrySocket` | ESP32_CSI_Web_Collecting_Tool/main/tasks/csi_app.c:142-147 | The retry loop makes exactly as many calls as it takes to reach the first nonzero result. |
| `CsiApp.SocketAttemptsUnique` | ESP32_CSI_Web_Collecting_Tool/main/tasks/csi_app.c:144 | Any count whose last result is nonzero and whose earlier results are all 0 is the attempt count. |
| `CsiApp.StopIsIdempotent` | ESP32_CSI_Web_Collecting_Tool/main/tasks/csi_app.c:182-190 | A second STOP changes nothing. |
| `CsiApp.StopTearsDownOnce` | ESP32_CSI_Web_Collecting_Tool/main/tasks/csi_app.c:182-188 | A STOP while running sets `has_stopped`, then issues, in the order written, the timer stop and delete and the role's release: a created socket destroyed (sender), CSI disabled (receiver). Only a sender ever creates the timer; see `CsiApp.HandleCsiMessage` under Left out for what a receiver's STOP does. |
| `CsiApp.StartClearsStopped` | ESP32_CSI_Web_Collecting_Tool/main/tasks/csi_app.c:174-180 | START leaves `has_stopped` false whatever it was. |
| `CsiApp.SendTickSendsOnce` | ESP32_CSI_Web_Collecting_Tool/main/tasks/csi_app.c:192-200 | A send tick sends exactly one datagram `"1"` while running, and nothing once stopped. |
| `CsiApp.SenderTimerPeriod` | ESP32_CSI_Web_Collecting_Tool/main/tasks/csi_app.c:131-159 | A sender's START arms a periodic timer with period ⌊1000000 / f⌋ µs, after the socket loop and the timer creation. |
| `CsiApp.StoppedIsQuiescent` | ESP32_CSI_Web_Collecting_Tool/main/tasks/csi_app.c:170-207 | Once stopped, any series of STOPs and send ticks leaves the task unchanged: no datagram leaves until the next START. |
| `CsiApp.CsiApplication.constructor` | ESP32_CSI_Web_Collecting_Tool/main/tasks/csi_app.c:28-40 | The statics' power-on values: not stopped, first callback pending, last timestamp 0, empty queues. |
| `CsiApp.CsiApplication.ReceivedCallback` | ESP32_CSI_Web_Collecting_Tool/main/tasks/csi_app.c:56-97 | The callback updates the dedup statics as `Receive` says. It appends the forwarded sample, if any, to the informer's queue and changes nothing else. |
| `CsiApp.CsiApplication.Start` | ESP32_CSI_Web_Collecting_Tool/main/tasks/csi_app.c:217-227 | `start_csi_app` installs the configuration, starts the informer only for a receiver, and queues one START. The dedup statics survive a restart. |
| `CsiApp.CsiApplication.Stop` | ESP32_CSI_Web_Collecting_Tool/main/tasks/csi_app.c:210-215 | `stop_csi_app` queues one STOP and changes nothing else. |
| `CsiApp.CsiApplication.TimerTick` | ESP32_CSI_Web_Collecting_Tool/main/tasks/csi_app.c:43-49 | The timer callback queues one send tick and changes nothing else. |
| `CsiApp.CsiApplication.HandleMessage` | ESP32_CSI_Web_Collecting_Tool/main/tasks/csi_app.c:172-205 | One message of the switch changes the task's statics and trace as `HandleCsiMessage` says, whatever the send result. |
| `CsiApp.CsiApplication.ProcessNext` | ESP32_CSI_Web_Collecting_Tool/main/tasks/csi_app.c:170-206 | The loop takes the queue's head and handles it. |
| `Informer.AsSigned32` | ESP32_CSI_Web_Collecting_Tool/main/tasks/informer.c:60-63 | The printed timestamp is congruent to the unsigned field modulo 2^32. |
| `Informer.AsciiRecordIsOneLine` | ESP32_CSI_Web_Collecting_Tool/main/tasks/informer.c:41-81 | The ASCII record starts with `CSI_DATA,`. It holds a newline iff the buffer flag is set, and then only as its last character. It never holds `%`. |
| `Informer.AsciiRecordAllOff` | ESP32_CSI_Web_Collecting_Tool/main/tasks/informer.c:43-80 | With every flag off the record is exactly `CSI_DATA,`. |
| `Informer.AppendMac` | ESP32_CSI_Web_Collecting_Tool/main/tasks/informer.c:44-47 | Appends `MACSTR` and `,` when the MAC flag is set, nothing otherwise. |
| `Informer.AppendRssi` | ESP32_CSI_Web_Collecting_Tool/main/tasks/informer.c:48-51 | Appends the RSSI in decimal and `,` when its flag is set. |
| `Informer.AppendBandwidth` | ESP32_CSI_Web_Collecting_Tool/main/tasks/informer.c:52-55 | Appends `cwb` and `,` when its flag is set. |
| `Informer.AppendNoiseFloor` | ESP32_CSI_Web_Collecting_Tool/main/tasks/informer.c:56-59 | Appends the noise floor and `,` when its flag is set. |
| `Informer.AppendTimestamp` | ESP32_CSI_Web_Collecting_Tool/main/tasks/informer.c:60-63 | Appends the timestamp, read as a signed int, and `,` when its flag is set. |
| `Informer.AppendAntenna` | ESP32_CSI_Web_Collecting_Tool/main/tasks/informer.c:64-67 | Appends the antenna index and `,` when its flag is set. |
| `Informer.AppendLength` | ESP32_CSI_Web_Collecting_Tool/main/tasks/informer.c:68-71 | Appends the CSI length and `,` when its flag is set. |
| `Informer.AppendTail` | ESP32_CSI_Web_Collecting_Tool/main/tasks/informer.c:75-78 | The loop appends `,b[i]` for every 1 ≤ i < len, in order. |
| `Informer.AppendBuffer` | ESP32_CSI_Web_Collecting_Tool/main/tasks/informer.c:72-80 | When the buffer flag is set, appends `[b0`, the loop's part and `]\n`. |
| `Informer.InformerApp.GetCsiStringMessage` | ESP32_CSI_Web_Collecting_Tool/main/tasks/informer.c:41-81 | Appends the whole ASCII record to the string it is given, which may already hold text. |
| `Informer.LittleEndianRoundTrip` | ESP32_CSI_Web_Collecting_Tool/main/tasks/informer.c:122-135 | The little-endian bytes of a value that fits its width read back as that value. |
| `Informer.WriteMac` | ESP32_CSI_Web_Collecting_Tool/main/tasks/informer.c:103-106 | Writes the six MAC bytes when the flag is set. |
| `Informer.WriteRssi` | ESP32_CSI_Web_Collecting_Tool/main/tasks/informer.c:107-111 | Writes the RSSI's one two's-complement byte when the flag is set. |
| `Informer.WriteBandwidth` | ESP32_CSI_Web_Collecting_Tool/main/tasks/informer.c:112-116 | Writes `cwb` as one byte when the flag is set. |
| `Informer.WriteNoiseFloor` | ESP32_CSI_Web_Collecting_Tool/main/tasks/informer.c:117-121 | Writes the noise floor's one two's-complement byte when the flag is set. |
| `Informer.WriteTimestamp` | ESP32_CSI_Web_Collecting_Tool/main/tasks/informer.c:122-126 | Writes the timestamp's four little-endian bytes when the flag is set. |
| `Informer.WriteAntenna` | ESP32_CSI_Web_Collecting_Tool/main/tasks/informer.c:127-131 | Writes the antenna index as one byte when the flag is set. |
| `Informer.WriteLength` | ESP32_CSI_Web_Collecting_Tool/main/tasks/informer.c:132-135 | Writes the length's two little-endian bytes when the flag is set. |
| `Informer.WriteBuffer` | ESP32_CSI_Web_Collecting_Tool/main/tasks/informer.c:136-139 | Writes the first `len` buffer entries as bytes when the flag is set. |
| `Informer.InformerApp.BinaryWrites` | ESP32_CSI_Web_Collecting_Tool/main/tasks/informer.c:100-139 | The successive writes of the binary branch hand the sink exactly the binary record. The SD and serial branches (155-190, 202-234) write the same sequence. |
| `Informer.BinaryRecordLength` | ESP32_CSI_Web_Collecting_Tool/main/tasks/informer.c:100-139 | The binary record is 9 marker bytes plus 6, 1, 1, 1, 4, 1 and 2 bytes for the enabled fields, plus `len` bytes when the buffer is enabled. |
| `Informer.BinaryPrefixFields` | ESP32_CSI_Web_Collecting_Tool/main/tasks/informer.c:155-190 | The record is the marker followed by the encodings of the enabled fields, in the fixed order. |
| `Informer.BinaryRoundTrip` | ESP32_CSI_Web_Collecting_Tool/main/tasks/informer.c:202-234 | A reader that knows the configuration decodes every written field of a binary record exactly, although the record has no separators. |
| `Informer.LayoutIsEnabledKinds` | ESP32_CSI_Web_Collecting_Tool/main/tasks/informer.c:159-187 | A field is in the record iff its flag is set. |
| `Informer.InformerApp.Render` | ESP32_CSI_Web_Collecting_Tool/main/tasks/informer.c:96-140 | The record is ASCII when the data mode is ASCII and binary otherwise. |
| `Informer.StartInformer` | ESP32_CSI_Web_Collecting_Tool/main/tasks/informer.c:307-318 | Only mode 2 sets the SD flag (to the card's result) and, on success, the file name. Only mode 3 sets the UART flag. |
| `Informer.InformerApp.constructor` | ESP32_CSI_Web_Collecting_Tool/main/tasks/informer.c:32-35 | Power-on: SD flag failed, UART flag ok, no open file, empty sinks. |
| `Informer.InformerApp.Start` | ESP32_CSI_Web_Collecting_Tool/main/tasks/informer.c:299-321 | `start_informer_app` changes the statics as `StartInformer` says. |
| `Informer.Deliver` | ESP32_CSI_Web_Collecting_Tool/main/tasks/informer.c:88-264 | A mode never writes a sink it does not name. An uninitialised card is never opened. The statics are only read, and every sink only grows. |
| `Informer.SingleSinkModes` | ESP32_CSI_Web_Collecting_Tool/main/tasks/informer.c:93-237 | Modes 1 to 3 append one record to their one sink: ASCII iff the data mode is ASCII, binary otherwise. They write the SD file only on an initialised card whose file opens, and the port only when it is initialised. An unknown mode writes nothing. |
| `Informer.InformerApp.SendInformation` | ESP32_CSI_Web_Collecting_Tool/main/tasks/informer.c:88-262 | `send_information` changes the statics and sinks as `Deliver` says. |
| `Informer.InformerApp.SendToSdAndSerial` | ESP32_CSI_Web_Collecting_Tool/main/tasks/informer.c:239-256 | Case 4 of `send_information` changes the state as `ToSdAndSerial` says. |
| `Informer.CombinedModeWritesSdTwice` | ESP32_CSI_Web_Collecting_Tool/main/tasks/informer.c:240-250 | Mode 4 always renders ASCII. The bytes passed to `uart_write_bytes` are the line once; an SD write would get it twice, because the second call appends to the filled buffer. |
| `Informer.CombinedModeNeverWritesSd` | ESP32_CSI_Web_Collecting_Tool/main/tasks/informer.c:34-35 | Started from power-on in mode 4, the SD card is never initialised, so however many samples arrive the SD file stays empty and the console untouched. |
| `Informer.NoSdAfter` | ESP32_CSI_Web_Collecting_Tool/main/tasks/informer.c:246-255 | In mode 4 with an uninitialised card, a stream of samples leaves the SD file, the file flag, the console and the init flags as they were. |
| `Informer.FailedSdWritesNothing` | ESP32_CSI_Web_Collecting_Tool/main/tasks/informer.c:143-193 | In mode 2 a failed card initialisation means no sample changes anything. |
| `Informer.InformerApp.HandleMessage` | ESP32_CSI_Web_Collecting_Tool/main/tasks/informer.c:273-293 | One message of `informer_task`. A sample is delivered. STOP closes the file and unmounts the card only in modes 2 and 4 with `csi_fd` non-NULL, which means a file was opened at some point: the last one opened, already closed after its write. |
| `Informer.StopClosesWhenFileSeen` | ESP32_CSI_Web_Collecting_Tool/main/tasks/informer.c:285-292 | STOP appends the close and the unmount exactly when the mode is 2 or 4 and `csi_fd` was ever set by an open; nothing else in the informer's state changes. |
| `Informer.WrittenFileClosedByEveryStop` | ESP32_CSI_Web_Collecting_Tool/main/tasks/informer.c:145-151 | In mode 2, one written sample leaves `csi_fd` set although its file was closed after the write, so two STOPs close that file twice more and unmount the card twice. |
| `ConfigDecoder.Header` | ESP32_CSI_Web_Collecting_Tool/main/tasks/http_server.c:129-141 | A header counts iff it is present with a non-empty value, and then its value is the text sent. |
| `ConfigDecoder.Saturate` | ESP32_CSI_Web_Collecting_Tool/main/tasks/http_server.c:477 | `atoi`/`strtol` give the value when it fits a 32-bit long, and the nearest bound otherwise. |
| `ConfigDecoder.TokenLength` | ESP32_CSI_Web_Collecting_Tool/main/tasks/http_server.c:479 | A token runs up to, and not across, the next `:`. |
| `ConfigDecoder.Tokens` | ESP32_CSI_Web_Collecting_Tool/main/tasks/http_server.c:479-485 | The `strtok` tokens are non-empty and hold no `:`. |
| `ConfigDecoder.MacFrom` | ESP32_CSI_Web_Collecting_Tool/main/tasks/http_server.c:481-485 | Byte i is token i read as hex and cut to 8 bits. A byte with no token keeps the default. |
| `ConfigDecoder.Decode` | ESP32_CSI_Web_Collecting_Tool/main/tasks/http_server.c:115-530 | The handler yields a record iff every header the request's own op mode and informer mode call for is present. Otherwise it fails. |
| `ConfigDecoder.FetchBase` | ESP32_CSI_Web_Collecting_Tool/main/tasks/http_server.c:128-202 | The chain of checks for OpModes, MacAddress, Communication, Frequency and Bandwidth succeeds iff all five are present. |
| `ConfigDecoder.FetchReceiver` | ESP32_CSI_Web_Collecting_Tool/main/tasks/http_server.c:209-357 | The receiver's chain succeeds iff DataRepresentation, the eight `Is*` headers and InformerMode are all present. |
| `ConfigDecoder.FetchSd` | ESP32_CSI_Web_Collecting_Tool/main/tasks/http_server.c:362-419 | The SD chain succeeds iff MISO, MOSI, CLK and CS are present. |
| `ConfigDecoder.FetchSerial` | ESP32_CSI_Web_Collecting_Tool/main/tasks/http_server.c:424-468 | The serial chain succeeds iff Baudrate, TX and RX are present. |
| `ConfigDecoder.ParseMac` | ESP32_CSI_Web_Collecting_Tool/main/tasks/http_server.c:479-485 | The tokenising loop, bounded to six slots, gives the MAC `MacFrom` defines over the defaults. |
| `ConfigDecoder.BuildConfig` | ESP32_CSI_Web_Collecting_Tool/main/tasks/http_server.c:473-514 | The success path's assignments on top of the defaults give the record `Decode` returns. |
| `ConfigDecoder.CsiConfigurationHandler` | ESP32_CSI_Web_Collecting_Tool/main/tasks/http_server.c:115-528 | The early-return chain returns `Decode`'s verdict. On success it saves the one record, sends that record to the Wi-Fi task and stops the server, in that order; on failure it does nothing. |
| `ConfigDecoder.StrtolDigits` | ESP32_CSI_Web_Collecting_Tool/main/tasks/http_server.c:482 | A plain run of digits is read as its value (saturated). |
| `ConfigDecoder.StrtolNegative` | ESP32_CSI_Web_Collecting_Tool/main/tasks/http_server.c:486-488 | A `-` followed by digits is read as the negated value (saturated). |
| `ConfigDecoder.AtoiDecimal` | ESP32_CSI_Web_Collecting_Tool/main/tasks/http_server.c:486-488 | `atoi` of any 32-bit int written in decimal gives that int back. |
| `ConfigDecoder.HexByteHex2` | ESP32_CSI_Web_Collecting_Tool/main/tasks/http_server.c:482 | Reading a byte's two-digit hex text as hex gives the byte back. |
| `ConfigDecoder.TokensMacGroups` | ESP32_CSI_Web_Collecting_Tool/main/tasks/http_server.c:479-484 | The tokens of a `MACSTR` text are its six hex groups. |
| `ConfigDecoder.MacRoundTrip` | ESP32_CSI_Web_Collecting_Tool/main/tasks/http_server.c:479-485 | Parsing the `MACSTR` text of any MAC gives that MAC back, whatever the default. |
| `ConfigDecoder.AtoiOne` | ESP32_CSI_Web_Collecting_Tool/main/tasks/http_server.c:208 | The text `1` that selects the receiver headers reads as op mode 1. |
| `ConfigDecoder.ReceiverRecord` | ESP32_CSI_Web_Collecting_Tool/main/tasks/http_server.c:490 | A request whose op mode is exactly `1` decodes to a receiver record. |
| `ConfigDecoder.SenderKeepsDefaults` | ESP32_CSI_Web_Collecting_Tool/main/tasks/http_server.c:44-71 | A request whose op mode is not exactly `1` keeps every default except the five base fields. These include ASCII, all flags true, console mode, baud 921600 and pins 5/4 and 19/22/23/18. |
| `ConfigDecoder.PortsKeep` | ESP32_CSI_Web_Collecting_Tool/main/tasks/http_server.c:500-513 | The port step changes only the serial parameters and the SD pins. |
| `ConfigDecoder.FlagsFromText` | ESP32_CSI_Web_Collecting_Tool/main/tasks/http_server.c:492-499 | For a receiver each inclusion flag is true iff its header is exactly `true`. |
| `ConfigDecoder.ModeGatedSettings` | ESP32_CSI_Web_Collecting_Tool/main/tasks/http_server.c:502-513 | Serial parameters differ from the defaults only for a receiver with informer mode `3`/`4`. SD pins differ only for `2`/`4`. |
| `ConfigDecoder.BaseOf` | ESP32_CSI_Web_Collecting_Tool/main/tasks/http_server.c:476-488 | Headers carrying a record's base values decode to the defaults with those five fields. |
| `ConfigDecoder.ReceiverOf` | ESP32_CSI_Web_Collecting_Tool/main/tasks/http_server.c:491-500 | Headers carrying a record's receiver values set exactly its data mode, flags and informer mode. |
| `ConfigDecoder.SerialOf` | ESP32_CSI_Web_Collecting_Tool/main/tasks/http_server.c:503-505 | Headers carrying a record's serial values set exactly its serial parameters. |
| `ConfigDecoder.SdOf` | ESP32_CSI_Web_Collecting_Tool/main/tasks/http_server.c:509-512 | Headers carrying a record's SD pins set exactly those pins. |
| `ConfigDecoder.ReceiverBuild` | ESP32_CSI_Web_Collecting_Tool/main/tasks/http_server.c:490-514 | Headers carrying every value of a representable receiver record are complete, take the receiver branch and build that record. |
| `ConfigDecoder.SenderBuild` | ESP32_CSI_Web_Collecting_Tool/main/tasks/http_server.c:476-488 | Headers carrying a representable non-receiver record's values are complete, skip the receiver branch and build that record. |
| `ConfigDecoder.PageRoundTrip` | ESP32_CSI_Web_Collecting_Tool/main/tasks/http_server.c:473-522 | The headers a page sends for a representable record decode to exactly that record. |
| `ConfigDecoder.ReceiverBranchReadsUnfetched` | ESP32_CSI_Web_Collecting_Tool/main/tasks/http_server.c:490 | With op mode `01` the request succeeds without receiver headers, yet the success path as written takes the receiver branch. |
| `ConfigDecoder.MacSlotsAsWritten` | ESP32_CSI_Web_Collecting_Tool/main/tasks/http_server.c:480-484 | The loop as written writes slot i for token i, one slot per token, without bound. |
| `ConfigDecoder.MacLoopOverruns` | ESP32_CSI_Web_Collecting_Tool/main/tasks/http_server.c:481-483 | A MAC text with a seventh group makes the loop write slot 6 of the six-byte array. |
| `ConfigDecoder.ExtraTokensIgnored` | ESP32_CSI_Web_Collecting_Tool/main/tasks/http_server.c:485 | With the loop bounded to the array, tokens past the sixth do not change the MAC. |
| `WifiApp.SecondaryChannel` | ESP32_CSI_Web_Collecting_Tool/main/tasks/wifi_app.c:119-123 | The station's secondary channel is NONE iff the bandwidth is HT20, ABOVE otherwise. |
| `WifiApp.BootChoice` | ESP32_CSI_Web_Collecting_Tool/main/tasks/wifi_app.c:272-286 | The boot message is START_AP_MODE iff no configuration is stored. Otherwise it is CHANGE_TO_CSI_COLLECTION with the stored one, queued alone. |
| `WifiApp.StartApProvisions` | ESP32_CSI_Web_Collecting_Tool/main/tasks/wifi_app.c:293-303 | START_AP_MODE initialises the radio, configures the provisioning AP and starts the server. It sets the AP flag and mode 0, and touches nothing else. |
| `WifiApp.StartCsiSetsModeOne` | ESP32_CSI_Web_Collecting_Tool/main/tasks/wifi_app.c:305-321 | Either START_CSI_APP message starts the CSI app with the current configuration and sets mode 1. |
| `WifiApp.ChangeReconfigures` | ESP32_CSI_Web_Collecting_Tool/main/tasks/wifi_app.c:323-351 | CHANGE installs the configuration and clears the AP flag, deinitialising the radio iff the flag was set. A receiver queues exactly START_CSI_APP_AS_RECEIVER. A sender queues nothing and ends with the station set-up and a connect. |
| `WifiApp.AskStopStopsCsi` | ESP32_CSI_Web_Collecting_Tool/main/tasks/wifi_app.c:353-355 | ASK_CSI_TO_STOP posts one STOP to the CSI task and changes nothing else. |
| `WifiApp.ResetReprovisions` | ESP32_CSI_Web_Collecting_Tool/main/tasks/wifi_app.c:357-361 | RESET clears the stored configuration and restarts, so the next boot starts AP mode. |
| `WifiApp.OnlyStartApZeroesMode` | ESP32_CSI_Web_Collecting_Tool/main/tasks/wifi_app.c:302 | A message that takes the mode from nonzero to 0 is START_AP_MODE. |
| `WifiApp.EventRules` | ESP32_CSI_Web_Collecting_Tool/main/tasks/wifi_app.c:51-95 | STA_CONNECTED queues START_CSI_APP_AS_SENDER. STA_DISCONNECTED queues ASK_CSI_TO_STOP iff the mode is 1, and always reconnects. Every other event changes nothing. No event changes the statics. |
| `WifiApp.ModeStaysBinary` | ESP32_CSI_Web_Collecting_Tool/main/tasks/wifi_app.c:30 | The mode stays 0 or 1 under every message and event. |
| `WifiApp.ConfiguredRunsAll` | ESP32_CSI_Web_Collecting_Tool/main/tasks/wifi_app.c:305-321 | Once a record is installed, every series of messages can be handled; only START_CSI_APP needs one. |
| `WifiApp.ModeWithoutStartAp` | ESP32_CSI_Web_Collecting_Tool/main/tasks/wifi_app.c:289-368 | From any state, including a first boot with nothing stored, a series of messages without START_AP_MODE in which each START_CSI_APP finds a record installed ends in mode 1 if it starts the CSI app, and otherwise in the mode it began with. |
| `WifiApp.RunEndingInStartAp` | ESP32_CSI_Web_Collecting_Tool/main/tasks/wifi_app.c:293-303 | From any state, including a first boot, any series of messages in which each START_CSI_APP finds a record installed can be followed by START_AP_MODE, and then ends in mode 0 with the AP flag set. |
| `WifiApp.FirstBootProvisionsThenCollects` | ESP32_CSI_Web_Collecting_Tool/main/tasks/wifi_app.c:280-345 | A first boot with nothing stored queues START_AP_MODE. Provisioning, a receiver record's CHANGE and the START_CSI_APP_AS_RECEIVER it posts then end in mode 1, with the provisioning calls, the access point's teardown, the collection set-up and the CSI app started with that record, in that order. A START_CSI_APP_AS_SENDER before any record is installed cannot be handled. |
| `WifiApp.ReceiverRequestStartsCollection` | ESP32_CSI_Web_Collecting_Tool/main/tasks/wifi_app.c:338-345 | A complete receiver request saves and sends one record. The Wi-Fi task's CHANGE queues the receiver start, which starts the CSI app with that record in mode 1. The saved record is the next boot's CHANGE message. |
| `WifiApp.WifiApplication.constructor` | ESP32_CSI_Web_Collecting_Tool/main/tasks/wifi_app.c:269-286 | The task starts in mode 0 without AP, with the slot's configuration and the boot message queued. |
| `WifiApp.WifiApplication.ConfigureStation` | ESP32_CSI_Web_Collecting_Tool/main/tasks/wifi_app.c:104-128 | The station set-up records the configuration's channel, bandwidth and secondary channel, and changes nothing else. |
| `WifiApp.WifiApplication.Reconfigure` | ESP32_CSI_Web_Collecting_Tool/main/tasks/wifi_app.c:323-351 | The CHANGE case changes the task as `Handle` says. |
| `WifiApp.WifiApplication.HandleMessage` | ESP32_CSI_Web_Collecting_Tool/main/tasks/wifi_app.c:291-366 | One message of the switch changes the task as `Handle` says. |
| `WifiApp.WifiApplication.ProcessNext` | ESP32_CSI_Web_Collecting_Tool/main/tasks/wifi_app.c:289-368 | The loop takes the queue's head and handles it. |
| `WifiApp.WifiApplication.HandleEvent` | ESP32_CSI_Web_Collecting_Tool/main/tasks/wifi_app.c:56-94 | The event handler changes the task as `OnEvent` says. |

## Left out

- `CsiApp.Receive`: the gate is stated in exact integers, `delta ≥ 900·sd` µs, instead of the C code's `float` arithmetic (`/1000.0`, `sd * 0.10`). Exactly at the boundary the firmware's rounding may differ by one microsecond.
- `CsiApp.Receive`: the sample and its buffer are modelled as values. The source copies the `wifi_csi_info_t` struct into the message (csi_app.c:74, 84, 93), but its `buf` still points into the Wi-Fi driver's buffer. The informer dereferences that pointer later, on its own task (informer.c:73-77, 137, 186, 232), after the callback has returned. Likewise `start_csi_app` passes the address of its by-value `config` parameter to the CSI task (csi_app.c:226), which reads it after the function returns. The model does not capture either lifetime.
- `CsiApp.HandleCsiMessage`: a receiver's STOP is modelled as the whole teardown trace `[StopTimer, DeleteTimer, DisableCsi]`. In the firmware only a sender creates `message_timer` (csi_app.c:156), so in a receiver the handle is still NULL (csi_app.c:35). `ESP_ERROR_CHECK(esp_timer_stop(message_timer))` (csi_app.c:186) then fails and reboots the chip before `esp_wifi_set_csi(false)` (csi_app.c:119) is reached. The model does not capture this abort, because the result of `esp_timer_stop` on a null handle comes from the timer library, which is not part of this model. In practice a receiver never gets a STOP: `MSG_ASK_CSI_TO_STOP` is posted only on `WIFI_EVENT_STA_DISCONNECTED` (wifi_app.c:73-80), and the receiver runs as an access point (wifi_app.c:166).
- `Informer.ToSdAndSerial`: the `serial` sink is the bytes handed to `uart_write_bytes`, not bytes that reach a wire. `uart_initialized` starts as `ESP_OK` (informer.c:35), and `init_uart_component`, the only code that calls `uart_param_config`, `uart_driver_install` and `uart_set_pin` (uart_component.c:30-50), runs only in mode 3 (informer.c:316-317). So mode 4 writes to a port with no driver installed, and the configured baud rate and pins are never applied. Whether that write fails is up to the UART driver, which is not part of this model.
- `Informer.HandleInformer`: the STOP branch's `close_file` is a second `fclose` of a stream already closed after its last write. The writes close `csi_fd` (informer.c:151, 189, 251) without setting it back to NULL, so the test `csi_fd != NULL` (informer.c:287) only says a file was once opened. The model records the call (`CloseFile`) but not its undefined behaviour. No task posts `MSG_STOP_INFORMER_APP`, so this branch is unreachable in the firmware as written.
- Concurrency. The firmware runs several FreeRTOS tasks (CSI, informer, Wi-Fi, HTTP server) and a timer. Each queue is a FIFO sequence and each handler one sequential step. Interleavings, blocking sends, queue capacities (10 and 20) and task creation and pinning are not modelled. This includes `start_csi_app` recreating its queue and task on every start.
- Driver calls. `esp_wifi_*`, `esp_netif_*`, the event loop, CSI registration, timers, sockets, NVS, SD, UART and `esp_restart` are recorded as actions or as appends to byte-sequence sinks. `ESP_ERROR_CHECK` failures (which reboot) are not modelled. Neither are the bodies of `wifi_init`, `wifi_deinit`, `wifi_config_ap` and `wifi_config_ap_for_collection` (wifi_app.c:130-264), beyond the action each one records.
- Results of unseen calls are parameters. These are the `create_socket` results (`results`), the SD file's open result (`openOk`), the SD and UART initialisation results and the file name (`sdOk`, `uartOk`, `name`), and the datagram send result (`sendResult`, only logged).
- The components `nvs_storage.c`, `sd_component.c`, `uart_component.c`, `udp_client.c` and `reset_button.c` are not part of this model. The NVS slot is the `stored` option of the Wi-Fi task.
- `Informer.Deliverable`: the 1024-byte `csi_string` buffer's overflow is a precondition. A record longer than 1023 characters (twice in mode 4 when the card is written) is outside the model.
- `Informer.AsciiReady`: `buf[0]` is printed even when `len == 0`, so a non-empty buffer is a precondition of the ASCII renderer.
- `WifiApp.BootDefined`: a stored configuration whose op mode is neither 1 nor 2 leaves the boot message uninitialised in the source, so it is a precondition of the boot.
- `WifiApp.CanHandle`: START_CSI_APP with no configuration installed would dereference a null pointer, so a present configuration is a precondition of that step. `Run` asks the same of each step of a series (`Runnable`), so runs from a first boot are covered up to such a message.
- `CsiApp.CanHandle`: a START at frequency 0 divides by zero, so a nonzero frequency is a precondition. So is a sender's eventual socket success: the retry loop does not end without one.
- The HTTP header lookup is modelled with exact names. The HTTP library compares header names without regard to case, and a `get_hdr_value_str` failure after a positive length (the `Error receiving` branches) is not modelled.
- Memory: `malloc`/`free` of the header strings and of the record (and the leaks on the failure paths) are not modelled.
- Logging (`ESP_LOG*`) is not modelled. That covers the disconnect handler's copy of the SSID into a 32-byte buffer (wifi_app.c:81-84) and every message printed.
- `set_default_csi_configuration` is the constant `DEFAULT_CONFIG`. The HTTP server's start and stop and its static-asset handlers (http_server.c:73-113, 535-618), `main.c`, the web page's script and the Python scripts under `Scripts/` are not part of this model.
- Under the corrected receiver test, `ConfigDecoder.Build` reads the receiver headers only for op mode `1` (see Findings). The as-written branch is stated as the predicate `ReceiverBranchAsWritten`; its null-pointer reads are not modelled.

## Findings

| source | as written | input that shows it | evidently intended | confidence | as-written member | corrected member |
|---|---|---|---|---|---|---|
| ESP32_CSI_Web_Collecting_Tool/main/tasks/http_server.c:490 | The success path takes the receiver branch on `atoi(op) == 1`, while the receiver headers were fetched only for `strcmp(op, "1") == 0` (line 208). | OpModes `01` with the five base headers: the request succeeds, and the branch reads ten header strings that were never fetched and are still NULL (declared at lines 117-120): the data representation, the eight flags and the informer mode. The first read, `atoi` of the null data representation on line 491, crashes. | The same test as line 208: exactly `1` selects the receiver. | not executed | `ConfigDecoder.ReceiverBranchReadsUnfetched` | `ConfigDecoder.SenderKeepsDefaults` |
| ESP32_CSI_Web_Collecting_Tool/main/tasks/http_server.c:481-484 | The `strtok` loop writes `mac_subs[i]` for every token, without a bound. | MacAddress `08:d1:f9:29:91:e8:00`: a seventh token writes past the six-byte array. | The loop stops after six bytes. | not executed | `ConfigDecoder.MacLoopOverruns` | `ConfigDecoder.ParseMac` |

The corrected definitions are `ConfigDecoder.Build` and `ConfigDecoder.ParseMac`, which the rest of the model uses.

- `SenderKeepsDefaults` proves of `Build` that a request not exactly `1` keeps the receiver defaults.
- `ReceiverRecord` proves that exactly `1` gives a receiver.
- `ExtraTokensIgnored` and `MacRoundTrip` prove that the bounded loop reads exactly the first six tokens.
