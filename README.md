# DPS-150 protocol core in Dafny

This project models the protocol core of the `dps150` Python driver for the FNIRSI DPS-150 bench
power supply. It has four layers, each in its own module:

- **Packet codec** (`protocol.dfy`, module `Protocol`). An outbound frame is
  `[0xF1, command, type, length, payload…, checksum]`. The checksum is
  `(type + length + sum(payload)) mod 256`. Decoding an inbound (0xF0) frame runs four checks
  in the source's order: minimum length, header, declared length, checksum.
- **Stream framer** (`framing.dfy`, module `Framing`). The `PacketBuffer` class holds a byte
  buffer. Its `ExtractPackets` method is the index-scanning `while` loop of the source, proved
  against a specification function `Scan`. The quirks are kept as written:
  - The loop guard `i < len - 5` holds back a lone 5-byte frame.
  - The buffer is trimmed only when at least one frame was found.
  - No checksum is checked at this stage.
- **Payload decoder and state merge** (`parsing.dfy` and `models.dfy`, modules `Parsing` and
  `Models`).
  - The decoder is a pure map from a type code and its payload to a field-update record. The
    record has one `Option` per dictionary key.
  - `DeviceState.UpdateFromDict` merges such a record into the device-state snapshot, in place.
  - Floats are opaque 4-byte words: a float field *is* the four bytes at its offset.
- **Session** (`device.dfy`, module `Device`). The `DPS150` class becomes `Session`, which holds:
  - a `connected` flag;
  - a ghost log of the frames written to the port;
  - the state and info objects;
  - the callback list;
  - a ghost log of callback calls.

  Its methods cover:
  - the send guard, the setters' validation and framing, and the initialisation sequence;
  - the packet handler, and the transport's per-chunk inbound step (append, extract, decode,
    dispatch).

`base.dfy` holds the byte and word types, `Option`, `Result` and the error kinds. `constants.dfy`
holds the headers, commands, type codes, protection-name table and baud-rate options, copied
verbatim from `dps150/constants.py`.

Behaviours of the code worth noting:
- A protection packet (type 220) with an index outside 0..6 produces no field at all. It is not
  clamped to Normal.
- An all-state packet (type 255) shorter than 139 bytes produces no update. The short payload is
  not partially decoded.
- The framer drops consumed bytes only when it emitted at least one frame.
- A short float payload raises `DPS150ProtocolError`. The inner `except` tuple does not catch it;
  the packet handler's outer handler does. So it is not a "no fields" result of the decoder: it
  is an error that the handler swallows, with the same net effect (no update, no callbacks).

## Model

| member | source | states |
|---|---|---|
| Constants.HeadersDiffer | dps150/constants.py:13-14 | the inbound and outbound headers differ |
| Constants.GroupCodesAreArithmetic | dps150/constants.py:28-39 | group n's voltage and current codes are 197+2(n-1) and 198+2(n-1) for n in 1..6 |
| Protocol.CalculateChecksum | dps150/protocol.py:31-53 | the loop's result is (type + len(data) + sum(data)) mod 256, a byte; header and command do not enter it |
| Protocol.EncodePacket | dps150/protocol.py:56-81 | a ValueError when a command, type or length does not fit a byte; otherwise the frame [0xF1, c, t, len] ++ data ++ [checksum], of length len(data)+5 |
| Protocol.EncodeBytePacket | dps150/protocol.py:99-112 | a ValueError for a value outside 0..255, and for a command or type code outside 0..255; otherwise the 6-byte frame of encode_packet(c, t, [value]) |
| Protocol.DecodePacket | dps150/protocol.py:115-156 | each of the four failures (too short, bad header, incomplete, checksum mismatch), with the earlier check taking precedence; on success the first 5+length bytes are exactly the inbound frame of the decoded fields |
| Protocol.DecodeFrame | dps150/protocol.py:140-156 | an inbound frame followed by any bytes decodes to its (command, type, length, payload) |
| Protocol.EncodeDecodeRoundTrip | dps150/protocol.py:56-156 | an encoded frame with its first byte set to 0xF0 decodes to (c, t, len(d), d); trailing bytes are ignored |
| Protocol.ChecksumDetectsPayloadChange | dps150/protocol.py:31-53 | changing any single payload byte changes the checksum |
| Protocol.CorruptedPayloadRejected | dps150/protocol.py:145-154 | a frame with one corrupted payload byte fails decoding with a checksum mismatch |
| Framing.Scan | dps150/protocol.py:180-216 | the scan returns as many start indices as frames and stops inside the buffer, at or after where it started |
| Framing.PacketBuffer.constructor | dps150/protocol.py:168-170 | a new buffer is empty |
| Framing.PacketBuffer.Append | dps150/protocol.py:172-178 | the buffer grows by exactly the received bytes |
| Framing.PacketBuffer.Clear | dps150/protocol.py:223-225 | the buffer is emptied |
| Framing.PacketBuffer.ExtractPackets | dps150/protocol.py:180-221 | the loop returns the frames of the scan specification, and leaves the buffer as the suffix from the stop index, or unchanged when no frame was found |
| Framing.ScanFramesAreSlices | dps150/protocol.py:195-215 | every returned frame starts with 0xF0, has length 5 + its byte 3, and is the slice of the buffer at its start index, inside the scanned range |
| Framing.ScanFramesInOrder | dps150/protocol.py:195-215 | the returned frames are in buffer order and do not overlap |
| Framing.ScanStopsAtOverrun | dps150/protocol.py:204-208 | a scan that stops before the last five bytes stops at a 0xF0 whose declared frame overruns the buffer, so that candidate stays in the buffer, at the front when a frame was emitted before it |
| Framing.SkippedBytesAreNoise | dps150/protocol.py:195-215 | every 0xF0 byte between the scan start and the stop index lies inside an emitted frame |
| Framing.ScanOfFrames | dps150/protocol.py:180-221 | back-to-back inbound frames, the last one carrying a payload, are cut exactly at their boundaries and all consumed |
| Framing.PrefixOfFrameYieldsNothing | dps150/protocol.py:204-219 | a proper prefix of a frame yields no frame and stays in the buffer unchanged |
| Framing.LoneEmptyFrameHeldBack | dps150/protocol.py:195 | a lone zero-payload frame is not emitted, and is emitted once one more byte follows it |
| Framing.FrameInTwoPieces | dps150/protocol.py:172-221 | a frame delivered in two pieces yields nothing, then exactly that frame with an empty buffer |
| Models.FirstMatch | dps150/models.py:27-30 | the search returns a member with the sought value when one exists, and NORMAL when none does |
| Models.FromString | dps150/models.py:24-30 | from_string returns a member whose value is the string, or NORMAL when no member has that value |
| Models.FromStringOfValue | dps150/models.py:24-30 | every member is found again from its own value |
| Models.ProtectionNamesAreMemberValues | dps150/constants.py:74-82 | the protection-name table has 7 entries, "" first, equal in order to the ProtectionState member values of dps150/models.py |
| Models.ModeFromString | dps150/models.py:174-175 | the mode is CC if and only if the string is "CC" |
| Models.DeviceInfo.constructor | dps150/models.py:39-44 | a new DeviceInfo has all three strings empty |
| Models.DeviceState.constructor | dps150/models.py:47-98 | a new snapshot holds the defaults: zero words, levels 0, both flags false, NORMAL, CV |
| Models.DeviceState.UpdateFromDict | dps150/models.py:100-179 | the new state is the old one with exactly the present keys applied (protection through from_string, mode through the "CC" test); absent keys keep their fields |
| Models.MergeIdempotent | dps150/models.py:100-179 | applying the same update twice leaves the state and info that applying it once leaves |
| Models.MergeWithoutFields | dps150/models.py:112-179 | an update with no keys changes nothing |
| Models.FullUpdateIgnoresOldState | dps150/models.py:112-179 | an update that carries every state key determines the whole new state, whatever the old one was |
| Parsing.BytesToFloat | dps150/protocol.py:24-28 | a float is read exactly when at least four bytes are present |
| Parsing.FloatWordRoundTrip | dps150/protocol.py:24-28 | the first four bytes come back as the word, whatever follows; fewer than four give the protocol error |
| Parsing.DecodeAscii | dps150/device.py:299 | the decoded text is no longer than the bytes and is all ASCII |
| Parsing.DecodeAsciiAppend | dps150/device.py:299 | decoding distributes over concatenation |
| Parsing.DecodeAsciiBytes | dps150/device.py:299 | decoding the bytes of an ASCII string gives the string back |
| Parsing.RStripNul | dps150/device.py:299 | rstrip of NUL keeps the longest prefix not ending in NUL, and everything it drops is NUL |
| Parsing.StripRight | dps150/device.py:299 | the right half of strip keeps the longest prefix not ending in whitespace, and drops only whitespace |
| Parsing.StripLeft | dps150/device.py:299 | the left half of strip keeps the longest suffix not starting with whitespace, and drops only whitespace |
| Parsing.TextRoundTrip | dps150/device.py:297-307 | a clean name, sent with leading spaces and trailing NUL padding, comes out of the text decoding as itself |
| Parsing.DispatchedTypesAreDistinct | dps150/constants.py:49-71 | the dispatched type codes are pairwise distinct and lie in 192..227 or are 255; the float codes are among them |
| Parsing.ParsePacketData | dps150/device.py:238-380 | no update for an empty payload or an undispatched code; an error exactly for a float code with 1 to 3 bytes, and it is the protocol error; an update, when given, is never empty |
| Parsing.ParseAll | dps150/device.py:315-374 | an all-state payload of at least 139 bytes sets every DeviceState key and no info key |
| Parsing.InputVoltagePayload | dps150/device.py:261-262 | type 192 with at least 4 bytes sets only inputVoltage, to bytes 0-3 |
| Parsing.TemperaturePayload | dps150/device.py:272-273 | type 196 sets only temperature, to bytes 0-3 |
| Parsing.OutputCapacityPayload | dps150/device.py:275-276 | type 217 sets only outputCapacity, to bytes 0-3 |
| Parsing.OutputEnergyPayload | dps150/device.py:278-279 | type 218 sets only outputEnergy, to bytes 0-3 |
| Parsing.UpperLimitVoltagePayload | dps150/device.py:309-310 | type 226 sets only upperLimitVoltage, to bytes 0-3 |
| Parsing.UpperLimitCurrentPayload | dps150/device.py:312-313 | type 227 sets only upperLimitCurrent, to bytes 0-3 |
| Parsing.OutputTriplePayload | dps150/device.py:264-270 | type 195 sets output voltage, current and power from bytes 0-3, 4-7 and 8-11 when at least 12 bytes are present, and nothing otherwise |
| Parsing.OutputEnablePayload | dps150/device.py:281-284 | type 219 sets outputClosed, true exactly for byte 1 |
| Parsing.ModePayload | dps150/device.py:293-295 | type 221 sets mode "CC" exactly for byte 0, else "CV" |
| Parsing.ProtectionPayload | dps150/device.py:286-291 | type 220 maps index 0..6 to the protection table, and an index out of range sets nothing |
| Parsing.ModelNamePayload | dps150/device.py:297-299 | type 222 sets only modelName, to the trimmed text, even when empty |
| Parsing.HardwareVersionPayload | dps150/device.py:301-303 | type 223 sets only hardwareVersion, to the trimmed text |
| Parsing.FirmwareVersionPayload | dps150/device.py:305-307 | type 224 sets only firmwareVersion, to the trimmed text |
| Parsing.AllStatePayloadLength | dps150/device.py:315-320 | type 255 with fewer than 139 bytes gives no update; with 139 or more, the full all-state update |
| Parsing.ProtectionPacketSetsMember | dps150/models.py:172-173 | a protection packet with index k leaves the state with the k-th member and every other field kept |
| Parsing.ModePacketSetsMode | dps150/models.py:174-175 | a mode packet leaves CC exactly when its byte is 0, every other field kept |
| Parsing.ProtectionIndex | dps150/constants.py:74-82 | the table index of a member names that member's value |
| Parsing.AllStateRoundTrip | dps150/device.py:318-372 | a payload laid out at the fixed offsets from any snapshot, followed by any 20 or more bytes, decodes to an update that rebuilds exactly that snapshot |
| Parsing.AllStateIgnoresByte110 | dps150/device.py:366-372 | byte 110 of the all-state payload is read by no field: changing it leaves the update unchanged |
| Parsing.AllStateProtectionOutOfRange | dps150/device.py:366 | an all-state protection byte of 7 or more gives the empty name, which merges to Normal |
| Device.IndexOf | dps150/device.py:159 | list.index returns the position of the first occurrence |
| Device.BaudRateIndex | dps150/device.py:159 | the baud-rate index sent during initialisation is 5 |
| Device.Notify | dps150/device.py:225-232 | one call per callback, in registration order, each handed the same snapshot |
| Device.Session.constructor | dps150/device.py:61-74 | a new session is not connected, with default state, empty info, no callbacks and an empty buffer |
| Device.Session.SendCommand | dps150/device.py:180-199 | not connected: a connection error and nothing written; an unencodable command: ValueError and nothing written; otherwise exactly the encoded frame is written, once |
| Device.Session.GetAll | dps150/device.py:384-392 | the all-state request is written |
| Device.Session.GetVoltage | dps150/device.py:394-401 | the all-state request is written, then the output voltage is read from the state; not connected: a connection error |
| Device.Session.GetCurrent | dps150/device.py:403-410 | the all-state request is written, then the output current is read from the state; not connected: a connection error |
| Device.Session.GetPower | dps150/device.py:412-419 | the all-state request is written, then the output power is read from the state; not connected: a connection error |
| Device.Session.GetTemperature | dps150/device.py:421-428 | the all-state request is written, then the temperature is read from the state; not connected: a connection error |
| Device.Session.GetInfo | dps150/device.py:430-451 | a request is written for each info string still empty, in order; not connected: a connection error if any string is empty, nothing otherwise |
| Device.Session.SetVoltage | dps150/device.py:453-460 | a SET of VOLTAGE_SET carrying the word |
| Device.Session.SetCurrent | dps150/device.py:462-469 | a SET of CURRENT_SET carrying the word |
| Device.Session.SetProtection | dps150/device.py:479-522 | a SET of the protection code carrying the word |
| Device.Session.SetOutput | dps150/device.py:471-477 | a SET of OUTPUT_ENABLE with payload [1] or [0] |
| Device.Session.SetMetering | dps150/device.py:544-550 | a SET of METERING_ENABLE with payload [1] or [0] |
| Device.Session.SetBrightness | dps150/device.py:524-532 | a level outside 0..10 is a ValueError before anything is written; otherwise one SET of BRIGHTNESS |
| Device.Session.SetVolume | dps150/device.py:534-542 | a level outside 0..10 is a ValueError before anything is written; otherwise one SET of VOLUME |
| Device.Session.SetGroup | dps150/device.py:554-578 | a group outside 1..6 is a ValueError before anything is written; otherwise four SET frames: VOLTAGE_SET, CURRENT_SET, 197+2(g-1), 198+2(g-1) |
| Device.Session.LoadGroup | dps150/device.py:580-602 | a group outside 1..6 is a ValueError before anything is written; otherwise the all-state request, then the group's presets as live voltage and current |
| Device.Session.OnStateUpdate | dps150/device.py:604-614 | the callback is appended after those already registered |
| Device.Session.InitDevice | dps150/device.py:139-178 | the six initialisation frames are written in order: connect, baud index 5, the three info requests, the all-state request |
| Device.Session.Connect | dps150/device.py:76-105 | already connected: nothing happens; no port: a connection error; otherwise connected, with an empty buffer and the initialisation frames written |
| Device.Session.Disconnect | dps150/device.py:107-128 | the disconnect announcement is written when connected; afterwards the session is not connected and the buffer is empty |
| Device.Session.OnPacketReceived | dps150/device.py:201-236 | the session after a packet is the packet-handling function of the one before |
| Device.Session.UpdateInfo | dps150/device.py:218-223 | each info string is set exactly when its key is present |
| Device.Session.NotifyCallbacks | dps150/device.py:225-232 | every callback is called in order with the current state; an exception from one is caught, so none is skipped |
| Device.Session.ReceiveChunk | dps150/transport.py:135-147 | the buffer keeps the framer's remainder, and the session has handled every extracted frame in order, skipping those that fail to decode |
| Device.UnparsedPacketIgnored | dps150/device.py:213-236 | an empty payload, an undispatched type, or a short float payload leaves state, info and callback calls untouched |
| Device.AllStatePacketReplacesState | dps150/device.py:213-232 | an all-state packet made from a snapshot makes it the session state, keeps the info, and hands it to every callback |
| Device.ModelNamePacketSetsName | dps150/device.py:213-232 | a model-name packet sets only the model name, to the trimmed text, and still notifies every callback |
| Device.RepeatedPacketSameState | dps150/device.py:213-223 | the same packet received twice leaves the state and info it leaves after once |
| Device.AllStateFrameInOneChunk | dps150/transport.py:135-147 | one chunk holding an inbound all-state frame is consumed whole and leaves that snapshot as the state |
| Device.CorruptedFrameSkipped | dps150/transport.py:139-147 | a frame with a corrupted payload byte is skipped, leaving the session as it was |

## Left out

- Serial I/O in `dps150/transport.py` is not modelled: opening and closing the port, the read loop and its timeout, the write lock, drain and the post-write sleep. Only the per-chunk step is modelled, as `Session.ReceiveChunk`.
- Port discovery (`dps150/utils.py`) is not part of this model. Whether a port was found and opened is the `portOpened` parameter of `Session.Connect`.
- The `asyncio.sleep` delays, the polling task (started by `on_state_update`) and the `asyncio.Lock` are left out. They concern timing and concurrency, and each command's write is modelled as one atomic step.
- `__aenter__` and `__aexit__` are left out; they call `Connect` and `Disconnect`.
- Float values are not modelled. A float is its 4-byte little-endian word, so `float_to_bytes`, `encode_float_packet` and the `struct.pack` calls of the setters become the word itself. Only the length check of `bytes_to_float` is kept.
- Parsing.DecodeAscii: models `bytes.decode("utf-8", errors="ignore")` only on ASCII. Every byte of 128 or more is dropped, so multi-byte UTF-8 characters are not decoded. Whitespace is likewise the ASCII set that `str.strip` removes.
- Callback bodies are foreign code. A callback is only an identity, and each call is logged with the state snapshot it was handed. Whether a call returns or raises is not represented: the handler catches any exception and goes on, so the outcome changes nothing the session keeps.
- Device.Session.NotifyCallbacks: callbacks receive the `DeviceState` object itself. A callback that mutates it, or keeps it and reads it later, is not modelled.
- Models.DeviceState: the 34 attributes are held as one record field, updated in key order and written back once. No other code can observe the object between two keys, so this is faithful to the result. A per-attribute field layout would make the proof of `UpdateFromDict` too costly.
- Device.Session.LoadGroup: reads the presets from the state as it stands when the all-state request has been written. A response arriving during the source's 0.1 s sleep is not modelled.
- Device.Session.GetVoltage, GetCurrent, GetPower and GetTemperature: likewise read the state as it stands after the all-state request; the response the request provokes is not awaited.
- Device.Session.SendCommand: a failed write on the port (an exception from `transport.write`) is not modelled; a connected session's write always succeeds.
- `dps150/exceptions.py` and `dps150/__init__.py` hold no logic. The exception classes are the `Error` datatype in `base.dfy`.
