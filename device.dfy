/** The session (class DPS150 in dps150/device.py): the connection guard of every command, the
    setters' validation and framing, the handling of a received packet, and the per-chunk inbound
    step of the transport (dps150/transport.py). Frames written to the serial port are recorded in
    a ghost log; the callbacks' calls in another. */
module Device {
  import opened Base
  import C = Constants
  import P = Protocol
  import F = Framing
  import opened Models
  import Parsing

  /** list.index: the position of the first occurrence of x. */
  function IndexOf(s: seq<int>, x: int): (k: nat)
    requires x in s
    ensures k < |s| && s[k] == x
    ensures forall j :: 0 <= j < k ==> s[j] != x
  {
    if s[0] == x then 0 else 1 + IndexOf(s[1..], x)
  }

  /** The baud-rate index sent during initialisation: 115200 is the fifth option, sent as 5. */
  lemma BaudRateIndex()
    ensures IndexOf(C.BaudRateOptions, C.BaudRate) + 1 == 5
  {
    assert C.BaudRateOptions[4] == C.BaudRate;
  }

  /** A registered state callback, known by its registration identity. Its body is foreign code:
      whether it returns or raises, the handler catches the exception and goes on, so the session
      sees no difference between the two. */
  datatype Callback = Callback(id: nat)

  /** One call of a callback, with the state snapshot it was handed. */
  datatype Delivery = Delivery(callback: Callback, state: StateValues)

  /** The calls the notification loop makes: every callback, in registration order, each with
      the same snapshot, whether or not an earlier one raised. */
  function Notify(callbacks: seq<Callback>, s: StateValues): (d: seq<Delivery>)
    ensures |d| == |callbacks|
    ensures forall k :: 0 <= k < |d| ==> d[k] == Delivery(callbacks[k], s)
  {
    if callbacks == [] then [] else [Delivery(callbacks[0], s)] + Notify(callbacks[1..], s)
  }

  /** What a received packet can change: the device state, the device info and the calls made. */
  datatype SessionView = SessionView(state: StateValues, info: InfoValues, deliveries: seq<Delivery>)

  /** _on_packet_received on values: a parsed update is merged into the state, its info keys set,
      and every callback notified; a payload that parses to nothing, or raises, changes nothing. */
  function Received(v: SessionView, callbacks: seq<Callback>, typeCode: int, data: seq<byte>): SessionView {
    match Parsing.ParsePacketData(typeCode, data)
    case Ok(Some(u)) =>
      var s := Merge(v.state, u);
      SessionView(s, MergeInfo(v.info, u), v.deliveries + Notify(callbacks, s))
    case _ => v
  }

  /** The transport's loop over extracted frames: each frame is decoded, a frame that fails to
      decode is skipped, and a decoded one is handed to the packet handler. */
  function ReceivedFrames(v: SessionView, callbacks: seq<Callback>, frames: seq<seq<byte>>): SessionView
    decreases |frames|
  {
    if frames == [] then v
    else
      var next := match P.DecodePacket(frames[0])
        case Ok(p) => Received(v, callbacks, p.typeCode, p.data)
        case Err(_) => v;
      ReceivedFrames(next, callbacks, frames[1..])
  }

  /** The payload of a command frame can be encoded: every byte in range and at most 255 of them. */
  predicate Encodable(command: int, typeCode: int, data: seq<byte>) {
    0 <= command < 256 && 0 <= typeCode < 256 && |data| <= 255
  }

  /** The frame the session writes for a command. */
  function CommandFrame(command: int, typeCode: int, data: seq<byte>): seq<byte>
    requires Encodable(command, typeCode, data)
  {
    P.Frame(C.HeaderOutput, command, typeCode, data)
  }

  /** The preset voltage of a group. */
  function GroupVoltage(s: StateValues, group: int): Word
    requires 1 <= group <= 6
  {
    if group == 1 then s.group1SetVoltage
    else if group == 2 then s.group2SetVoltage
    else if group == 3 then s.group3SetVoltage
    else if group == 4 then s.group4SetVoltage
    else if group == 5 then s.group5SetVoltage
    else s.group6SetVoltage
  }

  /** The preset current of a group. */
  function GroupCurrent(s: StateValues, group: int): Word
    requires 1 <= group <= 6
  {
    if group == 1 then s.group1SetCurrent
    else if group == 2 then s.group2SetCurrent
    else if group == 3 then s.group3SetCurrent
    else if group == 4 then s.group4SetCurrent
    else if group == 5 then s.group5SetCurrent
    else s.group6SetCurrent
  }

  /** The DPS150 session. connected stands for "a transport is present and connected"; the
      transport's packet buffer is framer. */
  class Session {
    var connected: bool
    ghost var written: seq<seq<byte>>
    const state: DeviceState
    const info: DeviceInfo
    var callbacks: seq<Callback>
    ghost var deliveries: seq<Delivery>
    const framer: F.PacketBuffer

    /** A new session: not connected, default state, empty info, no callbacks. */
    constructor ()
      ensures !connected && written == [] && callbacks == [] && deliveries == []
      ensures fresh(state) && fresh(info) && fresh(framer)
      ensures state.values == Defaults && info.Values() == EmptyInfo && framer.buffer == []
    {
      connected := false;
      written := [];
      state := new DeviceState();
      info := new DeviceInfo();
      callbacks := [];
      deliveries := [];
      framer := new F.PacketBuffer();
    }

    /** What received packets can change. */
    ghost function View(): SessionView
      reads this, state, info
    {
      SessionView(state.values, info.Values(), deliveries)
    }

    /** _send_command: refuses before writing when not connected; otherwise writes exactly the
        encoded frame once, or raises the encoder's ValueError and writes nothing. */
    method SendCommand(command: int, typeCode: int, data: seq<byte>) returns (o: Outcome)
      modifies this`written
      ensures !connected ==> o == Fail(ConnectionError) && written == old(written)
      ensures connected && !Encodable(command, typeCode, data) ==> o == Fail(ValueError) && written == old(written)
      ensures connected && Encodable(command, typeCode, data) ==>
                o == Pass && written == old(written) + [CommandFrame(command, typeCode, data)]
    {
      if !connected {
        return Fail(ConnectionError);
      }
      var packet := P.EncodePacket(command, typeCode, data);
      if packet.Err? {
        return Fail(packet.error);
      }
      written := written + [packet.value];
      o := Pass;
    }

    /** get_all: requests the all-state packet. */
    method GetAll() returns (o: Outcome)
      modifies this`written
      ensures !connected ==> o == Fail(ConnectionError) && written == old(written)
      ensures connected ==> o == Pass && written == old(written) + [CommandFrame(C.CmdGet, C.All, [])]
    {
      o := SendCommand(C.CmdGet, C.All, []);
    }

    /** get_voltage: requests the all-state packet, then reads outputVoltage from the state as it stands. */
    method GetVoltage() returns (o: Outcome, value: Word)
      modifies this`written
      ensures !connected ==> o == Fail(ConnectionError) && written == old(written)
      ensures connected ==> o == Pass && written == old(written) + [CommandFrame(C.CmdGet, C.All, [])]
      ensures o == Pass ==> value == state.values.outputVoltage
    {
      value := ZeroWord;
      o := GetAll();
      if o.Fail? {
        return;
      }
      value := state.values.outputVoltage;
    }

    /** get_current: requests the all-state packet, then reads outputCurrent from the state as it stands. */
    method GetCurrent() returns (o: Outcome, value: Word)
      modifies this`written
      ensures !connected ==> o == Fail(ConnectionError) && written == old(written)
      ensures connected ==> o == Pass && written == old(written) + [CommandFrame(C.CmdGet, C.All, [])]
      ensures o == Pass ==> value == state.values.outputCurrent
    {
      value := ZeroWord;
      o := GetAll();
      if o.Fail? {
        return;
      }
      value := state.values.outputCurrent;
    }

    /** get_power: requests the all-state packet, then reads outputPower from the state as it stands. */
    method GetPower() returns (o: Outcome, value: Word)
      modifies this`written
      ensures !connected ==> o == Fail(ConnectionError) && written == old(written)
      ensures connected ==> o == Pass && written == old(written) + [CommandFrame(C.CmdGet, C.All, [])]
      ensures o == Pass ==> value == state.values.outputPower
    {
      value := ZeroWord;
      o := GetAll();
      if o.Fail? {
        return;
      }
      value := state.values.outputPower;
    }

    /** get_temperature: requests the all-state packet, then reads temperature from the state as it stands. */
    method GetTemperature() returns (o: Outcome, value: Word)
      modifies this`written
      ensures !connected ==> o == Fail(ConnectionError) && written == old(written)
      ensures connected ==> o == Pass && written == old(written) + [CommandFrame(C.CmdGet, C.All, [])]
      ensures o == Pass ==> value == state.values.temperature
    {
      value := ZeroWord;
      o := GetAll();
      if o.Fail? {
        return;
      }
      value := state.values.temperature;
    }

    /** get_info: requests each info string the device has not reported yet, stopping at the
        first failure. */
    method GetInfo() returns (o: Outcome)
      modifies this`written
      ensures !connected ==> written == old(written)
      ensures !connected ==>
                o == (if info.modelName == "" || info.hardwareVersion == "" || info.firmwareVersion == ""
                      then Fail(ConnectionError) else Pass)
      ensures connected ==>
                o == Pass &&
                written == old(written)
                  + (if info.modelName == "" then [CommandFrame(C.CmdGet, C.ModelName, [])] else [])
                  + (if info.hardwareVersion == "" then [CommandFrame(C.CmdGet, C.HardwareVersion, [])] else [])
                  + (if info.firmwareVersion == "" then [CommandFrame(C.CmdGet, C.FirmwareVersion, [])] else [])
    {
      o := Pass;
      if info.modelName == "" {
        o := SendCommand(C.CmdGet, C.ModelName, []);
        if o.Fail? {
          return;
        }
      }
      if info.hardwareVersion == "" {
        o := SendCommand(C.CmdGet, C.HardwareVersion, []);
        if o.Fail? {
          return;
        }
      }
      if info.firmwareVersion == "" {
        o := SendCommand(C.CmdGet, C.FirmwareVersion, []);
      }
    }

    /** set_voltage: the new voltage as a SET of VOLTAGE_SET. */
    method SetVoltage(value: Word) returns (o: Outcome)
      modifies this`written
      ensures !connected ==> o == Fail(ConnectionError) && written == old(written)
      ensures connected ==> o == Pass && written == old(written) + [CommandFrame(C.CmdSet, C.VoltageSet, value)]
    {
      o := SendCommand(C.CmdSet, C.VoltageSet, value);
    }

    /** set_current: the new current as a SET of CURRENT_SET. */
    method SetCurrent(value: Word) returns (o: Outcome)
      modifies this`written
      ensures !connected ==> o == Fail(ConnectionError) && written == old(written)
      ensures connected ==> o == Pass && written == old(written) + [CommandFrame(C.CmdSet, C.CurrentSet, value)]
    {
      o := SendCommand(C.CmdSet, C.CurrentSet, value);
    }

    /** set_ovp, set_ocp, set_opp, set_otp, set_lvp: a protection threshold as a SET of its code. */
    method SetProtection(typeCode: byte, value: Word) returns (o: Outcome)
      requires typeCode in {C.Ovp, C.Ocp, C.Opp, C.Otp, C.Lvp}
      modifies this`written
      ensures !connected ==> o == Fail(ConnectionError) && written == old(written)
      ensures connected ==> o == Pass && written == old(written) + [CommandFrame(C.CmdSet, typeCode, value)]
    {
      o := SendCommand(C.CmdSet, typeCode, value);
    }

    /** enable_output / disable_output: OUTPUT_ENABLE with payload 1 or 0. */
    method SetOutput(enable: bool) returns (o: Outcome)
      modifies this`written
      ensures !connected ==> o == Fail(ConnectionError) && written == old(written)
      ensures connected ==> o == Pass && written == old(written) + [CommandFrame(C.CmdSet, C.OutputEnable, [if enable then 1 else 0])]
    {
      o := SendCommand(C.CmdSet, C.OutputEnable, [if enable then 1 else 0]);
    }

    /** start_metering / stop_metering: METERING_ENABLE with payload 1 or 0. */
    method SetMetering(enable: bool) returns (o: Outcome)
      modifies this`written
      ensures !connected ==> o == Fail(ConnectionError) && written == old(written)
      ensures connected ==> o == Pass && written == old(written) + [CommandFrame(C.CmdSet, C.MeteringEnable, [if enable then 1 else 0])]
    {
      o := SendCommand(C.CmdSet, C.MeteringEnable, [if enable then 1 else 0]);
    }

    /** set_brightness: a level outside 0..10 is refused before anything is written. */
    method SetBrightness(value: int) returns (o: Outcome)
      modifies this`written
      ensures !(0 <= value <= 10) ==> o == Fail(ValueError) && written == old(written)
      ensures 0 <= value <= 10 && !connected ==> o == Fail(ConnectionError) && written == old(written)
      ensures 0 <= value <= 10 && connected ==>
                o == Pass && written == old(written) + [CommandFrame(C.CmdSet, C.Brightness, [value])]
    {
      if !(0 <= value <= 10) {
        return Fail(ValueError);
      }
      o := SendCommand(C.CmdSet, C.Brightness, [value]);
    }

    /** set_volume: a level outside 0..10 is refused before anything is written. */
    method SetVolume(value: int) returns (o: Outcome)
      modifies this`written
      ensures !(0 <= value <= 10) ==> o == Fail(ValueError) && written == old(written)
      ensures 0 <= value <= 10 && !connected ==> o == Fail(ConnectionError) && written == old(written)
      ensures 0 <= value <= 10 && connected ==>
                o == Pass && written == old(written) + [CommandFrame(C.CmdSet, C.Volume, [value])]
    {
      if !(0 <= value <= 10) {
        return Fail(ValueError);
      }
      o := SendCommand(C.CmdSet, C.Volume, [value]);
    }

    /** set_group: a group outside 1..6 is refused before anything is written; otherwise four
        SET frames go out: the live voltage, the live current, then the group's two presets. */
    method SetGroup(group: int, voltage: Word, current: Word) returns (o: Outcome)
      modifies this`written
      ensures !(1 <= group <= 6) ==> o == Fail(ValueError) && written == old(written)
      ensures 1 <= group <= 6 && !connected ==> o == Fail(ConnectionError) && written == old(written)
      ensures 1 <= group <= 6 && connected ==> o == Pass && written == old(written) + [
                CommandFrame(C.CmdSet, C.VoltageSet, voltage),
                CommandFrame(C.CmdSet, C.CurrentSet, current),
                CommandFrame(C.CmdSet, C.Group1VoltageSet + 2 * (group - 1), voltage),
                CommandFrame(C.CmdSet, C.Group1CurrentSet + 2 * (group - 1), current)]
    {
      if !(1 <= group <= 6) {
        return Fail(ValueError);
      }
      var voltageType := C.Group1VoltageSet + (group - 1) * 2;
      var currentType := C.Group1CurrentSet + (group - 1) * 2;
      o := SetVoltage(voltage);
      if o.Fail? {
        return;
      }
      o := SetCurrent(current);
      if o.Fail? {
        return;
      }
      o := SendCommand(C.CmdSet, voltageType, voltage);
      if o.Fail? {
        return;
      }
      o := SendCommand(C.CmdSet, currentType, current);
    }

    /** load_group: a group outside 1..6 is refused before anything is written; otherwise the
        all-state request goes out, then the group's presets as read from the state are set as
        the live voltage and current. */
    method LoadGroup(group: int) returns (o: Outcome)
      modifies this`written
      ensures !(1 <= group <= 6) ==> o == Fail(ValueError) && written == old(written)
      ensures 1 <= group <= 6 && !connected ==> o == Fail(ConnectionError) && written == old(written)
      ensures 1 <= group <= 6 && connected ==> o == Pass && written == old(written) + [
                CommandFrame(C.CmdGet, C.All, []),
                CommandFrame(C.CmdSet, C.VoltageSet, GroupVoltage(state.values, group)),
                CommandFrame(C.CmdSet, C.CurrentSet, GroupCurrent(state.values, group))]
    {
      if !(1 <= group <= 6) {
        return Fail(ValueError);
      }
      o := GetAll();
      if o.Fail? {
        return;
      }
      var voltage := GroupVoltage(state.values, group);
      var current := GroupCurrent(state.values, group);
      o := SetVoltage(voltage);
      if o.Fail? {
        return;
      }
      o := SetCurrent(current);
    }

    /** on_state_update: registers a callback after those already registered. */
    method OnStateUpdate(callback: Callback)
      modifies this`callbacks
      ensures callbacks == old(callbacks) + [callback]
    {
      callbacks := callbacks + [callback];
    }

    /** _init_device: the connection announcement, the baud-rate index, the three info requests
        and the all-state request, in this order. */
    method InitDevice() returns (o: Outcome)
      modifies this`written
      ensures !connected ==> o == Fail(ConnectionError) && written == old(written)
      ensures connected ==> o == Pass && written == old(written) + [
                CommandFrame(C.CmdXxx193, 0, [1]),
                CommandFrame(C.CmdXxx176, 0, [5]),
                CommandFrame(C.CmdGet, C.ModelName, []),
                CommandFrame(C.CmdGet, C.HardwareVersion, []),
                CommandFrame(C.CmdGet, C.FirmwareVersion, []),
                CommandFrame(C.CmdGet, C.All, [])]
    {
      o := SendCommand(C.CmdXxx193, 0, [1]);
      if o.Fail? {
        return;
      }
      BaudRateIndex();
      var baudIndex := IndexOf(C.BaudRateOptions, C.BaudRate) + 1;
      o := SendCommand(C.CmdXxx176, 0, [baudIndex]);
      if o.Fail? {
        return;
      }
      o := SendCommand(C.CmdGet, C.ModelName, []);
      if o.Fail? {
        return;
      }
      o := SendCommand(C.CmdGet, C.HardwareVersion, []);
      if o.Fail? {
        return;
      }
      o := SendCommand(C.CmdGet, C.FirmwareVersion, []);
      if o.Fail? {
        return;
      }
      o := GetAll();
    }

    /** connect: nothing to do when already connected; a port that cannot be found or opened
        (portOpened false) is a connection error; otherwise the transport starts with an empty
        buffer and the initialisation sequence is written. */
    method Connect(portOpened: bool) returns (o: Outcome)
      modifies this`connected, this`written, framer
      ensures old(connected) ==> o == Pass && connected && written == old(written) && framer.buffer == old(framer.buffer)
      ensures !old(connected) && !portOpened ==> o == Fail(ConnectionError) && !connected && written == old(written)
      ensures !old(connected) && portOpened ==> o == Pass && connected && framer.buffer == [] && written == old(written) + [
                CommandFrame(C.CmdXxx193, 0, [1]),
                CommandFrame(C.CmdXxx176, 0, [5]),
                CommandFrame(C.CmdGet, C.ModelName, []),
                CommandFrame(C.CmdGet, C.HardwareVersion, []),
                CommandFrame(C.CmdGet, C.FirmwareVersion, []),
                CommandFrame(C.CmdGet, C.All, [])]
    {
      if connected {
        return Pass;
      }
      if !portOpened {
        return Fail(ConnectionError);
      }
      connected := true;
      framer.Clear();
      o := InitDevice();
    }

    /** disconnect: a best-effort announcement when connected (its failure is ignored), then the
        transport is closed with its buffer cleared. */
    method Disconnect()
      modifies this`connected, this`written, framer
      ensures !connected && framer.buffer == []
      ensures old(connected) ==> written == old(written) + [CommandFrame(C.CmdXxx193, 0, [0])]
      ensures !old(connected) ==> written == old(written)
    {
      if connected {
        var ignored := SendCommand(C.CmdXxx193, 0, [0]);
      }
      connected := false;
      framer.Clear();
    }

    /** _on_packet_received: parse, merge into the state, set the info strings whose keys are
        present, then call every callback in order; a raising callback is caught and the loop
        goes on. A payload that parses to nothing, or raises, leaves everything as it was. */
    method OnPacketReceived(command: int, typeCode: int, data: seq<byte>)
      modifies state, info, this`deliveries
      ensures View() == Received(old(View()), callbacks, typeCode, data)
    {
      var parsed := Parsing.ParsePacketData(typeCode, data);
      if parsed.Err? || parsed.value.None? {
        return;
      }
      var u := parsed.value.value;
      state.UpdateFromDict(u);
      UpdateInfo(u);
      NotifyCallbacks();
    }

    /** The info half of the packet handler: each string is set only if its key is present. */
    method UpdateInfo(u: Update)
      modifies info
      ensures info.Values() == MergeInfo(old(info.Values()), u)
    {
      if u.modelName.Some? {
        info.modelName := u.modelName.value;
      }
      if u.hardwareVersion.Some? {
        info.hardwareVersion := u.hardwareVersion.value;
      }
      if u.firmwareVersion.Some? {
        info.firmwareVersion := u.firmwareVersion.value;
      }
    }

    /** The notification loop: every callback is called with the state, in registration order;
        a raising callback is caught and the loop goes on. */
    method NotifyCallbacks()
      modifies this`deliveries
      ensures deliveries == old(deliveries) + Notify(callbacks, state.values)
    {
      var k := 0;
      while k < |callbacks|
        invariant 0 <= k <= |callbacks|
        invariant deliveries == old(deliveries) + Notify(callbacks[..k], state.values)
      {
        // An exception from the call is caught here, so the next callback is still called.
        deliveries := deliveries + [Delivery(callbacks[k], state.values)];
        k := k + 1;
      }
      assert callbacks[..k] == callbacks;
    }

    /** The transport's per-chunk step: append the chunk to the buffer, extract the complete
        frames, decode each one, skip those that fail to decode and hand the others to the
        packet handler, in order. */
    method ReceiveChunk(chunk: seq<byte>)
      modifies framer, state, info, this`deliveries
      ensures framer.buffer == F.Remainder(old(framer.buffer) + chunk)
      ensures View() == ReceivedFrames(old(View()), callbacks, F.FramesOf(old(framer.buffer) + chunk))
    {
      framer.Append(chunk);
      var packets := framer.ExtractPackets();
      var k := 0;
      while k < |packets|
        invariant 0 <= k <= |packets|
        invariant framer.buffer == F.Remainder(old(framer.buffer) + chunk)
        invariant ReceivedFrames(View(), callbacks, packets[k..]) == ReceivedFrames(old(View()), callbacks, packets)
      {
        var decoded := P.DecodePacket(packets[k]);
        if decoded.Ok? {
          OnPacketReceived(decoded.value.command, decoded.value.typeCode, decoded.value.data);
        }
        k := k + 1;
      }
    }
  }

  // ---------------------------------------------------------------- properties of packet handling

  /** A packet that parses to nothing or raises (an empty payload, a type code outside the
      dispatch, a float payload shorter than four bytes) leaves state, info and callbacks alone. */
  lemma UnparsedPacketIgnored(v: SessionView, callbacks: seq<Callback>, typeCode: int, data: seq<byte>)
    requires |data| == 0 || typeCode !in Parsing.DispatchedTypes || (typeCode in Parsing.FloatTypes && |data| < 4)
    ensures Received(v, callbacks, typeCode, data) == v
  {
  }

  /** An all-state packet laid out from a state s makes s the session's state, leaves the info
      alone, and hands s to every callback in order. */
  lemma AllStatePacketReplacesState(v: SessionView, callbacks: seq<Callback>, s: StateValues, tail: seq<byte>)
    requires 0 <= s.brightness < 256 && 0 <= s.volume < 256 && |tail| >= 20
    ensures Received(v, callbacks, C.All, Parsing.StateBytes(s) + tail) ==
              SessionView(s, v.info, v.deliveries + Notify(callbacks, s))
  {
    Parsing.AllStateRoundTrip(s, v.state, tail);
    Parsing.AllStatePayloadLength(Parsing.StateBytes(s) + tail);
  }

  /** A model-name packet sets the model name to the trimmed text and nothing else, and still
      notifies every callback with the unchanged state. */
  lemma ModelNamePacketSetsName(v: SessionView, callbacks: seq<Callback>, name: string, lead: nat, pad: nat)
    requires Parsing.IsCleanText(name) && lead + |name| + pad > 0
    ensures Received(v, callbacks, C.ModelName, Parsing.Spaces(lead) + Parsing.AsciiBytes(name) + Parsing.Nuls(pad)) ==
              SessionView(v.state, v.info.(modelName := name), v.deliveries + Notify(callbacks, v.state))
  {
    var data := Parsing.Spaces(lead) + Parsing.AsciiBytes(name) + Parsing.Nuls(pad);
    Parsing.TextRoundTrip(name, lead, pad);
    Parsing.ModelNamePayload(data);
    var u := NoFields.(modelName := Some(name));
    assert Merge(v.state, u) == v.state;
  }

  /** Receiving the same packet twice leaves the state and info it leaves after once; only the
      callbacks are called again. */
  lemma RepeatedPacketSameState(v: SessionView, callbacks: seq<Callback>, typeCode: int, data: seq<byte>)
    ensures var once := Received(v, callbacks, typeCode, data);
      var twice := Received(once, callbacks, typeCode, data);
      twice.state == once.state && twice.info == once.info
  {
    var r := Parsing.ParsePacketData(typeCode, data);
    if r.Ok? && r.value.Some? {
      MergeIdempotent(v.state, v.info, r.value.value);
    }
  }

  /** End to end: one chunk holding exactly an inbound all-state frame built from a state s is
      consumed whole and leaves s as the session's state, every callback handed s. */
  lemma AllStateFrameInOneChunk(v: SessionView, callbacks: seq<Callback>, command: byte, s: StateValues, tail: seq<byte>)
    requires 0 <= s.brightness < 256 && 0 <= s.volume < 256 && 20 <= |tail| <= 136
    ensures var f := P.Frame(C.HeaderInput, command, C.All, Parsing.StateBytes(s) + tail);
      F.Remainder(f) == [] &&
      ReceivedFrames(v, callbacks, F.FramesOf(f)) == SessionView(s, v.info, v.deliveries + Notify(callbacks, s))
  {
    var payload := Parsing.StateBytes(s) + tail;
    var f := P.Frame(C.HeaderInput, command, C.All, payload);
    assert F.Concat([f]) == f;
    assert f[0..] == f;
    F.ScanOfFrames(f, 0, [f]);
    P.DecodeFrame(command, C.All, payload, []);
    assert f + [] == f;
    AllStatePacketReplacesState(v, callbacks, s, tail);
    assert ReceivedFrames(v, callbacks, [f]) == Received(v, callbacks, C.All, payload);
  }

  /** A frame whose payload was corrupted in transit fails its checksum and is skipped: the
      session is left as it was. */
  lemma CorruptedFrameSkipped(v: SessionView, callbacks: seq<Callback>, command: byte, typeCode: byte,
                              data: seq<byte>, k: nat, b: byte)
    requires |data| <= 255 && k < |data| && b != data[k]
    ensures ReceivedFrames(v, callbacks, [P.Frame(C.HeaderInput, command, typeCode, data)[4 + k := b]]) == v
  {
    P.CorruptedPayloadRejected(command, typeCode, data, k, b);
  }
}
