/** The payload decoder of the session (DPS150._parse_packet_data in dps150/device.py): a pure map
    from a type code and the payload bytes of a checked frame to the keys it sets. */
module Parsing {
  import opened Base
  import C = Constants
  import opened Models

  /** bytes_to_float: a float is read from the first four payload bytes; fewer than four raise
      DPS150ProtocolError. The word stands for the float it encodes. */
  function BytesToFloat(data: seq<byte>): (r: Result<Word>)
    ensures r.Ok? <==> |data| >= 4
  {
    if |data| < 4 then Err(ProtocolError(InsufficientFloatData))
    else
      var w: Word := data[..4];
      Ok(w)
  }

  /** float_to_bytes and bytes_to_float are inverse: the word written is the word read back,
      whatever follows it; and a short payload is the protocol error. */
  lemma FloatWordRoundTrip(w: Word, rest: seq<byte>, short: seq<byte>)
    requires |short| < 4
    ensures BytesToFloat(w + rest) == Ok(w)
    ensures BytesToFloat(short) == Err(ProtocolError(InsufficientFloatData))
  {
    assert (w + rest)[..4] == w;
  }

  // ---------------------------------------------------------------- text payloads

  /** The whitespace str.strip() removes, among the characters an ASCII decoding yields:
      tab, line feed, vertical tab, form feed, carriage return, the four separators 28-31 and space. */
  predicate IsSpace(c: char) {
    c as int == 32 || 9 <= c as int <= 13 || 28 <= c as int <= 31
  }

  /** bytes.decode("utf-8", errors="ignore") on the ASCII range: each byte below 128 is its
      character, every other byte is dropped. */
  function DecodeAscii(data: seq<byte>): (s: string)
    ensures |s| <= |data|
    ensures forall k :: 0 <= k < |s| ==> s[k] as int < 128
  {
    if data == [] then ""
    else (if data[0] < 128 then [data[0] as char] else "") + DecodeAscii(data[1..])
  }

  /** Decoding works byte by byte, so it distributes over concatenation. */
  lemma {:induction false} DecodeAsciiAppend(a: seq<byte>, b: seq<byte>)
    ensures DecodeAscii(a + b) == DecodeAscii(a) + DecodeAscii(b)
  {
    if a != [] {
      assert (a + b)[0] == a[0];
      assert (a + b)[1..] == a[1..] + b;
      DecodeAsciiAppend(a[1..], b);
      var h := if a[0] < 128 then [a[0] as char] else "";
      assert DecodeAscii(a + b) == h + (DecodeAscii(a[1..]) + DecodeAscii(b));
      assert DecodeAscii(a) == h + DecodeAscii(a[1..]);
    } else {
      assert a + b == b;
    }
  }

  /** The bytes of an ASCII string. */
  function AsciiBytes(s: string): (b: seq<byte>)
    requires forall k :: 0 <= k < |s| ==> s[k] as int < 128
    ensures |b| == |s|
  {
    if s == [] then [] else [s[0] as int] + AsciiBytes(s[1..])
  }

  /** Decoding the bytes of an ASCII string gives the string back. */
  lemma {:induction false} DecodeAsciiBytes(s: string)
    requires forall k :: 0 <= k < |s| ==> s[k] as int < 128
    ensures DecodeAscii(AsciiBytes(s)) == s
  {
    if s != [] {
      var b := AsciiBytes(s);
      assert b[0] == s[0] as int && b[1..] == AsciiBytes(s[1..]);
      DecodeAsciiBytes(s[1..]);
    }
  }

  /** rstrip("\x00"): the longest prefix that does not end in NUL; what it drops is all NUL. */
  function RStripNul(s: string): (r: string)
    ensures |r| <= |s| && r == s[..|r|]
    ensures r == [] || r[|r| - 1] != '\0'
    ensures forall k :: |r| <= k < |s| ==> s[k] == '\0'
  {
    if s != [] && s[|s| - 1] == '\0' then RStripNul(s[..|s| - 1]) else s
  }

  /** The right half of strip(): the longest prefix that does not end in whitespace. */
  function StripRight(s: string): (r: string)
    ensures |r| <= |s| && r == s[..|r|]
    ensures r == [] || !IsSpace(r[|r| - 1])
    ensures forall k :: |r| <= k < |s| ==> IsSpace(s[k])
  {
    if s != [] && IsSpace(s[|s| - 1]) then StripRight(s[..|s| - 1]) else s
  }

  /** The left half of strip(): the longest suffix that does not start with whitespace. */
  function StripLeft(s: string): (r: string)
    ensures |r| <= |s| && r == s[|s| - |r|..]
    ensures r == [] || !IsSpace(r[0])
    ensures forall k :: 0 <= k < |s| - |r| ==> IsSpace(s[k])
  {
    if s != [] && IsSpace(s[0]) then StripLeft(s[1..]) else s
  }

  /** strip(): whitespace removed from both ends. */
  function Strip(s: string): string {
    StripLeft(StripRight(s))
  }

  /** A text payload (model name, hardware and firmware version): decoded, trailing NULs removed,
      then surrounding whitespace removed. */
  function TrimText(data: seq<byte>): string {
    Strip(RStripNul(DecodeAscii(data)))
  }

  /** Text the device can report: printable ASCII that neither starts nor ends with a space. */
  predicate IsCleanText(s: string) {
    (forall k :: 0 <= k < |s| ==> 32 <= s[k] as int < 127) && (s == [] || (s[0] != ' ' && s[|s| - 1] != ' '))
  }

  function Spaces(n: nat): (b: seq<byte>)
    ensures |b| == n && forall k :: 0 <= k < n ==> b[k] == 32
  {
    seq(n, _ => 32)
  }

  function Nuls(n: nat): (b: seq<byte>)
    ensures |b| == n && forall k :: 0 <= k < n ==> b[k] == 0
  {
    seq(n, _ => 0)
  }

  /** A clean name sent with leading spaces and NUL padding comes out of the text decoding as
      itself. */
  lemma TextRoundTrip(name: string, lead: nat, pad: nat)
    requires IsCleanText(name)
    ensures TrimText(Spaces(lead) + AsciiBytes(name) + Nuls(pad)) == name
  {
    var sp: string := seq(lead, _ => ' ');
    DecodePadded(name, lead, pad);
    assert sp + name == [] || (sp + name)[|sp + name| - 1] != '\0' by {
      if name != [] {
        assert (sp + name)[|sp + name| - 1] == name[|name| - 1];
      } else if sp != [] {
        assert (sp + name)[|sp + name| - 1] == ' ';
      }
    }
    RStripNulOfPadding(sp + name, pad);
    StripPadded(name, sp);
  }

  /** The decoding of a padded clean name. */
  lemma DecodePadded(name: string, lead: nat, pad: nat)
    requires IsCleanText(name)
    ensures DecodeAscii(Spaces(lead) + AsciiBytes(name) + Nuls(pad)) == seq(lead, _ => ' ') + name + seq(pad, _ => '\0')
  {
    var b := AsciiBytes(name);
    DecodeAsciiAppend(Spaces(lead) + b, Nuls(pad));
    DecodeAsciiAppend(Spaces(lead), b);
    DecodeAsciiBytes(name);
    DecodeAsciiOfConstant(Spaces(lead), 32);
    DecodeAsciiOfConstant(Nuls(pad), 0);
  }

  /** strip() of a clean name behind spaces is the name. */
  lemma StripPadded(name: string, sp: string)
    requires IsCleanText(name) && forall k :: 0 <= k < |sp| ==> sp[k] == ' '
    ensures Strip(sp + name) == name
  {
    StripRightKeepsClean(sp, name);
    if name != [] {
      StripLeftOfSpaces(sp, name);
    }
  }

  /** Decoding a run of one ASCII byte gives the run of its character. */
  lemma {:induction false} DecodeAsciiOfConstant(b: seq<byte>, v: byte)
    requires v < 128 && forall k :: 0 <= k < |b| ==> b[k] == v
    ensures DecodeAscii(b) == seq(|b|, _ => v as char)
  {
    if b != [] {
      DecodeAsciiOfConstant(b[1..], v);
    }
  }

  /** rstrip("\x00") removes exactly the NUL padding from a string whose last character is not NUL. */
  lemma {:induction false} RStripNulOfPadding(s: string, n: nat)
    requires s == [] || s[|s| - 1] != '\0'
    ensures RStripNul(s + seq(n, _ => '\0')) == s
  {
    if n > 0 {
      var t := s + seq(n, _ => '\0');
      assert t[..|t| - 1] == s + seq(n - 1, _ => '\0');
      RStripNulOfPadding(s, n - 1);
    } else {
      assert s + seq(n, _ => '\0') == s;
    }
  }

  /** Whitespace before a clean name survives the right strip untouched. */
  lemma StripRightKeepsClean(sp: string, name: string)
    requires IsCleanText(name) && forall k :: 0 <= k < |sp| ==> sp[k] == ' '
    ensures StripRight(sp + name) == if name == [] then [] else sp + name
  {
    if name == [] {
      assert sp + name == sp;
      StripRightOfSpaces(sp);
    } else {
      var t := sp + name;
      assert t[|t| - 1] == name[|name| - 1];
      assert !IsSpace(t[|t| - 1]);
    }
  }

  /** The right strip of nothing but spaces is empty. */
  lemma {:induction false} StripRightOfSpaces(sp: string)
    requires forall k :: 0 <= k < |sp| ==> sp[k] == ' '
    ensures StripRight(sp) == []
  {
    if sp != [] {
      assert IsSpace(sp[|sp| - 1]);
      StripRightOfSpaces(sp[..|sp| - 1]);
    }
  }

  /** The left strip removes exactly the spaces in front of a name that does not start with one. */
  lemma {:induction false} StripLeftOfSpaces(sp: string, name: string)
    requires name != [] && !IsSpace(name[0]) && forall k :: 0 <= k < |sp| ==> sp[k] == ' '
    ensures StripLeft(sp + name) == name
  {
    if sp == [] {
      assert sp + name == name;
    } else {
      var t := sp + name;
      assert t[0] == ' ' && IsSpace(t[0]);
      assert t[1..] == sp[1..] + name;
      StripLeftOfSpaces(sp[1..], name);
    }
  }

  // ---------------------------------------------------------------- the dispatch

  /** The type codes the decoder dispatches on, in the order of its if-chain. */
  const DispatchedTypes: seq<int> := [
    C.InputVoltage, C.OutputVoltageCurrentPower, C.Temperature, C.OutputCapacity, C.OutputEnergy,
    C.OutputEnable, C.ProtectionState, C.Mode, C.ModelName, C.HardwareVersion, C.FirmwareVersion,
    C.UpperLimitVoltage, C.UpperLimitCurrent, C.All]

  /** The type codes whose payload is one float. */
  const FloatTypes: seq<int> := [
    C.InputVoltage, C.Temperature, C.OutputCapacity, C.OutputEnergy, C.UpperLimitVoltage, C.UpperLimitCurrent]

  /** The dispatched codes are pairwise distinct and lie in 192..227 or are 255. */
  lemma DispatchedTypesAreDistinct()
    ensures forall i, j :: 0 <= i < j < |DispatchedTypes| ==> DispatchedTypes[i] != DispatchedTypes[j]
    ensures forall i :: 0 <= i < |DispatchedTypes| ==>
              192 <= DispatchedTypes[i] <= 227 || DispatchedTypes[i] == 255
    ensures forall i :: 0 <= i < |FloatTypes| ==> FloatTypes[i] in DispatchedTypes
  {
  }

  /** The dictionary the if-chain builds for one dispatched type code and a non-empty payload.
      A float read may raise; the other branches build a dictionary, possibly an empty one. */
  function ParseFields(typeCode: int, data: seq<byte>): Result<Update>
    requires |data| > 0
  {
    if typeCode == C.InputVoltage then
      var f :- BytesToFloat(data);
      Ok(NoFields.(inputVoltage := Some(f)))
    else if typeCode == C.OutputVoltageCurrentPower then
      if |data| >= 12 then
        Ok(NoFields.(outputVoltage := Some(data[0..4]), outputCurrent := Some(data[4..8]),
                     outputPower := Some(data[8..12])))
      else Ok(NoFields)
    else if typeCode == C.Temperature then
      var f :- BytesToFloat(data);
      Ok(NoFields.(temperature := Some(f)))
    else if typeCode == C.OutputCapacity then
      var f :- BytesToFloat(data);
      Ok(NoFields.(outputCapacity := Some(f)))
    else if typeCode == C.OutputEnergy then
      var f :- BytesToFloat(data);
      Ok(NoFields.(outputEnergy := Some(f)))
    else if typeCode == C.OutputEnable then
      Ok(NoFields.(outputClosed := Some(data[0] == 1)))
    else if typeCode == C.ProtectionState then
      var index := data[0];
      if index < |C.ProtectionStates| then Ok(NoFields.(protectionState := Some(C.ProtectionStates[index])))
      else Ok(NoFields)
    else if typeCode == C.Mode then
      Ok(NoFields.(mode := Some(if data[0] == 0 then "CC" else "CV")))
    else if typeCode == C.ModelName then
      Ok(NoFields.(modelName := Some(TrimText(data))))
    else if typeCode == C.HardwareVersion then
      Ok(NoFields.(hardwareVersion := Some(TrimText(data))))
    else if typeCode == C.FirmwareVersion then
      Ok(NoFields.(firmwareVersion := Some(TrimText(data))))
    else if typeCode == C.UpperLimitVoltage then
      var f :- BytesToFloat(data);
      Ok(NoFields.(upperLimitVoltage := Some(f)))
    else if typeCode == C.UpperLimitCurrent then
      var f :- BytesToFloat(data);
      Ok(NoFields.(upperLimitCurrent := Some(f)))
    else if typeCode == C.All then
      if |data| >= 139 then Ok(ParseAll(data)) else Ok(NoFields)
    else Ok(NoFields)
  }

  /** _parse_packet_data: no update for an empty payload or an empty dictionary, the protocol error
      of a short float, else the dictionary. */
  function ParsePacketData(typeCode: int, data: seq<byte>): (r: Result<Option<Update>>)
    ensures |data| == 0 ==> r == Ok(None)
    ensures typeCode !in DispatchedTypes ==> r == Ok(None)
    ensures r.Err? <==> typeCode in FloatTypes && 0 < |data| < 4
    ensures r.Err? ==> r.error == ProtocolError(InsufficientFloatData)
    ensures r.Ok? && r.value.Some? ==> !IsEmpty(r.value.value)
  {
    if |data| == 0 then Ok(None)
    else
      var result :- ParseFields(typeCode, data);
      if IsEmpty(result) then Ok(None) else Ok(Some(result))
  }

  /** The word at offset off of the all-state payload. */
  function WordAt(data: seq<byte>, off: nat): Word
    requires off + 4 <= |data|
  {
    data[off..off + 4]
  }

  /** The all-state dictionary (type 255), read at the fixed offsets of a payload of at least
      139 bytes; the length tests inside the dictionary always pass at that length. */
  function ParseAll(data: seq<byte>): (u: Update)
    requires |data| >= 139
    ensures CoversState(u)
    ensures u.modelName.None? && u.hardwareVersion.None? && u.firmwareVersion.None?
  {
    NoFields.(
      inputVoltage := Some(WordAt(data, 0)),
      setVoltage := Some(WordAt(data, 4)),
      setCurrent := Some(WordAt(data, 8)),
      outputVoltage := Some(WordAt(data, 12)),
      outputCurrent := Some(WordAt(data, 16)),
      outputPower := Some(WordAt(data, 20)),
      temperature := Some(WordAt(data, 24)),
      group1SetVoltage := Some(WordAt(data, 28)),
      group1SetCurrent := Some(WordAt(data, 32)),
      group2SetVoltage := Some(WordAt(data, 36)),
      group2SetCurrent := Some(WordAt(data, 40)),
      group3SetVoltage := Some(WordAt(data, 44)),
      group3SetCurrent := Some(WordAt(data, 48)),
      group4SetVoltage := Some(WordAt(data, 52)),
      group4SetCurrent := Some(WordAt(data, 56)),
      group5SetVoltage := Some(WordAt(data, 60)),
      group5SetCurrent := Some(WordAt(data, 64)),
      group6SetVoltage := Some(WordAt(data, 68)),
      group6SetCurrent := Some(WordAt(data, 72)),
      overVoltageProtection := Some(WordAt(data, 76)),
      overCurrentProtection := Some(WordAt(data, 80)),
      overPowerProtection := Some(WordAt(data, 84)),
      overTemperatureProtection := Some(WordAt(data, 88)),
      lowVoltageProtection := Some(WordAt(data, 92)),
      brightness := Some(data[96] as int),
      volume := Some(data[97] as int),
      meteringClosed := Some(data[98] == 0),
      outputCapacity := Some(WordAt(data, 99)),
      outputEnergy := Some(WordAt(data, 103)),
      outputClosed := Some(data[107] == 1),
      protectionState := Some(if data[108] < |C.ProtectionStates| then C.ProtectionStates[data[108]] else ""),
      mode := Some(if data[109] == 0 then "CC" else "CV"),
      upperLimitVoltage := Some(WordAt(data, 111)),
      upperLimitCurrent := Some(WordAt(data, 115)))
  }

  // ---------------------------------------------------------------- what each type code sets

  /** A float type takes the word in bytes 0-3 into its one field. */
  lemma InputVoltagePayload(data: seq<byte>)
    requires |data| >= 4
    ensures ParsePacketData(C.InputVoltage, data) == Ok(Some(NoFields.(inputVoltage := Some(data[..4]))))
  {
  }

  lemma TemperaturePayload(data: seq<byte>)
    requires |data| >= 4
    ensures ParsePacketData(C.Temperature, data) == Ok(Some(NoFields.(temperature := Some(data[..4]))))
  {
  }

  lemma OutputCapacityPayload(data: seq<byte>)
    requires |data| >= 4
    ensures ParsePacketData(C.OutputCapacity, data) == Ok(Some(NoFields.(outputCapacity := Some(data[..4]))))
  {
  }

  lemma OutputEnergyPayload(data: seq<byte>)
    requires |data| >= 4
    ensures ParsePacketData(C.OutputEnergy, data) == Ok(Some(NoFields.(outputEnergy := Some(data[..4]))))
  {
  }

  lemma UpperLimitVoltagePayload(data: seq<byte>)
    requires |data| >= 4
    ensures ParsePacketData(C.UpperLimitVoltage, data) == Ok(Some(NoFields.(upperLimitVoltage := Some(data[..4]))))
  {
  }

  lemma UpperLimitCurrentPayload(data: seq<byte>)
    requires |data| >= 4
    ensures ParsePacketData(C.UpperLimitCurrent, data) == Ok(Some(NoFields.(upperLimitCurrent := Some(data[..4]))))
  {
  }

  /** Type 195 carries output voltage, current and power in bytes 0-3, 4-7 and 8-11, and is
      ignored when shorter than 12 bytes. */
  lemma OutputTriplePayload(data: seq<byte>)
    ensures |data| >= 12 ==>
              ParsePacketData(C.OutputVoltageCurrentPower, data) ==
              Ok(Some(NoFields.(outputVoltage := Some(data[0..4]), outputCurrent := Some(data[4..8]),
                                outputPower := Some(data[8..12]))))
    ensures |data| < 12 ==> ParsePacketData(C.OutputVoltageCurrentPower, data) == Ok(None)
  {
  }

  /** Output enable (219) is on for exactly the byte 1. */
  lemma OutputEnablePayload(data: seq<byte>)
    requires |data| > 0
    ensures ParsePacketData(C.OutputEnable, data) == Ok(Some(NoFields.(outputClosed := Some(data[0] == 1))))
  {
  }

  /** Mode (221) is "CC" for exactly the byte 0, "CV" for any other. */
  lemma ModePayload(data: seq<byte>)
    requires |data| > 0
    ensures ParsePacketData(C.Mode, data) == Ok(Some(NoFields.(mode := Some(if data[0] == 0 then "CC" else "CV"))))
  {
  }

  /** A protection index (220) names an entry of the protection table; an index out of range
      sets nothing at all. */
  lemma ProtectionPayload(data: seq<byte>)
    requires |data| > 0
    ensures data[0] < 7 ==>
              ParsePacketData(C.ProtectionState, data) ==
              Ok(Some(NoFields.(protectionState := Some(C.ProtectionStates[data[0]]))))
    ensures data[0] >= 7 ==> ParsePacketData(C.ProtectionState, data) == Ok(None)
  {
  }

  /** The text types set their one info key to the trimmed text, even when it is empty. */
  lemma ModelNamePayload(data: seq<byte>)
    requires |data| > 0
    ensures ParsePacketData(C.ModelName, data) == Ok(Some(NoFields.(modelName := Some(TrimText(data)))))
  {
    var u := NoFields.(modelName := Some(TrimText(data)));
    assert ParseFields(C.ModelName, data) == Ok(u);
    assert u.modelName != NoFields.modelName;
  }

  lemma HardwareVersionPayload(data: seq<byte>)
    requires |data| > 0
    ensures ParsePacketData(C.HardwareVersion, data) == Ok(Some(NoFields.(hardwareVersion := Some(TrimText(data)))))
  {
    var u := NoFields.(hardwareVersion := Some(TrimText(data)));
    assert ParseFields(C.HardwareVersion, data) == Ok(u);
    assert u.hardwareVersion != NoFields.hardwareVersion;
  }

  lemma FirmwareVersionPayload(data: seq<byte>)
    requires |data| > 0
    ensures ParsePacketData(C.FirmwareVersion, data) == Ok(Some(NoFields.(firmwareVersion := Some(TrimText(data)))))
  {
    var u := NoFields.(firmwareVersion := Some(TrimText(data)));
    assert ParseFields(C.FirmwareVersion, data) == Ok(u);
    assert u.firmwareVersion != NoFields.firmwareVersion;
  }

  /** An all-state payload shorter than 139 bytes sets nothing; a long enough one sets every
      DeviceState key and no info key. */
  lemma AllStatePayloadLength(data: seq<byte>)
    ensures |data| < 139 ==> ParsePacketData(C.All, data) == Ok(None)
    ensures |data| >= 139 ==> ParsePacketData(C.All, data) == Ok(Some(ParseAll(data)))
  {
    if |data| >= 139 {
      var u := ParseAll(data);
      assert u.inputVoltage.Some?;
      assert !IsEmpty(u);
    }
  }

  /** The state a protection packet with index k leaves is the k-th member, through the protection
      table and from_string; the other fields are kept. */
  lemma ProtectionPacketSetsMember(s: StateValues, k: byte, rest: seq<byte>)
    requires k < 7
    ensures ParsePacketData(C.ProtectionState, [k] + rest).Ok?
    ensures var r := ParsePacketData(C.ProtectionState, [k] + rest);
      r.value.Some? && Merge(s, r.value.value) == s.(protectionState := Members[k])
  {
    ProtectionPayload([k] + rest);
    ProtectionNamesAreMemberValues();
    FromStringOfValue(Members[k]);
  }

  /** The mode a mode packet leaves: CC exactly when its byte is 0. */
  lemma ModePacketSetsMode(s: StateValues, data: seq<byte>)
    requires |data| > 0
    ensures ParsePacketData(C.Mode, data).Ok?
    ensures var r := ParsePacketData(C.Mode, data);
      r.value.Some? && Merge(s, r.value.value) == s.(mode := if data[0] == 0 then CC else CV)
  {
    ModePayload(data);
  }

  // ---------------------------------------------------------------- the all-state layout

  /** Words laid end to end. */
  function Words(ws: seq<Word>): (b: seq<byte>)
    ensures |b| == 4 * |ws|
  {
    if ws == [] then [] else ws[0] + Words(ws[1..])
  }

  /** The k-th word of a run of words sits at offset 4k. */
  lemma {:induction false} WordsSlice(ws: seq<Word>, k: nat)
    requires k < |ws|
    ensures Words(ws)[4 * k..4 * k + 4] == ws[k]
  {
    if k > 0 {
      WordsSlice(ws[1..], k - 1);
      assert Words(ws)[4 * k..4 * k + 4] == Words(ws[1..])[4 * (k - 1)..4 * (k - 1) + 4];
    }
  }

  /** The 24 floats of bytes 0-95, in payload order. */
  function LeadingFloats(s: StateValues): seq<Word> {
    [s.inputVoltage, s.setVoltage, s.setCurrent, s.outputVoltage, s.outputCurrent, s.outputPower,
     s.temperature, s.group1SetVoltage, s.group1SetCurrent, s.group2SetVoltage, s.group2SetCurrent,
     s.group3SetVoltage, s.group3SetCurrent, s.group4SetVoltage, s.group4SetCurrent,
     s.group5SetVoltage, s.group5SetCurrent, s.group6SetVoltage, s.group6SetCurrent,
     s.overVoltageProtection, s.overCurrentProtection, s.overPowerProtection,
     s.overTemperatureProtection, s.lowVoltageProtection]
  }

  /** The index of a member in the protection table. */
  function ProtectionIndex(p: ProtectionState): (k: byte)
    ensures k < 7 && C.ProtectionStates[k] == p.Value()
  {
    match p
    case Normal => 0
    case Ovp => 1
    case Ocp => 2
    case Opp => 3
    case Otp => 4
    case Lvp => 5
    case Rep => 6
  }

  /** The 119 bytes of state in the all-state payload, in the layout the decoder reads. */
  function StateBytes(s: StateValues): (p: seq<byte>)
    requires 0 <= s.brightness < 256 && 0 <= s.volume < 256
    ensures |p| == 119
  {
    Words(LeadingFloats(s))
    + [s.brightness, s.volume, if s.meteringClosed then 0 else 1]
    + s.outputCapacity + s.outputEnergy
    + [if s.outputClosed then 1 else 0, ProtectionIndex(s.protectionState), if s.mode == CC then 0 else 1, 0]
    + s.upperLimitVoltage + s.upperLimitCurrent
  }

  /** A slice inside the first part of a concatenation. */
  lemma SliceOfPrefix(a: seq<byte>, b: seq<byte>, i: nat, j: nat)
    requires i <= j <= |a|
    ensures (a + b)[i..j] == a[i..j]
  {
  }

  /** The decoder reads every float of the payload back from its offset. */
  lemma AllStateFloats(s: StateValues, tail: seq<byte>)
    requires 0 <= s.brightness < 256 && 0 <= s.volume < 256 && |tail| >= 20
    ensures var u := ParseAll(StateBytes(s) + tail);
      && u.inputVoltage == Some(s.inputVoltage) && u.setVoltage == Some(s.setVoltage)
      && u.setCurrent == Some(s.setCurrent) && u.outputVoltage == Some(s.outputVoltage)
      && u.outputCurrent == Some(s.outputCurrent) && u.outputPower == Some(s.outputPower)
      && u.temperature == Some(s.temperature)
      && u.group1SetVoltage == Some(s.group1SetVoltage) && u.group1SetCurrent == Some(s.group1SetCurrent)
      && u.group2SetVoltage == Some(s.group2SetVoltage) && u.group2SetCurrent == Some(s.group2SetCurrent)
      && u.group3SetVoltage == Some(s.group3SetVoltage) && u.group3SetCurrent == Some(s.group3SetCurrent)
      && u.group4SetVoltage == Some(s.group4SetVoltage) && u.group4SetCurrent == Some(s.group4SetCurrent)
      && u.group5SetVoltage == Some(s.group5SetVoltage) && u.group5SetCurrent == Some(s.group5SetCurrent)
      && u.group6SetVoltage == Some(s.group6SetVoltage) && u.group6SetCurrent == Some(s.group6SetCurrent)
      && u.overVoltageProtection == Some(s.overVoltageProtection)
      && u.overCurrentProtection == Some(s.overCurrentProtection)
      && u.overPowerProtection == Some(s.overPowerProtection)
      && u.overTemperatureProtection == Some(s.overTemperatureProtection)
      && u.lowVoltageProtection == Some(s.lowVoltageProtection)
  {
    var ws := LeadingFloats(s);
    var w := Words(ws);
    var p := StateBytes(s) + tail;
    assert p == w + (p[96..]);
    forall k | 0 <= k < 24
      ensures WordAt(p, 4 * k) == ws[k]
    {
      SliceOfPrefix(w, p[96..], 4 * k, 4 * k + 4);
      WordsSlice(ws, k);
    }
    assert WordAt(p, 0) == ws[0];
    assert WordAt(p, 4) == ws[1];
    assert WordAt(p, 8) == ws[2];
    assert WordAt(p, 12) == ws[3];
    assert WordAt(p, 16) == ws[4];
    assert WordAt(p, 20) == ws[5];
    assert WordAt(p, 24) == ws[6];
    assert WordAt(p, 28) == ws[7];
    assert WordAt(p, 32) == ws[8];
    assert WordAt(p, 36) == ws[9];
    assert WordAt(p, 40) == ws[10];
    assert WordAt(p, 44) == ws[11];
    assert WordAt(p, 48) == ws[12];
    assert WordAt(p, 52) == ws[13];
    assert WordAt(p, 56) == ws[14];
    assert WordAt(p, 60) == ws[15];
    assert WordAt(p, 64) == ws[16];
    assert WordAt(p, 68) == ws[17];
    assert WordAt(p, 72) == ws[18];
    assert WordAt(p, 76) == ws[19];
    assert WordAt(p, 80) == ws[20];
    assert WordAt(p, 84) == ws[21];
    assert WordAt(p, 88) == ws[22];
    assert WordAt(p, 92) == ws[23];
  }

  /** The decoder reads the settings and status bytes back. */
  lemma AllStateBytes(s: StateValues, tail: seq<byte>)
    requires 0 <= s.brightness < 256 && 0 <= s.volume < 256 && |tail| >= 20
    ensures var u := ParseAll(StateBytes(s) + tail);
      && u.brightness == Some(s.brightness) && u.volume == Some(s.volume)
      && u.meteringClosed == Some(s.meteringClosed)
      && u.outputClosed == Some(s.outputClosed)
      && u.protectionState == Some(s.protectionState.Value())
      && u.mode == Some(if s.mode == CC then "CC" else "CV")
  {
    var p := StateBytes(s) + tail;
    assert p[96] == s.brightness && p[97] == s.volume;
    assert p[98] == (if s.meteringClosed then 0 else 1);
    assert p[107] == (if s.outputClosed then 1 else 0);
    assert p[108] == ProtectionIndex(s.protectionState);
    assert p[109] == (if s.mode == CC then 0 else 1);
  }

  /** The decoder reads the counters and the limits back. */
  lemma AllStateTrailingFloats(s: StateValues, tail: seq<byte>)
    requires 0 <= s.brightness < 256 && 0 <= s.volume < 256 && |tail| >= 20
    ensures var u := ParseAll(StateBytes(s) + tail);
      && u.outputCapacity == Some(s.outputCapacity) && u.outputEnergy == Some(s.outputEnergy)
      && u.upperLimitVoltage == Some(s.upperLimitVoltage) && u.upperLimitCurrent == Some(s.upperLimitCurrent)
  {
    var p := StateBytes(s) + tail;
    assert forall i :: 0 <= i < 4 ==> p[99 + i] == s.outputCapacity[i];
    assert WordAt(p, 99) == s.outputCapacity;
    assert forall i :: 0 <= i < 4 ==> p[103 + i] == s.outputEnergy[i];
    assert WordAt(p, 103) == s.outputEnergy;
    assert forall i :: 0 <= i < 4 ==> p[111 + i] == s.upperLimitVoltage[i];
    assert WordAt(p, 111) == s.upperLimitVoltage;
    assert forall i :: 0 <= i < 4 ==> p[115 + i] == s.upperLimitCurrent[i];
    assert WordAt(p, 115) == s.upperLimitCurrent;
  }

  /** Round trip of the all-state packet: a payload laid out from a state (followed by at least
      20 more bytes of any value) decodes to an update that sets every field to that state's value, whatever the state
      before. */
  lemma AllStateRoundTrip(s: StateValues, before: StateValues, tail: seq<byte>)
    requires 0 <= s.brightness < 256 && 0 <= s.volume < 256 && |tail| >= 20
    ensures var r := ParsePacketData(C.All, StateBytes(s) + tail);
      r.Ok? && r.value.Some? && CoversState(r.value.value) && Merge(before, r.value.value) == s
  {
    var p := StateBytes(s) + tail;
    AllStatePayloadLength(p);
    AllStateFloats(s, tail);
    AllStateBytes(s, tail);
    AllStateTrailingFloats(s, tail);
    FromStringOfValue(s.protectionState);
  }

  /** Byte 110 of the all-state payload is read by no field: changing it changes nothing. */
  lemma AllStateIgnoresByte110(data: seq<byte>, b: byte)
    requires |data| >= 139
    ensures ParseAll(data[110 := b]) == ParseAll(data)
  {
    var d := data[110 := b];
    assert forall off :: 0 <= off && off + 4 <= 110 ==> WordAt(d, off) == WordAt(data, off);
    assert forall off :: 111 <= off && off + 4 <= |data| ==> WordAt(d, off) == WordAt(data, off);
  }

  /** A protection byte of 7 or more in the all-state payload falls outside the table and leaves
      the empty name, which the merge turns into Normal. */
  lemma AllStateProtectionOutOfRange(s: StateValues, data: seq<byte>)
    requires |data| >= 139 && data[108] >= 7
    ensures ParseAll(data).protectionState == Some("")
    ensures Merge(s, ParseAll(data)).protectionState == Normal
  {
    FromStringOfValue(Normal);
  }
}
