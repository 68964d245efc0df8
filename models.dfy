/** Device-side records of dps150/models.py: protection states, output mode, device info and the
    device-state snapshot with its key-by-key update (update_from_dict). */
module Models {
  import opened Base
  import C = Constants

  /** ProtectionState: each member's value is the name the device uses for it. */
  datatype ProtectionState = Normal | Ovp | Ocp | Opp | Otp | Lvp | Rep {
    function Value(): string {
      match this
      case Normal => ""
      case Ovp => "OVP"
      case Ocp => "OCP"
      case Opp => "OPP"
      case Otp => "OTP"
      case Lvp => "LVP"
      case Rep => "REP"
    }
  }

  /** The members in declaration order, the order in which the enumeration is iterated. */
  const Members: seq<ProtectionState> := [Normal, Ovp, Ocp, Opp, Otp, Lvp, Rep]

  /** The first member of members whose value is value, or Normal when none matches. */
  function FirstMatch(members: seq<ProtectionState>, value: string): (r: ProtectionState)
    ensures (exists k :: 0 <= k < |members| && members[k].Value() == value) ==> r.Value() == value
    ensures (forall k :: 0 <= k < |members| ==> members[k].Value() != value) ==> r == Normal
  {
    if members == [] then Normal
    else if members[0].Value() == value then members[0]
    else FirstMatch(members[1..], value)
  }

  /** ProtectionState.from_string: the member with this value, Normal for any other string. */
  function FromString(value: string): (r: ProtectionState)
    ensures r.Value() == value || (r == Normal && forall p: ProtectionState :: p.Value() != value)
  {
    var r := FirstMatch(Members, value);
    assert r.Value() != value ==> forall p: ProtectionState :: p.Value() != value by {
      forall p: ProtectionState | p.Value() == value ensures r.Value() == value {
        IsMember(p);
      }
    }
    r
  }

  /** Every member appears in the member list. */
  lemma IsMember(p: ProtectionState)
    ensures exists k :: 0 <= k < |Members| && Members[k] == p
  {
    match p
    case Normal => assert Members[0] == p;
    case Ovp => assert Members[1] == p;
    case Ocp => assert Members[2] == p;
    case Opp => assert Members[3] == p;
    case Otp => assert Members[4] == p;
    case Lvp => assert Members[5] == p;
    case Rep => assert Members[6] == p;
  }

  /** from_string inverts Value: every member is found from its own value. */
  lemma FromStringOfValue(p: ProtectionState)
    ensures FromString(p.Value()) == p
  {
    var r := FromString(p.Value());
    assert r.Value() == p.Value();
    match p
    case Normal =>
    case Ovp =>
    case Ocp =>
    case Opp =>
    case Otp =>
    case Lvp =>
    case Rep =>
  }

  /** The protection-name table of the protocol lists exactly the members' values, in order. */
  lemma ProtectionNamesAreMemberValues()
    ensures |C.ProtectionStates| == |Members| == 7 && C.ProtectionStates[0] == ""
    ensures forall k :: 0 <= k < 7 ==> C.ProtectionStates[k] == Members[k].Value()
  {
  }

  /** Output mode: constant current or constant voltage. */
  datatype Mode = CC | CV {
    function Value(): string {
      match this
      case CC => "CC"
      case CV => "CV"
    }
  }

  /** The mode a "mode" entry sets: CC for exactly "CC", CV for anything else. */
  function ModeFromString(value: string): (m: Mode)
    ensures m == CC <==> value == "CC"
  {
    if value == "CC" then CC else CV
  }

  /** The values of DeviceInfo. */
  datatype InfoValues = InfoValues(modelName: string, hardwareVersion: string, firmwareVersion: string)

  const EmptyInfo := InfoValues("", "", "")

  /** The values of DeviceState, one per field; floats as their 4-byte words. */
  datatype StateValues = StateValues(
    inputVoltage: Word,
    outputVoltage: Word,
    outputCurrent: Word,
    outputPower: Word,
    temperature: Word,
    setVoltage: Word,
    setCurrent: Word,
    group1SetVoltage: Word,
    group1SetCurrent: Word,
    group2SetVoltage: Word,
    group2SetCurrent: Word,
    group3SetVoltage: Word,
    group3SetCurrent: Word,
    group4SetVoltage: Word,
    group4SetCurrent: Word,
    group5SetVoltage: Word,
    group5SetCurrent: Word,
    group6SetVoltage: Word,
    group6SetCurrent: Word,
    overVoltageProtection: Word,
    overCurrentProtection: Word,
    overPowerProtection: Word,
    overTemperatureProtection: Word,
    lowVoltageProtection: Word,
    brightness: int,
    volume: int,
    meteringClosed: bool,
    outputCapacity: Word,
    outputEnergy: Word,
    outputClosed: bool,
    protectionState: ProtectionState,
    mode: Mode,
    upperLimitVoltage: Word,
    upperLimitCurrent: Word)

  /** A fresh DeviceState: every number 0, both flags false, protection Normal, mode CV. */
  const Defaults := StateValues(
    inputVoltage := ZeroWord,
    outputVoltage := ZeroWord,
    outputCurrent := ZeroWord,
    outputPower := ZeroWord,
    temperature := ZeroWord,
    setVoltage := ZeroWord,
    setCurrent := ZeroWord,
    group1SetVoltage := ZeroWord,
    group1SetCurrent := ZeroWord,
    group2SetVoltage := ZeroWord,
    group2SetCurrent := ZeroWord,
    group3SetVoltage := ZeroWord,
    group3SetCurrent := ZeroWord,
    group4SetVoltage := ZeroWord,
    group4SetCurrent := ZeroWord,
    group5SetVoltage := ZeroWord,
    group5SetCurrent := ZeroWord,
    group6SetVoltage := ZeroWord,
    group6SetCurrent := ZeroWord,
    overVoltageProtection := ZeroWord,
    overCurrentProtection := ZeroWord,
    overPowerProtection := ZeroWord,
    overTemperatureProtection := ZeroWord,
    lowVoltageProtection := ZeroWord,
    brightness := 0,
    volume := 0,
    meteringClosed := false,
    outputCapacity := ZeroWord,
    outputEnergy := ZeroWord,
    outputClosed := false,
    protectionState := Normal,
    mode := CV,
    upperLimitVoltage := ZeroWord,
    upperLimitCurrent := ZeroWord)

  /** The field-update set a packet produces (the parsed dictionary): a field is present iff its
      key is in the dictionary. Protection state and mode travel as strings, as in the dictionary. */
  datatype Update = Update(
    inputVoltage: Option<Word>,
    outputVoltage: Option<Word>,
    outputCurrent: Option<Word>,
    outputPower: Option<Word>,
    temperature: Option<Word>,
    setVoltage: Option<Word>,
    setCurrent: Option<Word>,
    group1SetVoltage: Option<Word>,
    group1SetCurrent: Option<Word>,
    group2SetVoltage: Option<Word>,
    group2SetCurrent: Option<Word>,
    group3SetVoltage: Option<Word>,
    group3SetCurrent: Option<Word>,
    group4SetVoltage: Option<Word>,
    group4SetCurrent: Option<Word>,
    group5SetVoltage: Option<Word>,
    group5SetCurrent: Option<Word>,
    group6SetVoltage: Option<Word>,
    group6SetCurrent: Option<Word>,
    overVoltageProtection: Option<Word>,
    overCurrentProtection: Option<Word>,
    overPowerProtection: Option<Word>,
    overTemperatureProtection: Option<Word>,
    lowVoltageProtection: Option<Word>,
    brightness: Option<int>,
    volume: Option<int>,
    meteringClosed: Option<bool>,
    outputCapacity: Option<Word>,
    outputEnergy: Option<Word>,
    outputClosed: Option<bool>,
    protectionState: Option<string>,
    mode: Option<string>,
    upperLimitVoltage: Option<Word>,
    upperLimitCurrent: Option<Word>,
    modelName: Option<string>,
    hardwareVersion: Option<string>,
    firmwareVersion: Option<string>)

  /** The dictionary without keys. */
  const NoFields := Update(
    inputVoltage := None,
    outputVoltage := None,
    outputCurrent := None,
    outputPower := None,
    temperature := None,
    setVoltage := None,
    setCurrent := None,
    group1SetVoltage := None,
    group1SetCurrent := None,
    group2SetVoltage := None,
    group2SetCurrent := None,
    group3SetVoltage := None,
    group3SetCurrent := None,
    group4SetVoltage := None,
    group4SetCurrent := None,
    group5SetVoltage := None,
    group5SetCurrent := None,
    group6SetVoltage := None,
    group6SetCurrent := None,
    overVoltageProtection := None,
    overCurrentProtection := None,
    overPowerProtection := None,
    overTemperatureProtection := None,
    lowVoltageProtection := None,
    brightness := None,
    volume := None,
    meteringClosed := None,
    outputCapacity := None,
    outputEnergy := None,
    outputClosed := None,
    protectionState := None,
    mode := None,
    upperLimitVoltage := None,
    upperLimitCurrent := None,
    modelName := None,
    hardwareVersion := None,
    firmwareVersion := None)

  /** True when the update carries no key at all (an empty dictionary). */
  predicate IsEmpty(u: Update) {
    u == NoFields
  }

  /** True when the update carries every DeviceState key, as an all-state packet does. */
  predicate CoversState(u: Update) {
    && u.inputVoltage.Some?
    && u.outputVoltage.Some?
    && u.outputCurrent.Some?
    && u.outputPower.Some?
    && u.temperature.Some?
    && u.setVoltage.Some?
    && u.setCurrent.Some?
    && u.group1SetVoltage.Some?
    && u.group1SetCurrent.Some?
    && u.group2SetVoltage.Some?
    && u.group2SetCurrent.Some?
    && u.group3SetVoltage.Some?
    && u.group3SetCurrent.Some?
    && u.group4SetVoltage.Some?
    && u.group4SetCurrent.Some?
    && u.group5SetVoltage.Some?
    && u.group5SetCurrent.Some?
    && u.group6SetVoltage.Some?
    && u.group6SetCurrent.Some?
    && u.overVoltageProtection.Some?
    && u.overCurrentProtection.Some?
    && u.overPowerProtection.Some?
    && u.overTemperatureProtection.Some?
    && u.lowVoltageProtection.Some?
    && u.brightness.Some?
    && u.volume.Some?
    && u.meteringClosed.Some?
    && u.outputCapacity.Some?
    && u.outputEnergy.Some?
    && u.outputClosed.Some?
    && u.protectionState.Some?
    && u.mode.Some?
    && u.upperLimitVoltage.Some?
    && u.upperLimitCurrent.Some?
  }

  /** update_from_dict on values: a present key replaces its field, an absent key leaves it;
      protection goes through from_string and mode through the "CC" test. The info keys are not
      DeviceState fields and are ignored. */
  function Merge(s: StateValues, u: Update): StateValues {
    StateValues(
      inputVoltage := u.inputVoltage.GetOr(s.inputVoltage),
      outputVoltage := u.outputVoltage.GetOr(s.outputVoltage),
      outputCurrent := u.outputCurrent.GetOr(s.outputCurrent),
      outputPower := u.outputPower.GetOr(s.outputPower),
      temperature := u.temperature.GetOr(s.temperature),
      setVoltage := u.setVoltage.GetOr(s.setVoltage),
      setCurrent := u.setCurrent.GetOr(s.setCurrent),
      group1SetVoltage := u.group1SetVoltage.GetOr(s.group1SetVoltage),
      group1SetCurrent := u.group1SetCurrent.GetOr(s.group1SetCurrent),
      group2SetVoltage := u.group2SetVoltage.GetOr(s.group2SetVoltage),
      group2SetCurrent := u.group2SetCurrent.GetOr(s.group2SetCurrent),
      group3SetVoltage := u.group3SetVoltage.GetOr(s.group3SetVoltage),
      group3SetCurrent := u.group3SetCurrent.GetOr(s.group3SetCurrent),
      group4SetVoltage := u.group4SetVoltage.GetOr(s.group4SetVoltage),
      group4SetCurrent := u.group4SetCurrent.GetOr(s.group4SetCurrent),
      group5SetVoltage := u.group5SetVoltage.GetOr(s.group5SetVoltage),
      group5SetCurrent := u.group5SetCurrent.GetOr(s.group5SetCurrent),
      group6SetVoltage := u.group6SetVoltage.GetOr(s.group6SetVoltage),
      group6SetCurrent := u.group6SetCurrent.GetOr(s.group6SetCurrent),
      overVoltageProtection := u.overVoltageProtection.GetOr(s.overVoltageProtection),
      overCurrentProtection := u.overCurrentProtection.GetOr(s.overCurrentProtection),
      overPowerProtection := u.overPowerProtection.GetOr(s.overPowerProtection),
      overTemperatureProtection := u.overTemperatureProtection.GetOr(s.overTemperatureProtection),
      lowVoltageProtection := u.lowVoltageProtection.GetOr(s.lowVoltageProtection),
      brightness := u.brightness.GetOr(s.brightness),
      volume := u.volume.GetOr(s.volume),
      meteringClosed := u.meteringClosed.GetOr(s.meteringClosed),
      outputCapacity := u.outputCapacity.GetOr(s.outputCapacity),
      outputEnergy := u.outputEnergy.GetOr(s.outputEnergy),
      outputClosed := u.outputClosed.GetOr(s.outputClosed),
      protectionState := if u.protectionState.Some? then FromString(u.protectionState.value) else s.protectionState,
      mode := if u.mode.Some? then ModeFromString(u.mode.value) else s.mode,
      upperLimitVoltage := u.upperLimitVoltage.GetOr(s.upperLimitVoltage),
      upperLimitCurrent := u.upperLimitCurrent.GetOr(s.upperLimitCurrent))
  }

  /** The three info assignments of the packet handler: each string is set only if its key is present. */
  function MergeInfo(info: InfoValues, u: Update): InfoValues {
    InfoValues(
      u.modelName.GetOr(info.modelName),
      u.hardwareVersion.GetOr(info.hardwareVersion),
      u.firmwareVersion.GetOr(info.firmwareVersion))
  }

  /** DeviceInfo: three strings, empty until the device reports them. */
  class DeviceInfo {
    var modelName: string
    var hardwareVersion: string
    var firmwareVersion: string

    constructor ()
      ensures Values() == EmptyInfo
    {
      modelName, hardwareVersion, firmwareVersion := "", "", "";
    }

    function Values(): InfoValues
      reads this
    {
      InfoValues(modelName, hardwareVersion, firmwareVersion)
    }
  }

  /** DeviceState: the snapshot of every device field, updated in place. */
  class DeviceState {
    /** The dataclass's 34 attributes, held as one record. */
    var values: StateValues

    /** A fresh snapshot holds the dataclass defaults. */
    constructor ()
      ensures values == Defaults
    {
      values := Defaults;
    }

    /** update_from_dict: takes the keys in the order of the source; a present key replaces its
        field (protection through from_string, mode through the "CC" test), an absent one keeps it. */
    method UpdateFromDict(data: Update)
      modifies this
      ensures values == Merge(old(values), data)
    {
      var v := values;
      v := v.(inputVoltage := data.inputVoltage.GetOr(v.inputVoltage));
      v := v.(outputVoltage := data.outputVoltage.GetOr(v.outputVoltage));
      v := v.(outputCurrent := data.outputCurrent.GetOr(v.outputCurrent));
      v := v.(outputPower := data.outputPower.GetOr(v.outputPower));
      v := v.(temperature := data.temperature.GetOr(v.temperature));
      v := v.(setVoltage := data.setVoltage.GetOr(v.setVoltage));
      v := v.(setCurrent := data.setCurrent.GetOr(v.setCurrent));
      v := v.(group1SetVoltage := data.group1SetVoltage.GetOr(v.group1SetVoltage));
      v := v.(group1SetCurrent := data.group1SetCurrent.GetOr(v.group1SetCurrent));
      v := v.(group2SetVoltage := data.group2SetVoltage.GetOr(v.group2SetVoltage));
      v := v.(group2SetCurrent := data.group2SetCurrent.GetOr(v.group2SetCurrent));
      v := v.(group3SetVoltage := data.group3SetVoltage.GetOr(v.group3SetVoltage));
      v := v.(group3SetCurrent := data.group3SetCurrent.GetOr(v.group3SetCurrent));
      v := v.(group4SetVoltage := data.group4SetVoltage.GetOr(v.group4SetVoltage));
      v := v.(group4SetCurrent := data.group4SetCurrent.GetOr(v.group4SetCurrent));
      v := v.(group5SetVoltage := data.group5SetVoltage.GetOr(v.group5SetVoltage));
      v := v.(group5SetCurrent := data.group5SetCurrent.GetOr(v.group5SetCurrent));
      v := v.(group6SetVoltage := data.group6SetVoltage.GetOr(v.group6SetVoltage));
      v := v.(group6SetCurrent := data.group6SetCurrent.GetOr(v.group6SetCurrent));
      v := v.(overVoltageProtection := data.overVoltageProtection.GetOr(v.overVoltageProtection));
      v := v.(overCurrentProtection := data.overCurrentProtection.GetOr(v.overCurrentProtection));
      v := v.(overPowerProtection := data.overPowerProtection.GetOr(v.overPowerProtection));
      v := v.(overTemperatureProtection := data.overTemperatureProtection.GetOr(v.overTemperatureProtection));
      v := v.(lowVoltageProtection := data.lowVoltageProtection.GetOr(v.lowVoltageProtection));
      v := v.(brightness := data.brightness.GetOr(v.brightness));
      v := v.(volume := data.volume.GetOr(v.volume));
      v := v.(meteringClosed := data.meteringClosed.GetOr(v.meteringClosed));
      v := v.(outputCapacity := data.outputCapacity.GetOr(v.outputCapacity));
      v := v.(outputEnergy := data.outputEnergy.GetOr(v.outputEnergy));
      v := v.(outputClosed := data.outputClosed.GetOr(v.outputClosed));
      if data.protectionState.Some? { v := v.(protectionState := FromString(data.protectionState.value)); }
      if data.mode.Some? { v := v.(mode := ModeFromString(data.mode.value)); }
      v := v.(upperLimitVoltage := data.upperLimitVoltage.GetOr(v.upperLimitVoltage));
      v := v.(upperLimitCurrent := data.upperLimitCurrent.GetOr(v.upperLimitCurrent));
      values := v;
    }
  }

  /** Applying the same update twice leaves the state it leaves after once. */
  lemma MergeIdempotent(s: StateValues, info: InfoValues, u: Update)
    ensures Merge(Merge(s, u), u) == Merge(s, u)
    ensures MergeInfo(MergeInfo(info, u), u) == MergeInfo(info, u)
  {
  }

  /** An update without keys changes nothing. */
  lemma MergeWithoutFields(s: StateValues, info: InfoValues)
    ensures Merge(s, NoFields) == s && MergeInfo(info, NoFields) == info
  {
  }

  /** An update that carries every DeviceState key determines the whole new state: what the
      state held before does not matter. */
  lemma FullUpdateIgnoresOldState(s1: StateValues, s2: StateValues, u: Update)
    requires CoversState(u)
    ensures Merge(s1, u) == Merge(s2, u)
  {
  }
}
