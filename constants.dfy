/** Protocol constants of dps150/constants.py. */
module Constants {
  import opened Base

  // Packet headers
  const HeaderInput: byte := 0xF0   // frames from the device
  const HeaderOutput: byte := 0xF1  // frames to the device

  // Command codes
  const CmdGet: byte := 0xA1
  const CmdXxx176: byte := 0xB0     // used for the baud-rate setting
  const CmdSet: byte := 0xB1
  const CmdXxx192: byte := 0xC0
  const CmdXxx193: byte := 0xC1     // connection announcement

  // Set points (float)
  const VoltageSet: byte := 193
  const CurrentSet: byte := 194

  // Preset groups (float)
  const Group1VoltageSet: byte := 197
  const Group1CurrentSet: byte := 198
  const Group2VoltageSet: byte := 199
  const Group2CurrentSet: byte := 200
  const Group3VoltageSet: byte := 201
  const Group3CurrentSet: byte := 202
  const Group4VoltageSet: byte := 203
  const Group4CurrentSet: byte := 204
  const Group5VoltageSet: byte := 205
  const Group5CurrentSet: byte := 206
  const Group6VoltageSet: byte := 207
  const Group6CurrentSet: byte := 208

  // Protection thresholds (float)
  const Ovp: byte := 209
  const Ocp: byte := 210
  const Opp: byte := 211
  const Otp: byte := 212
  const Lvp: byte := 213

  // Single-byte settings and controls
  const Brightness: byte := 214
  const Volume: byte := 215
  const MeteringEnable: byte := 216
  const OutputEnable: byte := 219

  // Readings
  const InputVoltage: byte := 192
  const OutputVoltageCurrentPower: byte := 195
  const Temperature: byte := 196
  const OutputCapacity: byte := 217
  const OutputEnergy: byte := 218
  const ProtectionState: byte := 220
  const Mode: byte := 221
  const ModelName: byte := 222
  const HardwareVersion: byte := 223
  const FirmwareVersion: byte := 224
  const UpperLimitVoltage: byte := 226
  const UpperLimitCurrent: byte := 227

  /** The composite "all state" type code. */
  const All: byte := 255

  /** Protection-state names, indexed by the byte the device reports. */
  const ProtectionStates: seq<string> := ["", "OVP", "OCP", "OPP", "OTP", "LVP", "REP"]

  const BaudRate := 115200
  const BaudRateOptions: seq<int> := [9600, 19200, 38400, 57600, 115200]

  /** The two directions are told apart by the header byte alone. */
  lemma HeadersDiffer()
    ensures HeaderInput != HeaderOutput
  {
  }

  /** Group n's voltage and current codes sit at 197 + 2(n-1) and 198 + 2(n-1). */
  lemma GroupCodesAreArithmetic()
    ensures Group1VoltageSet == 197 && Group1CurrentSet == 198
    ensures Group2VoltageSet == 197 + 2 && Group2CurrentSet == 198 + 2
    ensures Group3VoltageSet == 197 + 4 && Group3CurrentSet == 198 + 4
    ensures Group4VoltageSet == 197 + 6 && Group4CurrentSet == 198 + 6
    ensures Group5VoltageSet == 197 + 8 && Group5CurrentSet == 198 + 8
    ensures Group6VoltageSet == 197 + 10 && Group6CurrentSet == 198 + 10
  {
  }
}
