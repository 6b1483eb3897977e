/** The register map of the YM2612 as the two interpreter classes dispatch
    it: one decoding function from (port, register) to the setter that is
    called, the two switch statements transcribed case by case, the proof
    that they agree, and the effect of a register write on the chip state. */
module YM2612Registers {
  import opened JavaInt
  import opened YM2612State

  /** The two register ports of the chip. */
  type Port = p: int | 0 <= p < 2

  /** What a register write reaches: the setter and the channel and
      operator it is called on. */
  datatype Target =
    | Unrecognized                                            // default: log only
    | Proprietary                                             // 0x90-0x9E: log only
    | LFO                                                     // port 0, 0x22
    | TimerBTime                                              // port 0, 0x26
    | TimersAndMode                                           // port 0, 0x27
    | KeyOnOff                                                // port 0, 0x28
    | DACData                                                 // port 0, 0x2A: log only
    | DACEnable                                               // port 0, 0x2B
    | OperatorRegister(channel: int, operator: int, kind: OperatorKind)
    | ChannelFrequency(channel: int, msb: bool)               // 0xA0-0xA1, 0xA4-0xA5
    | SharedFrequency(channel: int, msb: bool)                // 0xA2, 0xA6
    | OperatorFrequency(channel: int, operator: int, msb: bool) // 0xA8-0xAA, 0xAC-0xAE
    | AlgorithmFeedback(channel: int)                         // 0xB0-0xB2
    | StereoLFO(channel: int)                                 // 0xB4-0xB6
  {
    /** The channel and operator named are ones the interpreter has. */
    predicate InRange() {
      match this
      case OperatorRegister(c, op, _) => 0 <= c < 6 && 0 <= op < 4
      case ChannelFrequency(c, _) => 0 <= c < 6
      case SharedFrequency(c, _) => 0 <= c < 6
      case OperatorFrequency(c, op, _) => 0 <= c < 6 && 0 <= op < 4
      case AlgorithmFeedback(c) => 0 <= c < 6
      case StereoLFO(c) => 0 <= c < 6
      case _ => true
    }

    /** Targets whose setter only logs. */
    predicate Ignored() {
      Unrecognized? || Proprietary? || DACData?
    }
  }

  /** The register base of each operator block. */
  function KindBase(kind: OperatorKind): (base: nat)
    ensures 0x30 <= base <= 0x80 && base % 16 == 0
  {
    match kind
    case DetuneMultiple => 0x30
    case VolumeInverse => 0x40
    case RateScalingAttack => 0x50
    case DecayAmplitudeModulation => 0x60
    case DecaySecondary => 0x70
    case ReleaseSecondaryAmplitude => 0x80
  }

  /** The operator block starting at `base`: its partner. */
  function KindOfBase(base: int): (kind: OperatorKind)
    requires 0x30 <= base < 0x90 && base % 16 == 0
    ensures KindBase(kind) == base
  {
    if base == 0x30 then DetuneMultiple
    else if base == 0x40 then VolumeInverse
    else if base == 0x50 then RateScalingAttack
    else if base == 0x60 then DecayAmplitudeModulation
    else if base == 0x70 then DecaySecondary
    else ReleaseSecondaryAmplitude
  }

  lemma KindBaseInjective(k1: OperatorKind, k2: OperatorKind)
    ensures KindBase(k1) == KindBase(k2) ==> k1 == k2
  {
  }

  /** The register map.  Port 1 addresses channels 3-5 where port 0
      addresses 0-2; inside an operator block, register base + 4*op + c
      is operator op of channel c, and c = 3 is unused; the global
      registers exist on port 0 only. */
  function Decode(port: Port, register: int): (t: Target)
    requires 0 <= register < 256
    ensures t.InRange()
  {
    var first := 3 * port;
    if 0x90 <= register <= 0x9E then Proprietary
    else if port == 0 && register == 0x22 then LFO
    else if port == 0 && register == 0x26 then TimerBTime
    else if port == 0 && register == 0x27 then TimersAndMode
    else if port == 0 && register == 0x28 then KeyOnOff
    else if port == 0 && register == 0x2A then DACData
    else if port == 0 && register == 0x2B then DACEnable
    else if 0x30 <= register < 0x90 && register % 4 != 3 then
      OperatorRegister(first + register % 4, register % 16 / 4, KindOfBase(register / 16 * 16))
    else if 0xA0 <= register <= 0xA1 then ChannelFrequency(first + register - 0xA0, false)
    else if register == 0xA2 then SharedFrequency(first + 2, false)
    else if 0xA4 <= register <= 0xA5 then ChannelFrequency(first + register - 0xA4, true)
    else if register == 0xA6 then SharedFrequency(first + 2, true)
    else if 0xA8 <= register <= 0xAA then OperatorFrequency(first + 2, register - 0xA7, false)
    else if 0xAC <= register <= 0xAE then OperatorFrequency(first + 2, register - 0xAB, true)
    else if 0xB0 <= register <= 0xB2 then AlgorithmFeedback(first + register - 0xB0)
    else if 0xB4 <= register <= 0xB6 then StereoLFO(first + register - 0xB4)
    else Unrecognized
  }

  // ---------------------------------------------------------------------
  // The switch statements of writeRegisterPort0 and writeRegisterPort1,
  // case by case (both interpreter classes have the same cases).

  /** The `switch (register & 0xff)` of writeRegisterPort0, one row of
      sixteen registers at a time; registers without a case take the
      default branch. */
  function Port0Table(register: int): Target
    requires 0 <= register < 256
  {
    match register / 16
    case 0x2 => Port0Row2(register)
    case 0x3 => Port0Row3(register)
    case 0x4 => Port0Row4(register)
    case 0x5 => Port0Row5(register)
    case 0x6 => Port0Row6(register)
    case 0x7 => Port0Row7(register)
    case 0x8 => Port0Row8(register)
    case 0x9 => Port0Row9(register)
    case 0xA => Port0RowA(register)
    case 0xB => Port0RowB(register)
    case _ => Unrecognized
  }

  function Port0Row2(register: int): Target {
    match register
    case 0x22 => LFO
    case 0x26 => TimerBTime
    case 0x27 => TimersAndMode
    case 0x28 => KeyOnOff
    case 0x2A => DACData
    case 0x2B => DACEnable
    case _ => Unrecognized
  }

  function Port0Row3(register: int): Target {
    match register
    case 0x30 => OperatorRegister(0, 0, DetuneMultiple)
    case 0x31 => OperatorRegister(1, 0, DetuneMultiple)
    case 0x32 => OperatorRegister(2, 0, DetuneMultiple)
    case 0x34 => OperatorRegister(0, 1, DetuneMultiple)
    case 0x35 => OperatorRegister(1, 1, DetuneMultiple)
    case 0x36 => OperatorRegister(2, 1, DetuneMultiple)
    case 0x38 => OperatorRegister(0, 2, DetuneMultiple)
    case 0x39 => OperatorRegister(1, 2, DetuneMultiple)
    case 0x3A => OperatorRegister(2, 2, DetuneMultiple)
    case 0x3C => OperatorRegister(0, 3, DetuneMultiple)
    case 0x3D => OperatorRegister(1, 3, DetuneMultiple)
    case 0x3E => OperatorRegister(2, 3, DetuneMultiple)
    case _ => Unrecognized
  }

  function Port0Row4(register: int): Target {
    match register
    case 0x40 => OperatorRegister(0, 0, VolumeInverse)
    case 0x41 => OperatorRegister(1, 0, VolumeInverse)
    case 0x42 => OperatorRegister(2, 0, VolumeInverse)
    case 0x44 => OperatorRegister(0, 1, VolumeInverse)
    case 0x45 => OperatorRegister(1, 1, VolumeInverse)
    case 0x46 => OperatorRegister(2, 1, VolumeInverse)
    case 0x48 => OperatorRegister(0, 2, VolumeInverse)
    case 0x49 => OperatorRegister(1, 2, VolumeInverse)
    case 0x4A => OperatorRegister(2, 2, VolumeInverse)
    case 0x4C => OperatorRegister(0, 3, VolumeInverse)
    case 0x4D => OperatorRegister(1, 3, VolumeInverse)
    case 0x4E => OperatorRegister(2, 3, VolumeInverse)
    case _ => Unrecognized
  }

  function Port0Row5(register: int): Target {
    match register
    case 0x50 => OperatorRegister(0, 0, RateScalingAttack)
    case 0x51 => OperatorRegister(1, 0, RateScalingAttack)
    case 0x52 => OperatorRegister(2, 0, RateScalingAttack)
    case 0x54 => OperatorRegister(0, 1, RateScalingAttack)
    case 0x55 => OperatorRegister(1, 1, RateScalingAttack)
    case 0x56 => OperatorRegister(2, 1, RateScalingAttack)
    case 0x58 => OperatorRegister(0, 2, RateScalingAttack)
    case 0x59 => OperatorRegister(1, 2, RateScalingAttack)
    case 0x5A => OperatorRegister(2, 2, RateScalingAttack)
    case 0x5C => OperatorRegister(0, 3, RateScalingAttack)
    case 0x5D => OperatorRegister(1, 3, RateScalingAttack)
    case 0x5E => OperatorRegister(2, 3, RateScalingAttack)
    case _ => Unrecognized
  }

  function Port0Row6(register: int): Target {
    match register
    case 0x60 => OperatorRegister(0, 0, DecayAmplitudeModulation)
    case 0x61 => OperatorRegister(1, 0, DecayAmplitudeModulation)
    case 0x62 => OperatorRegister(2, 0, DecayAmplitudeModulation)
    case 0x64 => OperatorRegister(0, 1, DecayAmplitudeModulation)
    case 0x65 => OperatorRegister(1, 1, DecayAmplitudeModulation)
    case 0x66 => OperatorRegister(2, 1, DecayAmplitudeModulation)
    case 0x68 => OperatorRegister(0, 2, DecayAmplitudeModulation)
    case 0x69 => OperatorRegister(1, 2, DecayAmplitudeModulation)
    case 0x6A => OperatorRegister(2, 2, DecayAmplitudeModulation)
    case 0x6C => OperatorRegister(0, 3, DecayAmplitudeModulation)
    case 0x6D => OperatorRegister(1, 3, DecayAmplitudeModulation)
    case 0x6E => OperatorRegister(2, 3, DecayAmplitudeModulation)
    case _ => Unrecognized
  }

  function Port0Row7(register: int): Target {
    match register
    case 0x70 => OperatorRegister(0, 0, DecaySecondary)
    case 0x71 => OperatorRegister(1, 0, DecaySecondary)
    case 0x72 => OperatorRegister(2, 0, DecaySecondary)
    case 0x74 => OperatorRegister(0, 1, DecaySecondary)
    case 0x75 => OperatorRegister(1, 1, DecaySecondary)
    case 0x76 => OperatorRegister(2, 1, DecaySecondary)
    case 0x78 => OperatorRegister(0, 2, DecaySecondary)
    case 0x79 => OperatorRegister(1, 2, DecaySecondary)
    case 0x7A => OperatorRegister(2, 2, DecaySecondary)
    case 0x7C => OperatorRegister(0, 3, DecaySecondary)
    case 0x7D => OperatorRegister(1, 3, DecaySecondary)
    case 0x7E => OperatorRegister(2, 3, DecaySecondary)
    case _ => Unrecognized
  }

  function Port0Row8(register: int): Target {
    match register
    case 0x80 => OperatorRegister(0, 0, ReleaseSecondaryAmplitude)
    case 0x81 => OperatorRegister(1, 0, ReleaseSecondaryAmplitude)
    case 0x82 => OperatorRegister(2, 0, ReleaseSecondaryAmplitude)
    case 0x84 => OperatorRegister(0, 1, ReleaseSecondaryAmplitude)
    case 0x85 => OperatorRegister(1, 1, ReleaseSecondaryAmplitude)
    case 0x86 => OperatorRegister(2, 1, ReleaseSecondaryAmplitude)
    case 0x88 => OperatorRegister(0, 2, ReleaseSecondaryAmplitude)
    case 0x89 => OperatorRegister(1, 2, ReleaseSecondaryAmplitude)
    case 0x8A => OperatorRegister(2, 2, ReleaseSecondaryAmplitude)
    case 0x8C => OperatorRegister(0, 3, ReleaseSecondaryAmplitude)
    case 0x8D => OperatorRegister(1, 3, ReleaseSecondaryAmplitude)
    case 0x8E => OperatorRegister(2, 3, ReleaseSecondaryAmplitude)
    case _ => Unrecognized
  }

  function Port0Row9(register: int): Target {
    match register
    case 0x90 => Proprietary
    case 0x91 => Proprietary
    case 0x92 => Proprietary
    case 0x93 => Proprietary
    case 0x94 => Proprietary
    case 0x95 => Proprietary
    case 0x96 => Proprietary
    case 0x97 => Proprietary
    case 0x98 => Proprietary
    case 0x99 => Proprietary
    case 0x9A => Proprietary
    case 0x9B => Proprietary
    case 0x9C => Proprietary
    case 0x9D => Proprietary
    case 0x9E => Proprietary
    case _ => Unrecognized
  }

  function Port0RowA(register: int): Target {
    match register
    case 0xA0 => ChannelFrequency(0, false)
    case 0xA1 => ChannelFrequency(1, false)
    case 0xA2 => SharedFrequency(2, false)
    case 0xA4 => ChannelFrequency(0, true)
    case 0xA5 => ChannelFrequency(1, true)
    case 0xA6 => SharedFrequency(2, true)
    case 0xA8 => OperatorFrequency(2, 1, false)
    case 0xA9 => OperatorFrequency(2, 2, false)
    case 0xAA => OperatorFrequency(2, 3, false)
    case 0xAC => OperatorFrequency(2, 1, true)
    case 0xAD => OperatorFrequency(2, 2, true)
    case 0xAE => OperatorFrequency(2, 3, true)
    case _ => Unrecognized
  }

  function Port0RowB(register: int): Target {
    match register
    case 0xB0 => AlgorithmFeedback(0)
    case 0xB1 => AlgorithmFeedback(1)
    case 0xB2 => AlgorithmFeedback(2)
    case 0xB4 => StereoLFO(0)
    case 0xB5 => StereoLFO(1)
    case 0xB6 => StereoLFO(2)
    case _ => Unrecognized
  }

  /** The `switch (register & 0xff)` of writeRegisterPort1, one row of
      sixteen registers at a time; registers without a case take the
      default branch. */
  function Port1Table(register: int): Target
    requires 0 <= register < 256
  {
    match register / 16
    case 0x3 => Port1Row3(register)
    case 0x4 => Port1Row4(register)
    case 0x5 => Port1Row5(register)
    case 0x6 => Port1Row6(register)
    case 0x7 => Port1Row7(register)
    case 0x8 => Port1Row8(register)
    case 0x9 => Port1Row9(register)
    case 0xA => Port1RowA(register)
    case 0xB => Port1RowB(register)
    case _ => Unrecognized
  }

  function Port1Row3(register: int): Target {
    match register
    case 0x30 => OperatorRegister(3, 0, DetuneMultiple)
    case 0x31 => OperatorRegister(4, 0, DetuneMultiple)
    case 0x32 => OperatorRegister(5, 0, DetuneMultiple)
    case 0x34 => OperatorRegister(3, 1, DetuneMultiple)
    case 0x35 => OperatorRegister(4, 1, DetuneMultiple)
    case 0x36 => OperatorRegister(5, 1, DetuneMultiple)
    case 0x38 => OperatorRegister(3, 2, DetuneMultiple)
    case 0x39 => OperatorRegister(4, 2, DetuneMultiple)
    case 0x3A => OperatorRegister(5, 2, DetuneMultiple)
    case 0x3C => OperatorRegister(3, 3, DetuneMultiple)
    case 0x3D => OperatorRegister(4, 3, DetuneMultiple)
    case 0x3E => OperatorRegister(5, 3, DetuneMultiple)
    case _ => Unrecognized
  }

  function Port1Row4(register: int): Target {
    match register
    case 0x40 => OperatorRegister(3, 0, VolumeInverse)
    case 0x41 => OperatorRegister(4, 0, VolumeInverse)
    case 0x42 => OperatorRegister(5, 0, VolumeInverse)
    case 0x44 => OperatorRegister(3, 1, VolumeInverse)
    case 0x45 => OperatorRegister(4, 1, VolumeInverse)
    case 0x46 => OperatorRegister(5, 1, VolumeInverse)
    case 0x48 => OperatorRegister(3, 2, VolumeInverse)
    case 0x49 => OperatorRegister(4, 2, VolumeInverse)
    case 0x4A => OperatorRegister(5, 2, VolumeInverse)
    case 0x4C => OperatorRegister(3, 3, VolumeInverse)
    case 0x4D => OperatorRegister(4, 3, VolumeInverse)
    case 0x4E => OperatorRegister(5, 3, VolumeInverse)
    case _ => Unrecognized
  }

  function Port1Row5(register: int): Target {
    match register
    case 0x50 => OperatorRegister(3, 0, RateScalingAttack)
    case 0x51 => OperatorRegister(4, 0, RateScalingAttack)
    case 0x52 => OperatorRegister(5, 0, RateScalingAttack)
    case 0x54 => OperatorRegister(3, 1, RateScalingAttack)
    case 0x55 => OperatorRegister(4, 1, RateScalingAttack)
    case 0x56 => OperatorRegister(5, 1, RateScalingAttack)
    case 0x58 => OperatorRegister(3, 2, RateScalingAttack)
    case 0x59 => OperatorRegister(4, 2, RateScalingAttack)
    case 0x5A => OperatorRegister(5, 2, RateScalingAttack)
    case 0x5C => OperatorRegister(3, 3, RateScalingAttack)
    case 0x5D => OperatorRegister(4, 3, RateScalingAttack)
    case 0x5E => OperatorRegister(5, 3, RateScalingAttack)
    case _ => Unrecognized
  }

  function Port1Row6(register: int): Target {
    match register
    case 0x60 => OperatorRegister(3, 0, DecayAmplitudeModulation)
    case 0x61 => OperatorRegister(4, 0, DecayAmplitudeModulation)
    case 0x62 => OperatorRegister(5, 0, DecayAmplitudeModulation)
    case 0x64 => OperatorRegister(3, 1, DecayAmplitudeModulation)
    case 0x65 => OperatorRegister(4, 1, DecayAmplitudeModulation)
    case 0x66 => OperatorRegister(5, 1, DecayAmplitudeModulation)
    case 0x68 => OperatorRegister(3, 2, DecayAmplitudeModulation)
    case 0x69 => OperatorRegister(4, 2, DecayAmplitudeModulation)
    case 0x6A => OperatorRegister(5, 2, DecayAmplitudeModulation)
    case 0x6C => OperatorRegister(3, 3, DecayAmplitudeModulation)
    case 0x6D => OperatorRegister(4, 3, DecayAmplitudeModulation)
    case 0x6E => OperatorRegister(5, 3, DecayAmplitudeModulation)
    case _ => Unrecognized
  }

  function Port1Row7(register: int): Target {
    match register
    case 0x70 => OperatorRegister(3, 0, DecaySecondary)
    case 0x71 => OperatorRegister(4, 0, DecaySecondary)
    case 0x72 => OperatorRegister(5, 0, DecaySecondary)
    case 0x74 => OperatorRegister(3, 1, DecaySecondary)
    case 0x75 => OperatorRegister(4, 1, DecaySecondary)
    case 0x76 => OperatorRegister(5, 1, DecaySecondary)
    case 0x78 => OperatorRegister(3, 2, DecaySecondary)
    case 0x79 => OperatorRegister(4, 2, DecaySecondary)
    case 0x7A => OperatorRegister(5, 2, DecaySecondary)
    case 0x7C => OperatorRegister(3, 3, DecaySecondary)
    case 0x7D => OperatorRegister(4, 3, DecaySecondary)
    case 0x7E => OperatorRegister(5, 3, DecaySecondary)
    case _ => Unrecognized
  }

  function Port1Row8(register: int): Target {
    match register
    case 0x80 => OperatorRegister(3, 0, ReleaseSecondaryAmplitude)
    case 0x81 => OperatorRegister(4, 0, ReleaseSecondaryAmplitude)
    case 0x82 => OperatorRegister(5, 0, ReleaseSecondaryAmplitude)
    case 0x84 => OperatorRegister(3, 1, ReleaseSecondaryAmplitude)
    case 0x85 => OperatorRegister(4, 1, ReleaseSecondaryAmplitude)
    case 0x86 => OperatorRegister(5, 1, ReleaseSecondaryAmplitude)
    case 0x88 => OperatorRegister(3, 2, ReleaseSecondaryAmplitude)
    case 0x89 => OperatorRegister(4, 2, ReleaseSecondaryAmplitude)
    case 0x8A => OperatorRegister(5, 2, ReleaseSecondaryAmplitude)
    case 0x8C => OperatorRegister(3, 3, ReleaseSecondaryAmplitude)
    case 0x8D => OperatorRegister(4, 3, ReleaseSecondaryAmplitude)
    case 0x8E => OperatorRegister(5, 3, ReleaseSecondaryAmplitude)
    case _ => Unrecognized
  }

  function Port1Row9(register: int): Target {
    match register
    case 0x90 => Proprietary
    case 0x91 => Proprietary
    case 0x92 => Proprietary
    case 0x93 => Proprietary
    case 0x94 => Proprietary
    case 0x95 => Proprietary
    case 0x96 => Proprietary
    case 0x97 => Proprietary
    case 0x98 => Proprietary
    case 0x99 => Proprietary
    case 0x9A => Proprietary
    case 0x9B => Proprietary
    case 0x9C => Proprietary
    case 0x9D => Proprietary
    case 0x9E => Proprietary
    case _ => Unrecognized
  }

  function Port1RowA(register: int): Target {
    match register
    case 0xA0 => ChannelFrequency(3, false)
    case 0xA1 => ChannelFrequency(4, false)
    case 0xA2 => SharedFrequency(5, false)
    case 0xA4 => ChannelFrequency(3, true)
    case 0xA5 => ChannelFrequency(4, true)
    case 0xA6 => SharedFrequency(5, true)
    case 0xA8 => OperatorFrequency(5, 1, false)
    case 0xA9 => OperatorFrequency(5, 2, false)
    case 0xAA => OperatorFrequency(5, 3, false)
    case 0xAC => OperatorFrequency(5, 1, true)
    case 0xAD => OperatorFrequency(5, 2, true)
    case 0xAE => OperatorFrequency(5, 3, true)
    case _ => Unrecognized
  }

  function Port1RowB(register: int): Target {
    match register
    case 0xB0 => AlgorithmFeedback(3)
    case 0xB1 => AlgorithmFeedback(4)
    case 0xB2 => AlgorithmFeedback(5)
    case 0xB4 => StereoLFO(3)
    case 0xB5 => StereoLFO(4)
    case 0xB6 => StereoLFO(5)
    case _ => Unrecognized
  }

  /** The low nibble takes one of its sixteen values. */
  lemma LowNibbleCases(register: int)
    requires 0 <= register < 256
    ensures var lo := register % 16;
      lo == 0 || lo == 1 || lo == 2 || lo == 3 || lo == 4 || lo == 5 || lo == 6 || lo == 7 || lo == 8 || lo == 9 || lo == 10 || lo == 11 || lo == 12 || lo == 13 || lo == 14 || lo == 15
  {
  }

  lemma Port0RowAgree0(register: int)
    requires 0x00 <= register < 0x10
    ensures Port0Table(register) == Decode(0, register)
  {
    var lo := register % 16;
    LowNibbleCases(register);
    assert register == 0x00 + lo;
  }

  lemma Port0RowAgree1(register: int)
    requires 0x10 <= register < 0x20
    ensures Port0Table(register) == Decode(0, register)
  {
    var lo := register % 16;
    LowNibbleCases(register);
    assert register == 0x10 + lo;
  }

  lemma Port0RowAgree2(register: int)
    requires 0x20 <= register < 0x30
    ensures Port0Table(register) == Decode(0, register)
  {
    var lo := register % 16;
    LowNibbleCases(register);
    assert register == 0x20 + lo;
  }

  lemma Port0RowAgree3(register: int)
    requires 0x30 <= register < 0x40
    ensures Port0Table(register) == Decode(0, register)
  {
    var lo := register % 16;
    LowNibbleCases(register);
    assert register == 0x30 + lo;
  }

  lemma Port0RowAgree4(register: int)
    requires 0x40 <= register < 0x50
    ensures Port0Table(register) == Decode(0, register)
  {
    var lo := register % 16;
    LowNibbleCases(register);
    assert register == 0x40 + lo;
  }

  lemma Port0RowAgree5(register: int)
    requires 0x50 <= register < 0x60
    ensures Port0Table(register) == Decode(0, register)
  {
    var lo := register % 16;
    LowNibbleCases(register);
    assert register == 0x50 + lo;
  }

  lemma Port0RowAgree6(register: int)
    requires 0x60 <= register < 0x70
    ensures Port0Table(register) == Decode(0, register)
  {
    var lo := register % 16;
    LowNibbleCases(register);
    assert register == 0x60 + lo;
  }

  lemma Port0RowAgree7(register: int)
    requires 0x70 <= register < 0x80
    ensures Port0Table(register) == Decode(0, register)
  {
    var lo := register % 16;
    LowNibbleCases(register);
    assert register == 0x70 + lo;
  }

  lemma Port0RowAgree8(register: int)
    requires 0x80 <= register < 0x90
    ensures Port0Table(register) == Decode(0, register)
  {
    var lo := register % 16;
    LowNibbleCases(register);
    assert register == 0x80 + lo;
  }

  lemma Port0RowAgree9(register: int)
    requires 0x90 <= register < 0xA0
    ensures Port0Table(register) == Decode(0, register)
  {
    var lo := register % 16;
    LowNibbleCases(register);
    assert register == 0x90 + lo;
  }

  lemma Port0RowAgree10(register: int)
    requires 0xA0 <= register < 0xB0
    ensures Port0Table(register) == Decode(0, register)
  {
    var lo := register % 16;
    LowNibbleCases(register);
    assert register == 0xA0 + lo;
  }

  lemma Port0RowAgree11(register: int)
    requires 0xB0 <= register < 0xC0
    ensures Port0Table(register) == Decode(0, register)
  {
    var lo := register % 16;
    LowNibbleCases(register);
    assert register == 0xB0 + lo;
  }

  lemma Port0RowAgree12(register: int)
    requires 0xC0 <= register < 0xD0
    ensures Port0Table(register) == Decode(0, register)
  {
    var lo := register % 16;
    LowNibbleCases(register);
    assert register == 0xC0 + lo;
  }

  lemma Port0RowAgree13(register: int)
    requires 0xD0 <= register < 0xE0
    ensures Port0Table(register) == Decode(0, register)
  {
    var lo := register % 16;
    LowNibbleCases(register);
    assert register == 0xD0 + lo;
  }

  lemma Port0RowAgree14(register: int)
    requires 0xE0 <= register < 0xF0
    ensures Port0Table(register) == Decode(0, register)
  {
    var lo := register % 16;
    LowNibbleCases(register);
    assert register == 0xE0 + lo;
  }

  lemma Port0RowAgree15(register: int)
    requires 0xF0 <= register < 0x100
    ensures Port0Table(register) == Decode(0, register)
  {
    var lo := register % 16;
    LowNibbleCases(register);
    assert register == 0xF0 + lo;
  }

  /** Every case of the writeRegisterPort0 switch, and its default,
      reaches the target Decode names. */
  lemma Port0TableAgrees(register: int)
    requires 0 <= register < 256
    ensures Port0Table(register) == Decode(0, register)
  {
    if register < 0x10 {
      Port0RowAgree0(register);
    } else if register < 0x20 {
      Port0RowAgree1(register);
    } else if register < 0x30 {
      Port0RowAgree2(register);
    } else if register < 0x40 {
      Port0RowAgree3(register);
    } else if register < 0x50 {
      Port0RowAgree4(register);
    } else if register < 0x60 {
      Port0RowAgree5(register);
    } else if register < 0x70 {
      Port0RowAgree6(register);
    } else if register < 0x80 {
      Port0RowAgree7(register);
    } else if register < 0x90 {
      Port0RowAgree8(register);
    } else if register < 0xA0 {
      Port0RowAgree9(register);
    } else if register < 0xB0 {
      Port0RowAgree10(register);
    } else if register < 0xC0 {
      Port0RowAgree11(register);
    } else if register < 0xD0 {
      Port0RowAgree12(register);
    } else if register < 0xE0 {
      Port0RowAgree13(register);
    } else if register < 0xF0 {
      Port0RowAgree14(register);
    } else {
      Port0RowAgree15(register);
    }
  }

  lemma Port1RowAgree0(register: int)
    requires 0x00 <= register < 0x10
    ensures Port1Table(register) == Decode(1, register)
  {
    var lo := register % 16;
    LowNibbleCases(register);
    assert register == 0x00 + lo;
  }

  lemma Port1RowAgree1(register: int)
    requires 0x10 <= register < 0x20
    ensures Port1Table(register) == Decode(1, register)
  {
    var lo := register % 16;
    LowNibbleCases(register);
    assert register == 0x10 + lo;
  }

  lemma Port1RowAgree2(register: int)
    requires 0x20 <= register < 0x30
    ensures Port1Table(register) == Decode(1, register)
  {
    var lo := register % 16;
    LowNibbleCases(register);
    assert register == 0x20 + lo;
  }

  lemma Port1RowAgree3(register: int)
    requires 0x30 <= register < 0x40
    ensures Port1Table(register) == Decode(1, register)
  {
    var lo := register % 16;
    LowNibbleCases(register);
    assert register == 0x30 + lo;
  }

  lemma Port1RowAgree4(register: int)
    requires 0x40 <= register < 0x50
    ensures Port1Table(register) == Decode(1, register)
  {
    var lo := register % 16;
    LowNibbleCases(register);
    assert register == 0x40 + lo;
  }

  lemma Port1RowAgree5(register: int)
    requires 0x50 <= register < 0x60
    ensures Port1Table(register) == Decode(1, register)
  {
    var lo := register % 16;
    LowNibbleCases(register);
    assert register == 0x50 + lo;
  }

  lemma Port1RowAgree6(register: int)
    requires 0x60 <= register < 0x70
    ensures Port1Table(register) == Decode(1, register)
  {
    var lo := register % 16;
    LowNibbleCases(register);
    assert register == 0x60 + lo;
  }

  lemma Port1RowAgree7(register: int)
    requires 0x70 <= register < 0x80
    ensures Port1Table(register) == Decode(1, register)
  {
    var lo := register % 16;
    LowNibbleCases(register);
    assert register == 0x70 + lo;
  }

  lemma Port1RowAgree8(register: int)
    requires 0x80 <= register < 0x90
    ensures Port1Table(register) == Decode(1, register)
  {
    var lo := register % 16;
    LowNibbleCases(register);
    assert register == 0x80 + lo;
  }

  lemma Port1RowAgree9(register: int)
    requires 0x90 <= register < 0xA0
    ensures Port1Table(register) == Decode(1, register)
  {
    var lo := register % 16;
    LowNibbleCases(register);
    assert register == 0x90 + lo;
  }

  lemma Port1RowAgree10(register: int)
    requires 0xA0 <= register < 0xB0
    ensures Port1Table(register) == Decode(1, register)
  {
    var lo := register % 16;
    LowNibbleCases(register);
    assert register == 0xA0 + lo;
  }

  lemma Port1RowAgree11(register: int)
    requires 0xB0 <= register < 0xC0
    ensures Port1Table(register) == Decode(1, register)
  {
    var lo := register % 16;
    LowNibbleCases(register);
    assert register == 0xB0 + lo;
  }

  lemma Port1RowAgree12(register: int)
    requires 0xC0 <= register < 0xD0
    ensures Port1Table(register) == Decode(1, register)
  {
    var lo := register % 16;
    LowNibbleCases(register);
    assert register == 0xC0 + lo;
  }

  lemma Port1RowAgree13(register: int)
    requires 0xD0 <= register < 0xE0
    ensures Port1Table(register) == Decode(1, register)
  {
    var lo := register % 16;
    LowNibbleCases(register);
    assert register == 0xD0 + lo;
  }

  lemma Port1RowAgree14(register: int)
    requires 0xE0 <= register < 0xF0
    ensures Port1Table(register) == Decode(1, register)
  {
    var lo := register % 16;
    LowNibbleCases(register);
    assert register == 0xE0 + lo;
  }

  lemma Port1RowAgree15(register: int)
    requires 0xF0 <= register < 0x100
    ensures Port1Table(register) == Decode(1, register)
  {
    var lo := register % 16;
    LowNibbleCases(register);
    assert register == 0xF0 + lo;
  }

  /** Every case of the writeRegisterPort1 switch, and its default,
      reaches the target Decode names. */
  lemma Port1TableAgrees(register: int)
    requires 0 <= register < 256
    ensures Port1Table(register) == Decode(1, register)
  {
    if register < 0x10 {
      Port1RowAgree0(register);
    } else if register < 0x20 {
      Port1RowAgree1(register);
    } else if register < 0x30 {
      Port1RowAgree2(register);
    } else if register < 0x40 {
      Port1RowAgree3(register);
    } else if register < 0x50 {
      Port1RowAgree4(register);
    } else if register < 0x60 {
      Port1RowAgree5(register);
    } else if register < 0x70 {
      Port1RowAgree6(register);
    } else if register < 0x80 {
      Port1RowAgree7(register);
    } else if register < 0x90 {
      Port1RowAgree8(register);
    } else if register < 0xA0 {
      Port1RowAgree9(register);
    } else if register < 0xB0 {
      Port1RowAgree10(register);
    } else if register < 0xC0 {
      Port1RowAgree11(register);
    } else if register < 0xD0 {
      Port1RowAgree12(register);
    } else if register < 0xE0 {
      Port1RowAgree13(register);
    } else if register < 0xF0 {
      Port1RowAgree14(register);
    } else {
      Port1RowAgree15(register);
    }
  }

  // ---------------------------------------------------------------------
  // The effect of a write

  /** The frequency setter of a channel, LSB or MSB. */
  function ChannelFrequencySetter(ch: ChannelState, msb: bool, v: Int32): (r: ChannelState)
    ensures r.operators == ch.operators
  {
    if msb then ch.SetFrequencyMSB(v) else ch.SetFrequencyLSB(v)
  }

  /** The frequency setter of an operator, LSB or MSB. */
  function OperatorFrequencySetter(o: OperatorState, msb: bool, v: Int32): (r: OperatorState)
    ensures r.Snapshot() == o.Snapshot() && r.index == o.index
    ensures o.WellFormed() ==> r.WellFormed()
  {
    if msb then o.SetFrequencyMSB(v) else o.SetFrequencyLSB(v)
  }

  /** What the case for `t` does to the chip.  The shared frequency
      registers of channels 2 and 5 reach operator 0 instead of the channel
      while special mode is set. */
  function Apply(s: ChipState, t: Target, v: Int32): (r: ChipState)
    requires s.Shaped() && t.InRange()
    ensures r.Shaped()
    ensures t.Ignored() ==> r == s
  {
    match t
    case Unrecognized => s
    case Proprietary => s
    case DACData => s
    case LFO => s.SetLFO(v)
    case TimerBTime => s.SetTimerBTime(v)
    case TimersAndMode => s.SetTimersAndMode(v)
    case KeyOnOff => s.SetKeyOnOff(v)
    case DACEnable => s.SetDAC(v)
    case OperatorRegister(c, op, kind) =>
      s.WithOperator(c, op, SetOperator(s.channels[c].operators[op], kind, v))
    case ChannelFrequency(c, msb) =>
      s.WithChannel(c, ChannelFrequencySetter(s.channels[c], msb, v))
    case SharedFrequency(c, msb) =>
      if s.specialMode then
        s.WithOperator(c, 0, OperatorFrequencySetter(s.channels[c].operators[0], msb, v))
      else
        s.WithChannel(c, ChannelFrequencySetter(s.channels[c], msb, v))
    case OperatorFrequency(c, op, msb) =>
      s.WithOperator(c, op, OperatorFrequencySetter(s.channels[c].operators[op], msb, v))
    case AlgorithmFeedback(c) =>
      s.WithChannel(c, s.channels[c].SetAlgorithmAndFeedback(v))
    case StereoLFO(c) =>
      s.WithChannel(c, s.channels[c].SetStereoAndLFOSensitivity(v))
  }

  /** `writeRegisterPort0/1(register, value)`: dispatch on `register &
      0xff`.  It is total: no register and no value makes it fail. */
  function Write(s: ChipState, port: Port, register: Int32, value: Int32): (r: ChipState)
    requires s.Shaped()
    ensures r.Shaped()
    ensures Decode(port, Field(register, 1, 256)).Ignored() ==> r == s
  {
    Apply(s, Decode(port, Field(register, 1, 256)), value)
  }

  // ---------------------------------------------------------------------
  // Properties of the register map

  /** Operator block registers: base + 4*op + c with c <= 2 reach operator
      op of channel c on port 0 and channel 3 + c on port 1, and nothing
      else does. */
  lemma DecodeOperatorRegister(port: Port, register: int, c: int, op: int, kind: OperatorKind)
    requires 0 <= register < 256
    ensures Decode(port, register) == OperatorRegister(c, op, kind)
            <==> 0 <= op < 4 && 3 * port <= c < 3 * port + 3
                 && register == KindBase(kind) + 4 * op + (c - 3 * port)
  {
    if Decode(port, register) == OperatorRegister(c, op, kind) {
      DecodedOperatorRegister(port, register);
    }
    if 0 <= op < 4 && 3 * port <= c < 3 * port + 3 && register == KindBase(kind) + 4 * op + (c - 3 * port) {
      OperatorRegisterDecodes(port, kind, op, c - 3 * port);
    }
  }

  lemma DecodedOperatorRegister(port: Port, register: int)
    requires 0 <= register < 256 && Decode(port, register).OperatorRegister?
    ensures var t := Decode(port, register);
      && 0 <= t.operator < 4 && 3 * port <= t.channel < 3 * port + 3
      && register == KindBase(t.kind) + 4 * t.operator + (t.channel - 3 * port)
  {
    assert 0x30 <= register < 0x90 && register % 4 != 3;
    assert register == register / 16 * 16 + 4 * (register % 16 / 4) + register % 4;
  }

  lemma OperatorRegisterDecodes(port: Port, kind: OperatorKind, op: int, c: int)
    requires 0 <= op < 4 && 0 <= c < 3
    ensures Decode(port, KindBase(kind) + 4 * op + c) == OperatorRegister(3 * port + c, op, kind)
  {
    var register := KindBase(kind) + 4 * op + c;
    var low := 4 * op + c;
    assert register % 16 == low && register / 16 * 16 == KindBase(kind) by {
      DivModUnique(register, 16, KindBase(kind) / 16, low);
    }
    assert register % 4 == c && register % 16 / 4 == op by {
      DivModUnique(register, 4, KindBase(kind) / 4 + op, c);
      DivModUnique(low, 4, op, c);
    }
    KindBaseInjective(kind, KindOfBase(KindBase(kind)));
  }

  /** The fourth slot of every operator row (c = 3) is unused. */
  lemma OperatorRowGap(port: Port, kind: OperatorKind, op: int)
    requires 0 <= op < 4
    ensures Decode(port, KindBase(kind) + 4 * op + 3) == Unrecognized
  {
    var register := KindBase(kind) + 4 * op + 3;
    DivModUnique(register, 4, KindBase(kind) / 4 + op, 3);
  }

  /** The per-channel registers 0xA0-0xA1, 0xA4-0xA5, 0xB0-0xB2 and
      0xB4-0xB6 reach channel reg & 3 of port 0 and 3 + (reg & 3) of port 1. */
  lemma DecodeChannelRegister(port: Port, row: int, c: int)
    requires row == 0xA0 || row == 0xA4 || row == 0xB0 || row == 0xB4
    requires 0 <= c < 3 && (row == 0xA0 || row == 0xA4 ==> c < 2)
    ensures var t := Decode(port, row + c);
      && t.InRange()
      && (row == 0xA0 ==> t == ChannelFrequency(3 * port + c, false))
      && (row == 0xA4 ==> t == ChannelFrequency(3 * port + c, true))
      && (row == 0xB0 ==> t == AlgorithmFeedback(3 * port + c))
      && (row == 0xB4 ==> t == StereoLFO(3 * port + c))
  {
  }

  /** The frequency registers of channel 2 (port 0) or 5 (port 1). */
  lemma DecodeSharedChannelFrequency(port: Port)
    ensures Decode(port, 0xA2) == SharedFrequency(3 * port + 2, false)
    ensures Decode(port, 0xA6) == SharedFrequency(3 * port + 2, true)
  {
  }

  lemma DecodeOperatorFrequency(port: Port, op: int, msb: bool)
    requires 1 <= op < 4
    ensures Decode(port, (if msb then 0xAB else 0xA7) + op) == OperatorFrequency(3 * port + 2, op, msb)
  {
  }

  /** 0xA2/0xA6 follow the one special-mode flag shared by both ports:
      while it is set they reach operator 0 of channel 2 (port 0) or 5
      (port 1), otherwise the channel itself. */
  lemma SpecialModeRouting(s: ChipState, port: Port, msb: bool, value: Int32)
    requires s.Shaped()
    ensures var c := 3 * port + 2;
      Write(s, port, if msb then 0xA6 else 0xA2, value)
      == (if s.specialMode
          then s.WithOperator(c, 0, OperatorFrequencySetter(s.channels[c].operators[0], msb, value))
          else s.WithChannel(c, ChannelFrequencySetter(s.channels[c], msb, value)))
  {
    var register := if msb then 0xA6 else 0xA2;
    assert Field(register, 1, 256) == register;
    DecodeSharedChannelFrequency(port);
  }

  /** 0xA8-0xAA and 0xAC-0xAE reach operators 1-3 of that channel whatever
      the mode. */
  lemma OperatorFrequencyIgnoresMode(s: ChipState, port: Port, op: int, msb: bool, b: bool, value: Int32)
    requires s.Shaped() && 1 <= op < 4
    ensures var register := (if msb then 0xAB else 0xA7) + op;
      && Write(s, port, register, value)
         == s.WithOperator(3 * port + 2, op, OperatorFrequencySetter(s.channels[3 * port + 2].operators[op], msb, value))
      && Write(s.(specialMode := b), port, register, value) == Write(s, port, register, value).(specialMode := b)
  {
    var register := (if msb then 0xAB else 0xA7) + op;
    assert Field(register, 1, 256) == register;
    DecodeOperatorFrequency(port, op, msb);
    var t := OperatorFrequency(3 * port + 2, op, msb);
    assert Write(s, port, register, value) == Apply(s, t, value);
    assert Write(s.(specialMode := b), port, register, value) == Apply(s.(specialMode := b), t, value);
  }

  /** The global registers exist on port 0 only: on port 1, 0x22-0x2B take
      the default branch. */
  lemma GlobalsOnPortZeroOnly(s: ChipState, register: Int32, value: Int32)
    requires s.Shaped() && 0x22 <= register <= 0x2B
    ensures Write(s, 1, register, value) == s
    ensures Decode(0, register) != Unrecognized <==> register in {0x22, 0x26, 0x27, 0x28, 0x2A, 0x2B}
  {
    assert Field(register, 1, 256) == register;
  }

  /** 0x90-0x9E on either port and DAC data only log. */
  lemma LoggedRegisters(s: ChipState, port: Port, register: Int32, value: Int32)
    requires s.Shaped()
    requires 0x90 <= register <= 0x9E || (port == 0 && register == 0x2A)
    ensures Write(s, port, register, value) == s
  {
    assert Field(register, 1, 256) == register;
  }

  /** Only the low byte of the register selects the case. */
  lemma RegisterLowByteOnly(s: ChipState, port: Port, register: Int32, value: Int32)
    requires s.Shaped()
    ensures Write(s, port, register, value) == Write(s, port, Field(register, 1, 256), value)
  {
    var low := Field(register, 1, 256);
    assert Field(low, 1, 256) == low;
  }

  /** Port 0 register 0x27: mode bits 00 clear and 01 set special mode,
      10 and 11 keep it; the timer bits are stored in every case. */
  lemma ModeRegister(s: ChipState, value: Int32)
    requires s.Shaped()
    ensures var mode := ToUnsigned(value) / 64 % 4;
      Write(s, 0, 0x27, value).specialMode
      == (if mode == 0 then false else if mode == 1 then true else s.specialMode)
    ensures Write(s, 0, 0x27, value) == s.SetTimersAndMode(value)
  {
    assert Field(0x27, 1, 256) == 0x27;
  }

  /** Port 0 register 0x28: codes 3 and 7 change nothing; otherwise the
      selected channel's operators are keyed from bits 4-7. */
  lemma KeyOnRegister(s: ChipState, value: Int32)
    requires s.Shaped()
    ensures Write(s, 0, 0x28, value) == s.SetKeyOnOff(value)
    ensures Field(value, 1, 8) == 3 || Field(value, 1, 8) == 7 ==> Write(s, 0, 0x28, value) == s
  {
    assert Field(0x28, 1, 256) == 0x28;
  }

  /** The port-1 target of a register is its port-0 target moved up three
      channels, except the port-0 globals. */
  function MoveUp(t: Target): (r: Target)
    requires t.InRange()
  {
    match t
    case OperatorRegister(c, op, kind) => OperatorRegister(c + 3, op, kind)
    case ChannelFrequency(c, msb) => ChannelFrequency(c + 3, msb)
    case SharedFrequency(c, msb) => SharedFrequency(c + 3, msb)
    case OperatorFrequency(c, op, msb) => OperatorFrequency(c + 3, op, msb)
    case AlgorithmFeedback(c) => AlgorithmFeedback(c + 3)
    case StereoLFO(c) => StereoLFO(c + 3)
    case LFO => Unrecognized
    case TimerBTime => Unrecognized
    case TimersAndMode => Unrecognized
    case KeyOnOff => Unrecognized
    case DACData => Unrecognized
    case DACEnable => Unrecognized
    case _ => t
  }

  lemma PortSymmetry(register: int)
    requires 0 <= register < 256
    ensures Decode(1, register) == MoveUp(Decode(0, register))
  {
  }

  // ---------------------------------------------------------------------
  // Invariants of a write

  /** A write keeps every masked field within its mask and every index in
      place. */
  lemma ApplyKeepsWellFormed(s: ChipState, t: Target, v: Int32)
    requires s.WellFormed() && t.InRange()
    ensures s.Shaped() && Apply(s, t, v).WellFormed()
  {
    WellFormedShaped(s);
    match t
    case KeyOnOff => KeyOnKeepsWellFormed(s, v);
    case OperatorRegister(c, op, kind) =>
      var o := s.channels[c].operators[op];
      assert s.channels[c].WellFormed() && o.WellFormed() && o.index == op;
      WithOperatorWellFormed(s, c, op, SetOperator(o, kind, v));
    case OperatorFrequency(c, op, msb) =>
      var o := s.channels[c].operators[op];
      assert s.channels[c].WellFormed() && o.WellFormed() && o.index == op;
      WithOperatorWellFormed(s, c, op, OperatorFrequencySetter(o, msb, v));
    case SharedFrequency(c, msb) =>
      var o := s.channels[c].operators[0];
      assert s.channels[c].WellFormed() && o.WellFormed() && o.index == 0;
      WithOperatorWellFormed(s, c, 0, OperatorFrequencySetter(o, msb, v));
      ChannelSetterKeepsWellFormed(s, c, if msb then 1 else 0, v);
    case ChannelFrequency(c, msb) => ChannelSetterKeepsWellFormed(s, c, if msb then 1 else 0, v);
    case AlgorithmFeedback(c) => ChannelSetterKeepsWellFormed(s, c, 2, v);
    case StereoLFO(c) => ChannelSetterKeepsWellFormed(s, c, 3, v);
    case _ =>
  }

  /** The channel setters, numbered 0 LSB, 1 MSB, 2 algorithm/feedback and
      3 stereo/LFO; each keeps the chip well-formed. */
  function ChannelSetter(ch: ChannelState, which: int, v: Int32): ChannelState {
    if which == 0 then ch.SetFrequencyLSB(v)
    else if which == 1 then ch.SetFrequencyMSB(v)
    else if which == 2 then ch.SetAlgorithmAndFeedback(v)
    else ch.SetStereoAndLFOSensitivity(v)
  }

  lemma ChannelSetterKeepsWellFormed(s: ChipState, c: int, which: int, v: Int32)
    requires s.WellFormed() && 0 <= c < 6
    ensures s.Shaped() && s.WithChannel(c, ChannelSetter(s.channels[c], which, v)).WellFormed()
  {
    WellFormedShaped(s);
    var ch := s.channels[c];
    assert ch.WellFormed() && ch.index == c;
    WithChannelWellFormed(s, c, ChannelSetter(ch, which, v));
  }

  lemma KeyOnKeepsWellFormed(s: ChipState, v: Int32)
    requires s.WellFormed()
    ensures s.Shaped() && s.SetKeyOnOff(v).WellFormed()
  {
    WellFormedShaped(s);
    match KeyOnChannel(Field(v, 1, 8)) {
      case None =>
      case Some(c) =>
        var ch := s.channels[c];
        assert ch.WellFormed() && ch.index == c;
        var r := s.SetKeyOnOff(v).channels[c];
        assert r.WellFormed() by {
          forall k | 0 <= k < 4 ensures r.operators[k].WellFormed() && r.operators[k].index == k {
            assert ch.operators[k].WellFormed() && ch.operators[k].index == k;
          }
        }
        WithChannelWellFormed(s, c, r);
    }
  }

  lemma WriteKeepsWellFormed(s: ChipState, port: Port, register: Int32, value: Int32)
    requires s.WellFormed()
    ensures s.Shaped() && Write(s, port, register, value).WellFormed()
  {
    ApplyKeepsWellFormed(s, Decode(port, Field(register, 1, 256)), value);
  }

  /** A write changes the snapshot of at most one channel, and only the
      operator blocks and the algorithm/feedback registers change any. */
  lemma ApplySnapshots(s: ChipState, t: Target, v: Int32)
    requires s.Shaped() && t.InRange()
    ensures var r := Apply(s, t, v);
      && (!(t.OperatorRegister? || t.AlgorithmFeedback?) ==> r.Snapshots() == s.Snapshots())
      && (t.OperatorRegister? || t.AlgorithmFeedback? ==>
            forall j :: 0 <= j < 6 && j != t.channel ==> r.Snapshots()[j] == s.Snapshots()[j])
  {
    match t
    case KeyOnOff => KeyOnSnapshots(s, v);
    case SharedFrequency(c, msb) =>
      var o := s.channels[c].operators[0];
      ChannelRegistersOutsideSnapshot(s.channels[c], v);
      WithOperatorSnapshots(s, c, 0, OperatorFrequencySetter(o, msb, v));
      WithChannelSnapshots(s, c, ChannelFrequencySetter(s.channels[c], msb, v));
    case OperatorFrequency(c, op, msb) =>
      var o := s.channels[c].operators[op];
      WithOperatorSnapshots(s, c, op, OperatorFrequencySetter(o, msb, v));
    case ChannelFrequency(c, msb) =>
      ChannelRegistersOutsideSnapshot(s.channels[c], v);
      WithChannelSnapshots(s, c, ChannelFrequencySetter(s.channels[c], msb, v));
    case StereoLFO(c) =>
      ChannelRegistersOutsideSnapshot(s.channels[c], v);
      WithChannelSnapshots(s, c, s.channels[c].SetStereoAndLFOSensitivity(v));
    case OperatorRegister(c, op, kind) =>
      WithOperatorSnapshots(s, c, op, SetOperator(s.channels[c].operators[op], kind, v));
    case AlgorithmFeedback(c) =>
      WithChannelSnapshots(s, c, s.channels[c].SetAlgorithmAndFeedback(v));
    case _ =>
  }

  lemma KeyOnSnapshots(s: ChipState, v: Int32)
    requires s.Shaped()
    ensures s.SetKeyOnOff(v).Snapshots() == s.Snapshots()
  {
    match KeyOnChannel(Field(v, 1, 8)) {
      case None =>
      case Some(c) =>
        var r := s.SetKeyOnOff(v).channels[c];
        SameChannelSnapshot(r, s.channels[c]);
        WithChannelSnapshots(s, c, r);
    }
  }

  /** Writing a register twice leaves what writing the second value once
      leaves, with two exceptions: key on/off for different channels, and
      port 0 register 0x27 when the second value's mode bits are 10 or 11
      (the special mode set by the first write survives). */
  lemma ApplyTwice(s: ChipState, t: Target, v: Int32, w: Int32)
    requires s.Shaped() && t.InRange()
    requires t.TimersAndMode? ==> ToUnsigned(w) / 64 % 4 < 2
    requires t.KeyOnOff? ==> Field(v, 1, 8) == Field(w, 1, 8)
    ensures Apply(Apply(s, t, v), t, w) == Apply(s, t, w)
  {
    match t
    case KeyOnOff =>
      match KeyOnChannel(Field(w, 1, 8)) {
        case None =>
        case Some(c) =>
          var ops := s.channels[c].operators;
          var r := s.SetKeyOnOff(v);
          assert r.SetKeyOnOff(w).channels[c] == s.SetKeyOnOff(w).channels[c];
          WithChannelTwice(s, c, r.channels[c], s.SetKeyOnOff(w).channels[c]);
      }
    case OperatorRegister(c, op, kind) =>
      var o := s.channels[c].operators[op];
      SetOperatorTwice(o, kind, v, w);
      WithOperatorTwice(s, c, op, SetOperator(o, kind, v), SetOperator(o, kind, w));
    case ChannelFrequency(c, msb) =>
      var ch := s.channels[c];
      WithChannelTwice(s, c, ChannelFrequencySetter(ch, msb, v), ChannelFrequencySetter(ch, msb, w));
    case SharedFrequency(c, msb) =>
      var ch := s.channels[c];
      WithChannelTwice(s, c, ChannelFrequencySetter(ch, msb, v), ChannelFrequencySetter(ch, msb, w));
      var o := ch.operators[0];
      WithOperatorTwice(s, c, 0, OperatorFrequencySetter(o, msb, v), OperatorFrequencySetter(o, msb, w));
    case OperatorFrequency(c, op, msb) =>
      var o := s.channels[c].operators[op];
      WithOperatorTwice(s, c, op, OperatorFrequencySetter(o, msb, v), OperatorFrequencySetter(o, msb, w));
    case AlgorithmFeedback(c) =>
      var ch := s.channels[c];
      WithChannelTwice(s, c, ch.SetAlgorithmAndFeedback(v), ch.SetAlgorithmAndFeedback(w));
    case StereoLFO(c) =>
      var ch := s.channels[c];
      WithChannelTwice(s, c, ch.SetStereoAndLFOSensitivity(v), ch.SetStereoAndLFOSensitivity(w));
    case _ =>
  }

  /** And the caveat is real: mode bits 11 after 01 keep special mode on. */
  lemma ModeSurvivesInvalidPattern(s: ChipState)
    requires s.Shaped() && !s.specialMode
    ensures Apply(Apply(s, TimersAndMode, 0x40), TimersAndMode, 0xC0).specialMode
    ensures !Apply(s, TimersAndMode, 0xC0).specialMode
  {
    InvalidModeKeepsSpecialMode(s, 0, 3);
    InvalidModeKeepsSpecialMode(s.SetTimersAndMode(0x40), 0, 3);
    TimersAndModeRoundTrip(s, true, 0);
  }
}
