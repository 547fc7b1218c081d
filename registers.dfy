/** The chip's register address map (src/registers.rs).

    Voice registers are addressed as the register's discriminant plus seven times the voice
    index; the filter block starts at 0x15, right after the three voice groups. The lemmas
    show that, for the three voices, no two (register, voice) pairs share an address, that
    the filter block follows the voices without a gap, and that each register's offset is
    the position of the byte it receives in the group's payload. */
module Registers {
  import opened Bits
  import State

  /** Distance between the register groups of consecutive voices. */
  const VOICE_REG_OFFSET: Byte := 0x07

  datatype VoiceRegister = Freq | Pwm | Control | AttackDecay | SustainRelease

  datatype FilterRegister = CutoffLow | CutoffHigh | Resonance | Mode

  /** `self as u8`: the register's offset, which lies within its voice group. */
  function VoiceOffset(r: VoiceRegister): (o: Byte)
    ensures o < VOICE_REG_OFFSET
  {
    match r
    case Freq => 0x00
    case Pwm => 0x02
    case Control => 0x04
    case AttackDecay => 0x05
    case SustainRelease => 0x06
  }

  /** `VoiceRegister::addr`: the `u8` sum and product, defined when neither overflows. The
      address determines both the voice (the quotient by the group size) and the register
      (the remainder). */
  function VoiceAddr(r: VoiceRegister, voice: nat): (a: Byte)
    requires VoiceOffset(r) + VOICE_REG_OFFSET * voice < 0x100
    ensures a / VOICE_REG_OFFSET == voice
    ensures a % VOICE_REG_OFFSET == VoiceOffset(r)
  {
    VoiceOffset(r) + VOICE_REG_OFFSET * voice
  }

  /** `FilterRegister::addr`: the discriminant itself, one of the four addresses after the
      three voice groups. */
  function FilterAddr(r: FilterRegister): (a: Byte)
    ensures VOICE_REG_OFFSET * 3 <= a < VOICE_REG_OFFSET * 3 + 4
  {
    match r
    case CutoffLow => 0x15
    case CutoffHigh => 0x16
    case Resonance => 0x17
    case Mode => 0x18
  }

  /** The three voice groups start at 0, 7 and 14 and end at 20 at the latest, so the `u8`
      arithmetic never overflows for them. */
  lemma VoiceAddrInRange(r: VoiceRegister, voice: nat)
    requires voice < 3
    ensures VoiceOffset(r) + VOICE_REG_OFFSET * voice < 0x100
    ensures VoiceAddr(Freq, voice) == 7 * voice
    ensures VoiceAddr(r, voice) <= 20
  {
  }

  /** Distinct (register, voice) pairs have distinct addresses. */
  lemma VoiceAddrInjective(r: VoiceRegister, v: nat, s: VoiceRegister, w: nat)
    requires v < 3 && w < 3
    requires VoiceAddr(r, v) == VoiceAddr(s, w)
    ensures r == s && v == w
  {
    assert VoiceOffset(r) == VoiceOffset(s);
  }

  /** The filter registers are consecutive, starting right where the third voice group
      would be followed by a fourth, and every voice address lies below them. */
  lemma FilterBlockFollowsVoices(r: VoiceRegister, voice: nat, f: FilterRegister)
    requires voice < 3
    ensures FilterAddr(CutoffLow) == VOICE_REG_OFFSET * 3
    ensures FilterAddr(CutoffHigh) == FilterAddr(CutoffLow) + 1
    ensures FilterAddr(Resonance) == FilterAddr(CutoffLow) + 2
    ensures FilterAddr(Mode) == FilterAddr(CutoffLow) + 3
    ensures VoiceAddr(r, voice) < FilterAddr(f)
  {
    VoiceAddrInRange(r, voice);
  }

  /** Each voice register's offset is the index of the payload byte it receives:
      Freq the frequency at 0-1, Pwm the pulse width at 2-3, Control the control byte,
      AttackDecay and SustainRelease the two envelope bytes. */
  lemma VoiceRegistersMatchPayload(v: State.Voice)
    ensures var p := State.VoiceBytes(v);
            && p[VoiceOffset(Freq)] as int + 0x100 * p[VoiceOffset(Freq) + 1] as int == v.frequency
            && p[VoiceOffset(Pwm)] as int + 0x100 * p[VoiceOffset(Pwm) + 1] as int == v.pwm
            && p[VoiceOffset(Control)] == State.ControlBytes(v.control)[0]
            && p[VoiceOffset(AttackDecay)] == v.envelope.attack * 0x10 + v.envelope.decay
            && p[VoiceOffset(SustainRelease)] == v.envelope.sustain * 0x10 + v.envelope.release
  {
    State.VoiceLayout(v);
    State.EnvelopeLayout(v.envelope);
  }

  /** Each filter register, counted from CutoffLow, is the index of the payload byte it receives. */
  lemma FilterRegistersMatchPayload(f: State.Filter)
    ensures var p := State.FilterBytes(f);
            && p[FilterAddr(CutoffLow) - FilterAddr(CutoffLow)] as int + 8 * p[FilterAddr(CutoffHigh) - FilterAddr(CutoffLow)] as int == f.frequency
            && p[FilterAddr(Resonance) - FilterAddr(CutoffLow)] == f.resonance * 0x10 + State.TargetBits(f.targets)
            && p[FilterAddr(Mode) - FilterAddr(CutoffLow)] == State.KindBits(f.kinds) + f.volume
  {
    State.FilterLayout(f);
  }
}
