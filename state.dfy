/** The chip's programmable state and its register payloads (src/state.rs).

    Each parameter group is a value type; its payload is given twice: as a pure function
    of the value (`EnvelopeBytes`, `ControlBytes`, `VoiceBytes`, `FilterBytes`), which the
    lemmas speak about, and as a method that fills a caller-supplied array in place, as the
    `Payload::payload` implementations do, proved equal to that function. Every payload has
    a decoder, and the lemmas show that encoder and decoder are mutually inverse over the
    byte patterns the layout allows. */
module State {
  import opened Bits

  // ---------------------------------------------------------------------------------------
  // Flag sets. A `FlagSet<F>` is a set of named flags; `bits()` ORs the members' values.
  // The values of each flag type are distinct powers of two, so that OR is their sum.

  /** Waveform selection; values 0x10, 0x20, 0x40, 0x80 (the high nibble of the control byte). */
  datatype VoiceShape = Triangle | Sawtooth | Square | Noise

  /** Filter mode; values 0x10, 0x20, 0x40, 0x80 (the high nibble of the mode/volume byte). */
  datatype FilterKind = LowPass | BandPass | HighPass | ThreeOff

  /** Voice control flags; the flag-set default numbering gives 1, 2, 4, 8. */
  datatype ControlFlag = Gate | Sync | RingMod | Test

  /** Filter routing; the flag-set default numbering gives 1, 2, 4, 8. */
  datatype FilterTarget = Voice1 | Voice2 | Voice3 | External

  /** True when the bit of weight `w` is set in nibble `n`. */
  predicate HasBit(n: U4, w: nat)
    requires w > 0
  {
    (n / w) % 2 == 1
  }

  function ShapeBits(s: set<VoiceShape>): (b: Byte)
    ensures b % 0x10 == 0
    ensures b == 0 <==> s == {}
  {
    assert s != {} ==> Triangle in s || Sawtooth in s || Square in s || Noise in s by {
      if s != {} {
        var x :| x in s;
        assert x == Triangle || x == Sawtooth || x == Square || x == Noise;
      }
    }
    (if Triangle in s then 0x10 else 0) + (if Sawtooth in s then 0x20 else 0)
    + (if Square in s then 0x40 else 0) + (if Noise in s then 0x80 else 0)
  }

  function KindBits(s: set<FilterKind>): (b: Byte)
    ensures b % 0x10 == 0
    ensures b == 0 <==> s == {}
  {
    assert s != {} ==> LowPass in s || BandPass in s || HighPass in s || ThreeOff in s by {
      if s != {} {
        var x :| x in s;
        assert x == LowPass || x == BandPass || x == HighPass || x == ThreeOff;
      }
    }
    (if LowPass in s then 0x10 else 0) + (if BandPass in s then 0x20 else 0)
    + (if HighPass in s then 0x40 else 0) + (if ThreeOff in s then 0x80 else 0)
  }

  function ControlFlagBits(s: set<ControlFlag>): (b: U4)
    ensures b == 0 <==> s == {}
  {
    assert s != {} ==> Gate in s || Sync in s || RingMod in s || Test in s by {
      if s != {} {
        var x :| x in s;
        assert x == Gate || x == Sync || x == RingMod || x == Test;
      }
    }
    (if Gate in s then 1 else 0) + (if Sync in s then 2 else 0)
    + (if RingMod in s then 4 else 0) + (if Test in s then 8 else 0)
  }

  function TargetBits(s: set<FilterTarget>): (b: U4)
    ensures b == 0 <==> s == {}
  {
    assert s != {} ==> Voice1 in s || Voice2 in s || Voice3 in s || External in s by {
      if s != {} {
        var x :| x in s;
        assert x == Voice1 || x == Voice2 || x == Voice3 || x == External;
      }
    }
    (if Voice1 in s then 1 else 0) + (if Voice2 in s then 2 else 0)
    + (if Voice3 in s then 4 else 0) + (if External in s then 8 else 0)
  }

  /** The shapes whose bits are set in high nibble `n` (the byte shifted right by 4). */
  function ShapesOf(n: U4): (s: set<VoiceShape>)
  {
    (if HasBit(n, 1) then {Triangle} else {}) + (if HasBit(n, 2) then {Sawtooth} else {})
    + (if HasBit(n, 4) then {Square} else {}) + (if HasBit(n, 8) then {Noise} else {})
  }

  /** The filter kinds whose bits are set in high nibble `n`. */
  function KindsOf(n: U4): (s: set<FilterKind>)
  {
    (if HasBit(n, 1) then {LowPass} else {}) + (if HasBit(n, 2) then {BandPass} else {})
    + (if HasBit(n, 4) then {HighPass} else {}) + (if HasBit(n, 8) then {ThreeOff} else {})
  }

  /** The control flags whose bits are set in low nibble `n`. */
  function ControlFlagsOf(n: U4): (s: set<ControlFlag>)
  {
    (if HasBit(n, 1) then {Gate} else {}) + (if HasBit(n, 2) then {Sync} else {})
    + (if HasBit(n, 4) then {RingMod} else {}) + (if HasBit(n, 8) then {Test} else {})
  }

  /** The routing targets whose bits are set in low nibble `n`. */
  function TargetsOf(n: U4): (s: set<FilterTarget>)
  {
    (if HasBit(n, 1) then {Voice1} else {}) + (if HasBit(n, 2) then {Voice2} else {})
    + (if HasBit(n, 4) then {Voice3} else {}) + (if HasBit(n, 8) then {External} else {})
  }

  /** A nibble is the sum of its set bits. */
  lemma NibbleBits(n: U4)
    ensures n == (if HasBit(n, 1) then 1 else 0) + (if HasBit(n, 2) then 2 else 0)
                 + (if HasBit(n, 4) then 4 else 0) + (if HasBit(n, 8) then 8 else 0)
  {
  }

  /** A shape set occupies only the high nibble and is recovered from it. */
  lemma ShapeBitsRoundTrip(s: set<VoiceShape>)
    ensures ShapeBits(s) % 0x10 == 0
    ensures ShapesOf(ShapeBits(s) / 0x10) == s
  {
    var n := ShapeBits(s) / 0x10;
    assert n == (if Triangle in s then 1 else 0) + (if Sawtooth in s then 2 else 0)
                + (if Square in s then 4 else 0) + (if Noise in s then 8 else 0);
    forall f: VoiceShape ensures f in ShapesOf(n) <==> f in s {
      match f
      case Triangle => assert HasBit(n, 1) <==> Triangle in s;
      case Sawtooth => assert HasBit(n, 2) <==> Sawtooth in s;
      case Square => assert HasBit(n, 4) <==> Square in s;
      case Noise => assert HasBit(n, 8) <==> Noise in s;
    }
  }

  /** A filter-kind set occupies only the high nibble and is recovered from it. */
  lemma KindBitsRoundTrip(s: set<FilterKind>)
    ensures KindBits(s) % 0x10 == 0
    ensures KindsOf(KindBits(s) / 0x10) == s
  {
    var n := KindBits(s) / 0x10;
    assert n == (if LowPass in s then 1 else 0) + (if BandPass in s then 2 else 0)
                + (if HighPass in s then 4 else 0) + (if ThreeOff in s then 8 else 0);
    forall f: FilterKind ensures f in KindsOf(n) <==> f in s {
      match f
      case LowPass => assert HasBit(n, 1) <==> LowPass in s;
      case BandPass => assert HasBit(n, 2) <==> BandPass in s;
      case HighPass => assert HasBit(n, 4) <==> HighPass in s;
      case ThreeOff => assert HasBit(n, 8) <==> ThreeOff in s;
    }
  }

  lemma ControlFlagBitsRoundTrip(s: set<ControlFlag>)
    ensures ControlFlagsOf(ControlFlagBits(s)) == s
  {
    var b := ControlFlagBits(s);
    forall f: ControlFlag ensures f in ControlFlagsOf(b) <==> f in s {
      match f
      case Gate => assert HasBit(b, 1) <==> Gate in s;
      case Sync => assert HasBit(b, 2) <==> Sync in s;
      case RingMod => assert HasBit(b, 4) <==> RingMod in s;
      case Test => assert HasBit(b, 8) <==> Test in s;
    }
  }

  lemma TargetBitsRoundTrip(s: set<FilterTarget>)
    ensures TargetsOf(TargetBits(s)) == s
  {
    var b := TargetBits(s);
    forall f: FilterTarget ensures f in TargetsOf(b) <==> f in s {
      match f
      case Voice1 => assert HasBit(b, 1) <==> Voice1 in s;
      case Voice2 => assert HasBit(b, 2) <==> Voice2 in s;
      case Voice3 => assert HasBit(b, 4) <==> Voice3 in s;
      case External => assert HasBit(b, 8) <==> External in s;
    }
  }

  /** Every high nibble is the bits of the shapes read from it. */
  lemma ShapesOfBits(n: U4)
    ensures ShapeBits(ShapesOf(n)) == n * 0x10
  {
    NibbleBits(n);
  }

  /** Every high nibble is the bits of the filter kinds read from it. */
  lemma KindsOfBits(n: U4)
    ensures KindBits(KindsOf(n)) == n * 0x10
  {
    NibbleBits(n);
  }

  /** Every low nibble is the bits of the control flags read from it. */
  lemma ControlFlagsOfBits(n: U4)
    ensures ControlFlagBits(ControlFlagsOf(n)) == n
  {
    NibbleBits(n);
  }

  /** Every low nibble is the bits of the routing targets read from it. */
  lemma TargetsOfBits(n: U4)
    ensures TargetBits(TargetsOf(n)) == n
  {
    NibbleBits(n);
  }

  // ---------------------------------------------------------------------------------------
  // Parameter groups and their defaults.

  /** Attack/decay/sustain/release, one nibble each. */
  datatype Envelope = Envelope(attack: U4, decay: U4, sustain: U4, release: U4)

  /** Waveform shapes and control flags of a voice. */
  datatype Control = Control(shapes: set<VoiceShape>, flags: set<ControlFlag>)

  /** One oscillator channel. */
  datatype Voice = Voice(frequency: U16, pwm: U12, envelope: Envelope, control: Control)

  /** The shared filter and mixer: 11-bit cutoff, resonance, master volume, modes, routing. */
  datatype Filter = Filter(frequency: U11, resonance: U4, volume: U4,
                           kinds: set<FilterKind>, targets: set<FilterTarget>)

  /** The chip holds exactly three voices. */
  type VoiceBank = s: seq<Voice> | |s| == 3
    witness [Voice(0, 0, Envelope(0, 0, 0, 0), Control({}, {})),
             Voice(0, 0, Envelope(0, 0, 0, 0), Control({}, {})),
             Voice(0, 0, Envelope(0, 0, 0, 0), Control({}, {}))]

  /** Everything the driver writes to the chip. */
  datatype SidState = SidState(voices: VoiceBank, filter: Filter)

  /** `Envelope::default`: sustain 7, every other stage 0; its payload is `00 70`. */
  function DefaultEnvelope(): (e: Envelope)
    ensures EnvelopeBytes(e) == [0x00, 0x70]
  {
    EnvelopeLayout(Envelope(0, 0, 7, 0));
    Envelope(0, 0, 7, 0)
  }

  /** `Control::default`: the square wave alone, no control flags; its payload is `40`. */
  function DefaultControl(): (c: Control)
    ensures ControlBytes(c) == [0x40]
  {
    ControlLayout(Control({Square}, {}));
    Control({Square}, {})
  }

  /** `Voice::default`: frequency 7217 (0x1C31), pulse width 2048 (0x800), the default
      envelope and control. */
  function DefaultVoice(): (v: Voice)
    ensures VoiceBytes(v) == [0x31, 0x1C, 0x00, 0x08, 0x40, 0x00, 0x70]
  {
    Voice(7217, 2048, DefaultEnvelope(), DefaultControl())
  }

  /** `Filter::default`: cutoff and resonance 0, volume 7, no modes, no routing. */
  function DefaultFilter(): (f: Filter)
    ensures FilterBytes(f) == [0x00, 0x00, 0x00, 0x07]
  {
    FilterLayout(Filter(0, 0, 7, {}, {}));
    Filter(0, 0, 7, {}, {})
  }

  /** `SidState::new`, the derived default: every voice encodes to the default voice payload
      and the filter to the default filter payload. */
  function NewState(): (s: SidState)
    ensures forall i :: 0 <= i < 3 ==> VoiceBytes(s.voices[i]) == [0x31, 0x1C, 0x00, 0x08, 0x40, 0x00, 0x70]
    ensures FilterBytes(s.filter) == [0x00, 0x00, 0x00, 0x07]
  {
    SidState([DefaultVoice(), DefaultVoice(), DefaultVoice()], DefaultFilter())
  }

  // ---------------------------------------------------------------------------------------
  // Payload specifications.

  /** `[attack << 4 | decay, sustain << 4 | release]`. */
  function EnvelopeBytes(e: Envelope): (r: seq<Byte>)
    ensures |r| == 2
  {
    [Or8(e.attack * 0x10, e.decay), Or8(e.sustain * 0x10, e.release)]
  }

  /** `[shapes.bits() | flags.bits()]`. */
  function ControlBytes(c: Control): (r: seq<Byte>)
    ensures |r| == 1
  {
    [Or8(ShapeBits(c.shapes), ControlFlagBits(c.flags))]
  }

  /** The intended voice layout: frequency and pulse width little-endian, then the control
      payload at byte 4 and the envelope payload at bytes 5-6. */
  function VoiceBytes(v: Voice): (r: seq<Byte>)
    ensures |r| == 7
  {
    [v.frequency % 0x100, v.frequency / 0x100, v.pwm % 0x100, (v.pwm / 0x100) % 0x10]
    + ControlBytes(v.control) + EnvelopeBytes(v.envelope)
  }

  /** Cutoff bits 2-0, cutoff bits 10-3, `resonance << 4 | targets`, `kinds | volume`. */
  function FilterBytes(f: Filter): (r: seq<Byte>)
    ensures |r| == 4
  {
    [f.frequency % 8, (f.frequency / 8) % 0x100,
     Or8(f.resonance * 0x10, TargetBits(f.targets)), Or8(KindBits(f.kinds), f.volume)]
  }

  // ---------------------------------------------------------------------------------------
  // Decoders: the inverse reading of each layout.

  function DecodeEnvelope(b: seq<Byte>): (e: Envelope)
    requires |b| == 2
  {
    Envelope(b[0] / 0x10, b[0] % 0x10, b[1] / 0x10, b[1] % 0x10)
  }

  function DecodeControl(b: seq<Byte>): (c: Control)
    requires |b| == 1
  {
    Control(ShapesOf(b[0] / 0x10), ControlFlagsOf(b[0] % 0x10))
  }

  /** Byte 3 holds only the top nibble of a 12-bit pulse width. */
  predicate WellFormedVoiceBytes(b: seq<Byte>)
  {
    |b| == 7 && b[3] < 0x10
  }

  function DecodeVoice(b: seq<Byte>): (v: Voice)
    requires WellFormedVoiceBytes(b)
  {
    Voice(b[0] as int + 0x100 * b[1] as int, b[2] as int + 0x100 * b[3] as int, DecodeEnvelope(b[5..7]), DecodeControl(b[4..5]))
  }

  /** Byte 0 holds only the three low bits of the cutoff. */
  predicate WellFormedFilterBytes(b: seq<Byte>)
  {
    |b| == 4 && b[0] < 8
  }

  function DecodeFilter(b: seq<Byte>): (f: Filter)
    requires WellFormedFilterBytes(b)
  {
    Filter(b[0] as int + 8 * b[1] as int, b[2] / 0x10, b[3] % 0x10, KindsOf(b[3] / 0x10), TargetsOf(b[2] % 0x10))
  }

  // ---------------------------------------------------------------------------------------
  // Layout and round-trip properties.

  lemma EnvelopeLayout(e: Envelope)
    ensures EnvelopeBytes(e)[0] == e.attack * 0x10 + e.decay
    ensures EnvelopeBytes(e)[1] == e.sustain * 0x10 + e.release
  {
    PackNibbles(e.attack, e.decay);
    PackNibbles(e.sustain, e.release);
  }

  lemma EnvelopeRoundTrip(e: Envelope)
    ensures DecodeEnvelope(EnvelopeBytes(e)) == e
  {
    var b := EnvelopeBytes(e);
    PackNibbles(e.attack, e.decay);
    PackNibbles(e.sustain, e.release);
    assert b[0] / 0x10 == e.attack && b[0] % 0x10 == e.decay;
    assert b[1] / 0x10 == e.sustain && b[1] % 0x10 == e.release;
  }

  /** Every pair of bytes is the payload of exactly one envelope. */
  lemma EnvelopeBytesOnto(b: seq<Byte>)
    requires |b| == 2
    ensures EnvelopeBytes(DecodeEnvelope(b)) == b
  {
    var e := DecodeEnvelope(b);
    EnvelopeLayout(e);
  }

  /** The shapes fill the high nibble and the flags the low nibble, without overlap. */
  lemma ControlLayout(c: Control)
    ensures ControlBytes(c)[0] == ShapeBits(c.shapes) + ControlFlagBits(c.flags)
    ensures ControlBytes(c)[0] / 0x10 * 0x10 == ShapeBits(c.shapes)
    ensures ControlBytes(c)[0] % 0x10 == ControlFlagBits(c.flags)
  {
    ShapeBitsRoundTrip(c.shapes);
    PackHighLow(ShapeBits(c.shapes), ControlFlagBits(c.flags));
  }

  lemma ControlRoundTrip(c: Control)
    ensures DecodeControl(ControlBytes(c)) == c
  {
    ControlLayout(c);
    ShapeBitsRoundTrip(c.shapes);
    ControlFlagBitsRoundTrip(c.flags);
  }

  /** Every byte is the control payload of exactly one control value. */
  lemma ControlBytesOnto(b: seq<Byte>)
    requires |b| == 1
    ensures ControlBytes(DecodeControl(b)) == b
  {
    var c := DecodeControl(b);
    ControlLayout(c);
    ShapesOfBits(b[0] / 0x10);
    ControlFlagsOfBits(b[0] % 0x10);
  }

  /** Bytes 0-1 hold the frequency little-endian, bytes 2-3 the pulse width little-endian
      with the top nibble of byte 3 clear, bytes 4-6 the control and envelope payloads. */
  lemma VoiceLayout(v: Voice)
    ensures VoiceBytes(v)[0] as int + 0x100 * VoiceBytes(v)[1] as int == v.frequency
    ensures VoiceBytes(v)[3] <= 0x0F
    ensures VoiceBytes(v)[2] as int + 0x100 * VoiceBytes(v)[3] as int == v.pwm
    ensures VoiceBytes(v)[4..5] == ControlBytes(v.control)
    ensures VoiceBytes(v)[5..7] == EnvelopeBytes(v.envelope)
  {
  }

  lemma VoiceRoundTrip(v: Voice)
    ensures WellFormedVoiceBytes(VoiceBytes(v))
    ensures DecodeVoice(VoiceBytes(v)) == v
  {
    VoiceLayout(v);
    ControlRoundTrip(v.control);
    EnvelopeRoundTrip(v.envelope);
  }

  /** Every well-formed 7-byte group is the payload of exactly one voice. */
  lemma VoiceBytesOnto(b: seq<Byte>)
    requires WellFormedVoiceBytes(b)
    ensures VoiceBytes(DecodeVoice(b)) == b
  {
    var v := DecodeVoice(b);
    VoiceLayout(v);
    ControlBytesOnto(b[4..5]);
    EnvelopeBytesOnto(b[5..7]);
    assert VoiceBytes(v)[4..5] == b[4..5];
    assert VoiceBytes(v)[5..7] == b[5..7];
  }

  /** Byte 0 holds cutoff bits 2-0 and byte 1 bits 10-3; byte 2 is resonance over targets,
      byte 3 filter kinds over volume, each pair nibble-disjoint. */
  lemma FilterLayout(f: Filter)
    ensures FilterBytes(f)[0] <= 7
    ensures FilterBytes(f)[0] as int + 8 * FilterBytes(f)[1] as int == f.frequency
    ensures FilterBytes(f)[2] == f.resonance * 0x10 + TargetBits(f.targets)
    ensures FilterBytes(f)[3] == KindBits(f.kinds) + f.volume
  {
    PackNibbles(f.resonance, TargetBits(f.targets));
    KindBitsRoundTrip(f.kinds);
    PackHighLow(KindBits(f.kinds), f.volume);
  }

  lemma FilterRoundTrip(f: Filter)
    ensures WellFormedFilterBytes(FilterBytes(f))
    ensures DecodeFilter(FilterBytes(f)) == f
  {
    var b := FilterBytes(f);
    FilterLayout(f);
    KindBitsRoundTrip(f.kinds);
    TargetBitsRoundTrip(f.targets);
    assert b[3] / 0x10 == KindBits(f.kinds) / 0x10 && b[3] % 0x10 == f.volume by {
      PackHighLow(KindBits(f.kinds), f.volume);
    }
    assert b[2] % 0x10 == TargetBits(f.targets) && b[2] / 0x10 == f.resonance by {
      PackNibbles(f.resonance, TargetBits(f.targets));
    }
  }

  /** Every well-formed 4-byte group is the payload of exactly one filter. */
  lemma FilterBytesOnto(b: seq<Byte>)
    requires WellFormedFilterBytes(b)
    ensures FilterBytes(DecodeFilter(b)) == b
  {
    var f := DecodeFilter(b);
    FilterLayout(f);
    TargetsOfBits(b[2] % 0x10);
    KindsOfBits(b[3] / 0x10);
  }

  // ---------------------------------------------------------------------------------------
  // `Payload::payload`: each fills a caller-supplied buffer of its fixed size in place.

  method ControlPayload(c: Control, buf: array<Byte>)
    requires buf.Length == 1
    modifies buf
    ensures buf[..] == ControlBytes(c)
  {
    buf[0] := Or8(ShapeBits(c.shapes), ControlFlagBits(c.flags));
  }

  method EnvelopePayload(e: Envelope, buf: array<Byte>)
    requires buf.Length == 2
    modifies buf
    ensures buf[..] == EnvelopeBytes(e)
  {
    buf[0] := Or8(e.attack * 0x10, e.decay);
    buf[1] := Or8(e.sustain * 0x10, e.release);
  }

  /** The intended behaviour of `Voice::payload`: control at byte 4, envelope at bytes 5-6. */
  method VoicePayload(v: Voice, buf: array<Byte>)
    requires buf.Length == 7
    modifies buf
    ensures buf[..] == VoiceBytes(v)
  {
    buf[0] := v.frequency % 0x100;
    buf[1] := v.frequency / 0x100;
    buf[2] := v.pwm % 0x100;
    buf[3] := (v.pwm / 0x100) % 0x10;
    var control := new Byte[1];
    ControlPayload(v.control, control);
    buf[4] := control[0];
    var envelope := new Byte[2];
    EnvelopePayload(v.envelope, envelope);
    buf[5] := envelope[0];
    buf[6] := envelope[1];
  }

  method FilterPayload(f: Filter, buf: array<Byte>)
    requires buf.Length == 4
    modifies buf
    ensures buf[..] == FilterBytes(f)
  {
    buf[0] := f.frequency % 8;
    buf[1] := (f.frequency / 8) % 0x100;
    buf[2] := Or8(f.resonance * 0x10, TargetBits(f.targets));
    buf[3] := Or8(KindBits(f.kinds), f.volume);
  }

  // ---------------------------------------------------------------------------------------
  // `Voice::payload` as written.

  datatype Option<T> = None | Some(value: T)

  /** `<[u8; N]>::try_from(&[u8])`: succeeds, with a copy, exactly when the lengths agree. */
  function TryIntoArray(slice: seq<Byte>, n: nat): (r: Option<seq<Byte>>)
    ensures r.Some? <==> |slice| == n
    ensures r.Some? ==> r.value == slice
  {
    if |slice| == n then Some(slice) else None
  }

  /** What one call leaves in the buffer, and whether it panicked. */
  datatype PayloadRun = PayloadRun(buf: seq<Byte>, panicked: bool)

  /** The code as written: bytes 0-3 are stored; on the next line the control payload is
      written into the temporary array that `try_into` copied out of `buf[4..5]`, which is
      then dropped; the line after converts the one-byte slice `buf[5..6]` to a two-byte
      array, and `unwrap` panics on the failed conversion. */
  function VoiceBytesAsWritten(v: Voice, prior: seq<Byte>): (r: PayloadRun)
    requires |prior| == 7
    ensures |r.buf| == 7
    ensures r.buf[0] as int + 0x100 * r.buf[1] as int == v.frequency
    ensures r.buf[2] as int + 0x100 * r.buf[3] as int == v.pwm
    ensures r.buf[4..] == prior[4..]
  {
    var head := prior[0 := v.frequency % 0x100][1 := v.frequency / 0x100]
                     [2 := v.pwm % 0x100][3 := (v.pwm / 0x100) % 0x10];
    var controlCopy := TryIntoArray(head[4..5], 1);
    var envelopeCopy := TryIntoArray(head[5..6], 2);
    PayloadRun(head, controlCopy.None? || envelopeCopy.None?)
  }

  /** For every voice and every prior buffer the call panics, and the control payload
      never reaches byte 4; only bytes 0-3 agree with the intended layout. */
  lemma VoicePayloadAsWrittenPanics(v: Voice, prior: seq<Byte>)
    requires |prior| == 7
    ensures VoiceBytesAsWritten(v, prior).panicked
    ensures VoiceBytesAsWritten(v, prior).buf[..4] == VoiceBytes(v)[..4]
    ensures VoiceBytesAsWritten(v, prior).buf[4..] == prior[4..]
  {
  }

  /** On a zeroed buffer the default voice's byte 4 stays 0, not its control byte 0x40. */
  lemma VoicePayloadAsWrittenDiffers()
    ensures VoiceBytesAsWritten(DefaultVoice(), [0, 0, 0, 0, 0, 0, 0]).buf[4] == 0
    ensures VoiceBytes(DefaultVoice())[4] == 0x40
  {
  }
}
