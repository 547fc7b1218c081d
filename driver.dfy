/** The transport driver (src/lib.rs).

    The driver owns an SPI transport, a chip-select line, a reset line and a delay source.
    Here those four capabilities are one `Bus` object that records, in order, every action
    taken on them; the driver's methods are proved to append exactly the events the wire
    protocol prescribes. Every capability result is discarded by the driver, so the bus
    methods cannot fail and the trace does not depend on them.

    To state what a sequence of register writes achieves, `Latch` reads a trace the way the
    write-only chip does: each two-byte SPI transfer stores its second byte in the register
    named by its first. */
module Driver {
  import opened Bits
  import opened State
  import Registers

  /** The chip's voice count. */
  const NUM_VOICES: nat := 3

  /** The address bits the chip decodes: `write_reg` masks an address with 0x1F. */
  const ADDR_SPACE: nat := 0x20

  /** One action on the driver's capabilities. */
  datatype Event =
    | CsLow              // chip select driven low
    | CsHigh             // chip select driven high
    | Spi(bytes: seq<Byte>)  // one blocking SPI write
    | ResLow             // reset line driven low
    | ResHigh            // reset line driven high
    | DelayMs(ms: nat)   // blocking delay

  /** The SPI transport, chip-select pin, reset pin and delay source, as an append-only log. */
  class Bus {
    var trace: seq<Event>

    constructor ()
      ensures trace == []
    {
      trace := [];
    }

    method SetCsLow()
      modifies this
      ensures trace == old(trace) + [CsLow]
    {
      trace := trace + [CsLow];
    }

    method SetCsHigh()
      modifies this
      ensures trace == old(trace) + [CsHigh]
    {
      trace := trace + [CsHigh];
    }

    method Write(bytes: seq<Byte>)
      modifies this
      ensures trace == old(trace) + [Spi(bytes)]
    {
      trace := trace + [Spi(bytes)];
    }

    method SetResLow()
      modifies this
      ensures trace == old(trace) + [ResLow]
    {
      trace := trace + [ResLow];
    }

    method SetResHigh()
      modifies this
      ensures trace == old(trace) + [ResHigh]
    {
      trace := trace + [ResHigh];
    }

    method Delay(ms: nat)
      modifies this
      ensures trace == old(trace) + [DelayMs(ms)]
    {
      trace := trace + [DelayMs(ms)];
    }
  }

  // ---------------------------------------------------------------------------------------
  // The wire protocol.

  /** One register write: chip select low, the two-byte frame `[addr & 0x1F, value]`,
      chip select high. */
  function RegFrame(addr: Byte, value: Byte): (t: seq<Event>)
    ensures addr < ADDR_SPACE ==> t == [CsLow, Spi([addr, value]), CsHigh]
  {
    [CsLow, Spi([addr % ADDR_SPACE, value]), CsHigh]
  }

  /** The address byte keeps only the low five bits, so addresses 0x20 apart alias the same
      register, and every frame addresses the chip's 32-register space. */
  lemma RegFrameAliases(addr: Byte, value: Byte)
    requires addr + ADDR_SPACE < 0x100
    ensures RegFrame(addr + ADDR_SPACE, value) == RegFrame(addr, value)
    ensures RegFrame(addr, value)[1].bytes[0] < ADDR_SPACE
  {
  }

  /** One register write per value, at consecutive addresses from `start`; the addresses
      stay within `u8`. */
  function Frames(start: nat, values: seq<Byte>): (t: seq<Event>)
    requires start + |values| <= 0x100
    ensures |t| == 3 * |values|
    decreases |values|
  {
    if values == [] then [] else RegFrame(start, values[0]) + Frames(start + 1, values[1..])
  }

  /** The reset sequence: reset line low, hold 10 ms, reset line high. */
  function ResetPulse(): (t: seq<Event>)
    ensures |t| == 3 && t[0] == ResLow && t[|t| - 1] == ResHigh
  {
    [ResLow, DelayMs(10), ResHigh]
  }

  /** The payloads of a run of voices, one 7-byte group after another. */
  function VoicesImage(vs: seq<Voice>): (r: seq<Byte>)
    ensures |r| == 7 * |vs|
    decreases |vs|
  {
    if vs == [] then [] else VoicesImage(vs[..|vs| - 1]) + VoiceBytes(vs[|vs| - 1])
  }

  /** The 25 register values of the whole state, in address order. */
  function StateImage(s: SidState): (r: seq<Byte>)
    ensures |r| == 25
  {
    VoicesImage(s.voices) + FilterBytes(s.filter)
  }

  /** The chip's register file after it has seen trace `t`. */
  function Latch(regs: map<nat, Byte>, t: seq<Event>): (r: map<nat, Byte>)
    decreases |t|
  {
    if t == [] then regs
    else
      var next := match t[0]
                  case Spi(b) => if |b| == 2 then regs[b[0] as nat := b[1]] else regs
                  case _ => regs;
      Latch(next, t[1..])
  }

  // ---------------------------------------------------------------------------------------
  // Properties of the protocol.

  /** Writing two runs of values back to back is writing their concatenation. */
  lemma {:induction false} FramesConcat(start: nat, a: seq<Byte>, b: seq<Byte>)
    requires start + |a| + |b| <= 0x100
    ensures Frames(start, a + b) == Frames(start, a) + Frames(start + |a|, b)
    decreases |a|
  {
    if a == [] {
      assert a + b == b;
    } else {
      assert (a + b)[0] == a[0] && (a + b)[1..] == a[1..] + b;
      FramesConcat(start + 1, a[1..], b);
    }
  }

  /** Frame `i` of a run is chip select low, the address `start + i` (masked) with the value
      `values[i]`, chip select high: every value goes out in its own frame, in index order. */
  lemma {:induction false} FrameAt(start: nat, values: seq<Byte>, i: nat)
    requires start + |values| <= 0x100
    requires i < |values|
    ensures Frames(start, values)[3 * i] == CsLow
    ensures Frames(start, values)[3 * i + 1] == Spi([(start + i) % ADDR_SPACE, values[i]])
    ensures Frames(start, values)[3 * i + 2] == CsHigh
    decreases i
  {
    if i > 0 {
      FrameAt(start + 1, values[1..], i - 1);
    }
  }

  lemma {:induction false} LatchConcat(regs: map<nat, Byte>, a: seq<Event>, b: seq<Event>)
    ensures Latch(regs, a + b) == Latch(Latch(regs, a), b)
    decreases |a|
  {
    if a == [] {
      assert a + b == b;
    } else {
      assert (a + b)[0] == a[0] && (a + b)[1..] == a[1..] + b;
      var next := match a[0]
                  case Spi(x) => if |x| == 2 then regs[x[0] as nat := x[1]] else regs
                  case _ => regs;
      LatchConcat(next, a[1..], b);
    }
  }

  /** A run of writes below the mask's range leaves register `start + j` holding `values[j]`
      and every other register as it was. */
  lemma {:induction false} FramesLatch(regs: map<nat, Byte>, start: nat, values: seq<Byte>)
    requires start + |values| <= ADDR_SPACE
    ensures forall a :: a in Latch(regs, Frames(start, values)) <==> a in regs || start <= a < start + |values|
    ensures forall a :: start <= a < start + |values| ==> Latch(regs, Frames(start, values))[a] == values[a - start]
    ensures forall a :: a in regs && (a < start || start + |values| <= a) ==> Latch(regs, Frames(start, values))[a] == regs[a]
    decreases |values|
  {
    if values != [] {
      var first := RegFrame(start, values[0]);
      var rest := Frames(start + 1, values[1..]);
      LatchConcat(regs, first, rest);
      var regs' := regs[start := values[0]];
      assert Latch(regs, first) == regs' by {
        assert first[1..] == [Spi([start, values[0]]), CsHigh];
        assert first[1..][1..] == [CsHigh];
        assert Latch(regs, first) == Latch(regs, first[1..]);
        assert Latch(regs, first[1..]) == Latch(regs', [CsHigh]);
        assert Latch(regs', [CsHigh]) == Latch(regs', []);
      }
      FramesLatch(regs', start + 1, values[1..]);
    }
  }

  /** `reset` drives only the reset line, holding it low across a 10 ms delay. */
  lemma ResetTouchesOnlyResetLine()
    ensures forall i :: 0 <= i < |ResetPulse()| ==> !ResetPulse()[i].CsLow? && !ResetPulse()[i].CsHigh? && !ResetPulse()[i].Spi?
    ensures ResetPulse()[0] == ResLow && ResetPulse()[|ResetPulse()| - 1] == ResHigh
    ensures exists i :: 0 < i < |ResetPulse()| - 1 && ResetPulse()[i].DelayMs? && ResetPulse()[i].ms >= 10
  {
    assert ResetPulse()[1].DelayMs?;
  }

  /** `write_voice(v)` writes the seven payload bytes of voice `v` to addresses `7v .. 7v+6`,
      and the frame carrying each voice register's address carries that register's byte. */
  lemma VoiceFrames(voice: nat, v: Voice)
    requires voice < NUM_VOICES
    ensures Registers.VoiceOffset(Registers.Freq) + Registers.VOICE_REG_OFFSET * voice < 0x100
    ensures Registers.VoiceAddr(Registers.Freq, voice) == 7 * voice
    ensures forall k :: 0 <= k < 7 ==>
              Frames(7 * voice, VoiceBytes(v))[3 * k + 1] == Spi([7 * voice + k, VoiceBytes(v)[k]])
    ensures forall r: Registers.VoiceRegister ::
              Frames(7 * voice, VoiceBytes(v))[3 * Registers.VoiceOffset(r) + 1]
              == Spi([Registers.VoiceAddr(r, voice), VoiceBytes(v)[Registers.VoiceOffset(r)]])
  {
    Registers.VoiceAddrInRange(Registers.Freq, voice);
    forall k | 0 <= k < 7
      ensures Frames(7 * voice, VoiceBytes(v))[3 * k + 1] == Spi([7 * voice + k, VoiceBytes(v)[k]])
    {
      FrameAt(7 * voice, VoiceBytes(v), k);
    }
    forall r: Registers.VoiceRegister
      ensures Frames(7 * voice, VoiceBytes(v))[3 * Registers.VoiceOffset(r) + 1]
              == Spi([Registers.VoiceAddr(r, voice), VoiceBytes(v)[Registers.VoiceOffset(r)]])
    {
      Registers.VoiceAddrInRange(r, voice);
      FrameAt(7 * voice, VoiceBytes(v), Registers.VoiceOffset(r));
    }
  }

  /** `write_filter` writes the four filter payload bytes to 0x15 .. 0x18, register by register. */
  lemma FilterFrames(f: Filter)
    ensures forall r: Registers.FilterRegister ::
              Frames(Registers.FilterAddr(Registers.CutoffLow), FilterBytes(f))[3 * (Registers.FilterAddr(r) - Registers.FilterAddr(Registers.CutoffLow)) + 1]
              == Spi([Registers.FilterAddr(r), FilterBytes(f)[Registers.FilterAddr(r) - Registers.FilterAddr(Registers.CutoffLow)]])
  {
    forall r: Registers.FilterRegister
      ensures Frames(Registers.FilterAddr(Registers.CutoffLow), FilterBytes(f))[3 * (Registers.FilterAddr(r) - Registers.FilterAddr(Registers.CutoffLow)) + 1]
              == Spi([Registers.FilterAddr(r), FilterBytes(f)[Registers.FilterAddr(r) - Registers.FilterAddr(Registers.CutoffLow)]])
    {
      FrameAt(Registers.FilterAddr(Registers.CutoffLow), FilterBytes(f), Registers.FilterAddr(r) - Registers.FilterAddr(Registers.CutoffLow));
    }
  }

  /** Byte `7i + k` of the voices' image is byte `k` of voice `i`'s payload. */
  lemma {:induction false} VoicesImageAt(vs: seq<Voice>, i: nat, k: nat)
    requires i < |vs| && k < 7
    ensures VoicesImage(vs)[7 * i + k] == VoiceBytes(vs[i])[k]
    decreases |vs|
  {
    var front := vs[..|vs| - 1];
    if i < |vs| - 1 {
      VoicesImageAt(front, i, k);
      assert front[i] == vs[i];
    }
  }

  /** Extending a run of voices by one appends that voice's payload after the others. */
  lemma VoicesImageExtend(vs: seq<Voice>, i: nat)
    requires i < |vs|
    ensures |VoicesImage(vs[..i])| == 7 * i
    ensures VoicesImage(vs[..i + 1]) == VoicesImage(vs[..i]) + VoiceBytes(vs[i])
  {
    assert vs[..i + 1][..i] == vs[..i];
  }

  /** `write_voices` writes voice 0, then voice 1, then voice 2. */
  lemma VoicesInOrder(vs: VoiceBank)
    ensures Frames(0, VoicesImage(vs))
            == Frames(0, VoiceBytes(vs[0])) + Frames(7, VoiceBytes(vs[1])) + Frames(14, VoiceBytes(vs[2]))
  {
    assert vs[..1] == [vs[0]] && vs[..2] == vs[..1] + [vs[1]] && vs[..3] == vs;
    assert VoicesImage([]) == [];
    assert VoicesImage(vs[..1]) == VoiceBytes(vs[0]);
    assert VoicesImage(vs[..2]) == VoiceBytes(vs[0]) + VoiceBytes(vs[1]);
    FramesConcat(0, VoiceBytes(vs[0]) + VoiceBytes(vs[1]), VoiceBytes(vs[2]));
    FramesConcat(0, VoiceBytes(vs[0]), VoiceBytes(vs[1]));
  }

  /** `initialize` sends 25 frames; frame `i` writes address `i` (the 0x1F mask is the
      identity on all of them), so every address 0x00 .. 0x18 is written exactly once and in
      increasing order. */
  lemma InitializeFrames(s: SidState)
    ensures |Frames(0, StateImage(s))| == 75
    ensures forall i :: 0 <= i < 25 ==>
              && Frames(0, StateImage(s))[3 * i] == CsLow
              && Frames(0, StateImage(s))[3 * i + 1] == Spi([i, StateImage(s)[i]])
              && Frames(0, StateImage(s))[3 * i + 2] == CsHigh
  {
    forall i | 0 <= i < 25
      ensures && Frames(0, StateImage(s))[3 * i] == CsLow
              && Frames(0, StateImage(s))[3 * i + 1] == Spi([i, StateImage(s)[i]])
              && Frames(0, StateImage(s))[3 * i + 2] == CsHigh
    {
      FrameAt(0, StateImage(s), i);
    }
  }

  /** After `initialize`, from any register contents, every voice register of every voice
      and every filter register holds the byte the state's payload puts there. */
  lemma InitializeLoadsRegisters(regs: map<nat, Byte>, s: SidState)
    ensures var loaded := Latch(regs, Frames(0, StateImage(s)));
            && (forall r: Registers.VoiceRegister, v: nat | v < NUM_VOICES ::
                  Registers.VoiceAddr(r, v) in loaded
                  && loaded[Registers.VoiceAddr(r, v)] == VoiceBytes(s.voices[v])[Registers.VoiceOffset(r)])
            && (forall f: Registers.FilterRegister ::
                  Registers.FilterAddr(f) in loaded
                  && loaded[Registers.FilterAddr(f)] == FilterBytes(s.filter)[Registers.FilterAddr(f) - Registers.FilterAddr(Registers.CutoffLow)])
  {
    var image := StateImage(s);
    FramesLatch(regs, 0, image);
    forall r: Registers.VoiceRegister, v: nat | v < NUM_VOICES
      ensures image[Registers.VoiceAddr(r, v)] == VoiceBytes(s.voices[v])[Registers.VoiceOffset(r)]
    {
      Registers.VoiceAddrInRange(r, v);
      VoicesImageAt(s.voices, v, Registers.VoiceOffset(r));
    }
    forall f: Registers.FilterRegister
      ensures image[Registers.FilterAddr(f)] == FilterBytes(s.filter)[Registers.FilterAddr(f) - Registers.FilterAddr(Registers.CutoffLow)]
    {
    }
  }

  /** After `new`, `initialize` loads each voice group with 31 1C 00 08 40 00 70 and the
      filter block with 00 00 00 07. */
  lemma DefaultStateImage()
    ensures var d := [0x31, 0x1C, 0x00, 0x08, 0x40, 0x00, 0x70];
            StateImage(NewState()) == d + d + d + [0x00, 0x00, 0x00, 0x07]
  {
    var s := NewState();
    var d: seq<Byte> := [0x31, 0x1C, 0x00, 0x08, 0x40, 0x00, 0x70];
    assert s.voices[..1] == [DefaultVoice()] && s.voices[..2] == [DefaultVoice(), DefaultVoice()];
    assert VoicesImage(s.voices[..0]) == [];
    assert VoicesImage(s.voices[..1]) == d;
    assert VoicesImage(s.voices[..2]) == d + d;
    assert s.voices[..3] == s.voices;
  }

  // ---------------------------------------------------------------------------------------
  // The driver.

  /** `Sid`: the capabilities and the state snapshot. No write operation changes `state`
      (none of them may modify `this`). */
  class Sid {
    const bus: Bus
    var state: SidState

    /** `Sid::new`: stores the capabilities and the default state, touches nothing, never fails. */
    constructor (bus: Bus)
      ensures this.bus == bus && state == NewState()
      ensures bus.trace == old(bus.trace)
    {
      this.bus := bus;
      state := NewState();
    }

    /** `write_reg`: one chip-select-framed two-byte transfer. */
    method WriteReg(addr: Byte, value: Byte)
      modifies bus
      ensures bus.trace == old(bus.trace) + RegFrame(addr, value)
    {
      var bytes := [addr % ADDR_SPACE, value];
      bus.SetCsLow();
      bus.Write(bytes);
      bus.SetCsHigh();
    }

    /** `write_regs`: one register write per value, at `start_addr + i` for value `i`. */
    method WriteRegs(start: Byte, values: seq<Byte>)
      requires start + |values| <= 0x100
      modifies bus
      ensures bus.trace == old(bus.trace) + Frames(start, values)
    {
      var i := 0;
      while i < |values|
        invariant 0 <= i <= |values|
        invariant bus.trace == old(bus.trace) + Frames(start, values[..i])
      {
        assert values[..i + 1] == values[..i] + [values[i]];
        FramesConcat(start, values[..i], [values[i]]);
        WriteReg(start + i, values[i]);
        i := i + 1;
      }
      assert values[..i] == values;
    }

    /** `reset`: hold the reset line low for 10 ms. */
    method Reset()
      modifies bus
      ensures bus.trace == old(bus.trace) + ResetPulse()
    {
      bus.SetResLow();
      bus.Delay(10);
      bus.SetResHigh();
    }

    /** `write_filter`: the filter payload from CutoffLow on. */
    method WriteFilter()
      modifies bus
      ensures bus.trace == old(bus.trace) + Frames(Registers.FilterAddr(Registers.CutoffLow), FilterBytes(state.filter))
    {
      var buf := new Byte[4];
      FilterPayload(state.filter, buf);
      WriteRegs(Registers.FilterAddr(Registers.CutoffLow), buf[..]);
    }

    /** `write_voice`: the payload of voice `voice` from its Freq register on. */
    method WriteVoice(voice: nat)
      requires voice < NUM_VOICES
      modifies bus
      ensures Registers.VoiceOffset(Registers.Freq) + Registers.VOICE_REG_OFFSET * voice < 0x100
      ensures bus.trace == old(bus.trace) + Frames(Registers.VoiceAddr(Registers.Freq, voice), VoiceBytes(state.voices[voice]))
    {
      Registers.VoiceAddrInRange(Registers.Freq, voice);
      var buf := new Byte[7];
      VoicePayload(state.voices[voice], buf);
      WriteRegs(Registers.VoiceAddr(Registers.Freq, voice), buf[..]);
    }

    /** `write_voices`: voices 0, 1 and 2, in that order. */
    method WriteVoices()
      modifies bus
      ensures bus.trace == old(bus.trace) + Frames(0, VoicesImage(state.voices))
    {
      ghost var voices := state.voices;
      for i := 0 to NUM_VOICES
        invariant state.voices == voices
        invariant bus.trace == old(bus.trace) + Frames(0, VoicesImage(voices[..i]))
      {
        VoicesImageExtend(voices, i);
        Registers.VoiceAddrInRange(Registers.Freq, i);
        FramesConcat(0, VoicesImage(voices[..i]), VoiceBytes(voices[i]));
        WriteVoice(i);
      }
      assert voices[..NUM_VOICES] == voices;
    }

    /** `initialize`: all voices, then the filter. */
    method Initialize()
      modifies bus
      ensures bus.trace == old(bus.trace) + Frames(0, StateImage(state))
    {
      WriteVoices();
      WriteFilter();
      FramesConcat(0, VoicesImage(state.voices), FilterBytes(state.filter));
    }
  }
}
