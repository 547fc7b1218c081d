# A verified model of the sid-rs SID driver core

sid-rs is a `no_std` driver for the MOS 6581/8580 SID sound chip. The chip has three
oscillator voices and one shared filter/mixer stage, all programmed through write-only
registers. This project models three parts of the driver in Dafny:

- **The state and its payload encoders** (`src/state.rs`, module `State` in `state.dfy`).
  `Envelope`, `Control`, `Voice`, `Filter` and `SidState` are datatypes, with their
  defaults. Each `Payload::payload` is a method that fills a caller-supplied array in
  place. Each method is proved equal to a pure payload function (`EnvelopeBytes`,
  `ControlBytes`, `VoiceBytes`, `FilterBytes`). Every payload function has a decoder, and
  the lemmas prove that encoder and decoder are inverse in both directions.
- **The register address map** (`src/registers.rs`, module `Registers` in `registers.dfy`).
  A voice register's address is its offset plus 7 times the voice number. The filter block
  starts at 0x15.
- **The transport driver** (`src/lib.rs`, module `Driver` in `driver.dfy`). `Sid` is a
  class that holds the state and a `Bus`. The `Bus` stands for the SPI transport, the
  chip-select pin, the reset pin and the delay source, all recorded as one append-only
  event log. Every driver method is proved to append exactly its protocol events: framed
  two-byte writes, the reset pulse, and the fixed write order of `initialize`. A register-
  file reading of the log (`Latch`) states what `initialize` leaves in the chip.

How Rust's bit operations are modelled (module `Bits` in `bits.dfy`):

- The bounded integer types `u4`, `u11`, `u12`, `u16` and `u8` are subset types of `int`,
  so out-of-range values cannot be built.
- Masks and shifts by constants are written as their exact arithmetic equivalents:
  `x & 0xFF` is `x % 0x100`, `x >> 8` is `x / 0x100`, and `x << 4` is `x * 0x10`.
- Bitwise OR is a recursive function. A lemma proves that `m * 2^k` OR `lo` is
  `m * 2^k + lo` whenever `lo < 2^k`. That is the shape of every OR in the encoders.
- A `FlagSet` is a set of flags. Its `bits()` is the sum of its members' values, which equals
  their OR because the values are distinct powers of two. `VoiceShape` and `FilterKind`
  use 0x10, 0x20, 0x40 and 0x80. `ControlFlag` and `FilterTarget` use the flag-set
  default numbering 1, 2, 4 and 8.

Where the code and other descriptions of this driver disagree, the model follows the code:

- The default voice frequency 7217 is 0x1C31, so the default voice payload starts with
  0x31, 0x1C (not 0x71).
- The default filter has no mode bits set, so its payload is `00 00 00 07`.

`src/lib.rs` does not compile against `src/state.rs`:

- It names `SIDState`, but the type is `SidState`.
- It calls `state.voice(v)` and `state.filter()`, which are not defined.
- It calls `payload()` without a buffer.

The model implements what the code evidently means. `write_voice(v)` fills a fresh 7-byte
buffer with the payload of `state.voices[v]` and writes it. `write_filter` does the same
with a 4-byte buffer and `state.filter`.

## Model

| member | source | states |
|---|---|---|
| Bits.Or | src/state.rs:136 | bitwise OR of two naturals is at least each operand and at most their sum |
| Bits.OrBelow | src/state.rs:166-167 | OR of two values below 2^k stays below 2^k, so the OR of two `u8` values is a `u8` |
| Bits.OrDisjoint | src/state.rs:143-144 | when all bits of `lo` lie below the lowest bit of `hi`, `hi` OR `lo` equals `hi + lo` |
| Bits.Or8 | src/state.rs:166-167 | the OR of two bytes is a byte, at least as large as either operand |
| Bits.PackNibbles | src/state.rs:143-144 | `(hi << 4)` OR `lo` is `16*hi + lo`, and `/16` and `%16` give back `hi` and `lo` |
| Bits.PackHighLow | src/state.rs:136 | a multiple of 16 ORed with a nibble is their sum; `&0xF0` and `&0x0F` give it back |
| State.ShapeBitsRoundTrip | src/state.rs:5-12 | the shape set is recovered from its bits, and those bits are in the high nibble only |
| State.KindBitsRoundTrip | src/state.rs:14-21 | the filter-kind set is recovered from its bits, and those bits are in the high nibble only |
| State.ControlFlagBitsRoundTrip | src/state.rs:42-49 | the control-flag set (Gate=1, Sync=2, RingMod=4, Test=8) is recovered from its bits |
| State.TargetBitsRoundTrip | src/state.rs:85-92 | the routing-target set (Voice1=1, Voice2=2, Voice3=4, External=8) is recovered from its bits |
| State.ShapeBits | src/state.rs:5-12 | the shape set's bits lie in the high nibble only; they are 0 exactly when the set is empty |
| State.KindBits | src/state.rs:14-21 | the filter-kind set's bits lie in the high nibble only; they are 0 exactly when the set is empty |
| State.ControlFlagBits | src/state.rs:42-49 | the control-flag set's bits fit in the low nibble; they are 0 exactly when the set is empty |
| State.TargetBits | src/state.rs:85-92 | the routing-target set's bits fit in the low nibble; they are 0 exactly when the set is empty |
| State.DefaultEnvelope | src/state.rs:31-40 | the default envelope encodes to `[0x00, 0x70]` |
| State.DefaultControl | src/state.rs:57-64 | the default control encodes to `0x40` |
| State.DefaultVoice | src/state.rs:74-83 | the default voice encodes to `[0x31, 0x1C, 0x00, 0x08, 0x40, 0x00, 0x70]` |
| State.DefaultFilter | src/state.rs:103-113 | the default filter encodes to `[0x00, 0x00, 0x00, 0x07]` |
| State.NewState | src/state.rs:115-126 | each of the new state's three voices encodes to the default voice payload, and its filter to the default filter payload |
| State.EnvelopeBytes | src/state.rs:141 | the envelope payload is 2 bytes |
| State.ControlBytes | src/state.rs:134 | the control payload is 1 byte |
| State.VoiceBytes | src/state.rs:149 | the voice payload is 7 bytes |
| State.FilterBytes | src/state.rs:162 | the filter payload is 4 bytes |
| State.EnvelopeLayout | src/state.rs:143-144 | byte 0 is `attack*16 + decay`; byte 1 is `sustain*16 + release` |
| State.EnvelopeRoundTrip | src/state.rs:140-146 | each 4-bit envelope field is recovered as `byte / 16` or `byte % 16` |
| State.EnvelopeBytesOnto | src/state.rs:140-146 | every 2-byte pair is the payload of the envelope it decodes to |
| State.ControlLayout | src/state.rs:136 | the control byte is shape bits (high nibble) plus flag bits (low nibble); `&0xF0` gives the shapes and `&0x0F` the flags |
| State.ControlRoundTrip | src/state.rs:133-138 | a control value is recovered from its control byte |
| State.ControlBytesOnto | src/state.rs:133-138 | every byte is the payload of the control value it decodes to |
| State.VoiceLayout | src/state.rs:152-157 | `b0 + 256*b1 == frequency`; `b3 <= 0x0F`; `b2 + 256*b3 == pwm`; byte 4 is the control payload; bytes 5-6 are the envelope payload |
| State.VoiceRoundTrip | src/state.rs:148-159 | a voice is recovered from its 7 payload bytes |
| State.VoiceBytesOnto | src/state.rs:148-159 | every 7-byte group with `b3 < 16` is the payload of the voice it decodes to |
| State.FilterLayout | src/state.rs:164-167 | `b0 <= 7`; `b0 + 8*b1 == cutoff`; `b2 = resonance*16 + targets`; `b3 = kinds + volume` |
| State.FilterRoundTrip | src/state.rs:161-169 | cutoff, resonance, volume, modes and targets are all recovered from the 4 bytes |
| State.FilterBytesOnto | src/state.rs:161-169 | every 4-byte group with `b0 < 8` is the payload of the filter it decodes to |
| State.ControlPayload | src/state.rs:133-138 | the in-place write leaves the buffer equal to the control payload |
| State.EnvelopePayload | src/state.rs:140-146 | the in-place write leaves the buffer equal to the envelope payload |
| State.VoicePayload | src/state.rs:148-159 | the intended in-place write leaves the buffer equal to the voice payload |
| State.FilterPayload | src/state.rs:161-169 | the in-place write leaves the buffer equal to the filter payload |
| State.VoiceBytesAsWritten | src/state.rs:148-159 | as written, one call stores the frequency at bytes 0-1 and the pulse width at bytes 2-3, little-endian, and leaves bytes 4-6 as they were |
| State.VoicePayloadAsWrittenPanics | src/state.rs:156-157 | as written, `Voice::payload` always panics; bytes 0-3 match the intended payload; bytes 4-6 keep their prior contents |
| State.VoicePayloadAsWrittenDiffers | src/state.rs:156-157 | on a zeroed buffer, byte 4 stays 0 for the default voice, while the intended payload has 0x40 there |
| Registers.VoiceOffset | src/registers.rs:3-9 | each voice register's offset lies inside one 7-register voice group |
| Registers.FilterAddr | src/registers.rs:25-28 | each filter register's address is one of the four addresses right after the three voice groups (0x15-0x18) |
| Registers.VoiceAddr | src/registers.rs:20-22 | defined when the `u8` arithmetic does not overflow; `addr / 7` is the voice and `addr % 7` the register offset |
| Registers.VoiceAddrInRange | src/registers.rs:20-22 | for voices 0-2 there is no overflow, and the group bases are 0, 7 and 14, and addresses are at most 20 |
| Registers.VoiceAddrInjective | src/registers.rs:3-22 | for voices 0-2, equal addresses mean the same register and the same voice |
| Registers.FilterBlockFollowsVoices | src/registers.rs:11-16 | CutoffLow is `3*7 = 0x15`; the filter registers are consecutive; every voice address is below them |
| Registers.VoiceRegistersMatchPayload | src/registers.rs:3-9 | Freq, Pwm, Control, AttackDecay and SustainRelease are the indices of their fields in the voice payload |
| Registers.FilterRegistersMatchPayload | src/registers.rs:11-16 | counted from CutoffLow, each filter register is the index of its field in the filter payload |
| Driver.RegFrame | src/lib.rs:51-56 | for an address in the 32-register space, one write is chip select low, the transfer `[addr, value]`, chip select high: the `& 0x1F` mask changes nothing |
| Driver.RegFrameAliases | src/lib.rs:51-56 | the address sent is always below 0x20, and two addresses 0x20 apart produce the same frame |
| Driver.ResetPulse | src/lib.rs:63-68 | the reset sequence is three events, starting with reset low and ending with reset high |
| Driver.Frames | src/lib.rs:57-61 | writing `n` values produces `3n` events |
| Driver.VoicesImage | src/lib.rs:82-86 | the voice payloads put end to end, 7 bytes per voice |
| Driver.VoicesImageAt | src/lib.rs:82-86 | byte `7i + k` of the voice image is byte `k` of voice `i`'s payload |
| Driver.VoicesImageExtend | src/lib.rs:82-86 | after `i` voices the image is `7i` bytes long; writing voice `i` next appends its payload |
| Driver.StateImage | src/lib.rs:87-90 | the full state is 25 register bytes |
| Driver.FramesConcat | src/lib.rs:57-61 | writing two runs of values back to back produces the same events as writing their concatenation |
| Driver.FrameAt | src/lib.rs:51-61 | frame `i` of `write_regs(s, vals)` is `CsLow, Spi([(s+i) & 0x1F, vals[i]]), CsHigh`, in index order |
| Driver.FramesLatch | src/lib.rs:51-61 | below 0x20, the run leaves register `s+j` holding `vals[j]` and every other register unchanged |
| Driver.ResetTouchesOnlyResetLine | src/lib.rs:63-68 | the reset pulse has no CS or SPI events; it starts with ResLow, ends with ResHigh, and has a delay of at least 10 ms in between |
| Driver.VoiceFrames | src/lib.rs:76-81 | for voices 0-2, `write_voice(v)` writes payload byte `k` to address `7v+k`; each voice register's address gets that register's byte |
| Driver.FilterFrames | src/lib.rs:70-75 | `write_filter` writes each filter register's byte to 0x15..0x18 |
| Driver.VoicesInOrder | src/lib.rs:82-86 | the voices are written as voice 0, voice 1, then voice 2 |
| Driver.InitializeFrames | src/lib.rs:87-90 | `initialize` makes 75 events; frame `i < 25` writes address `i` (the 0x1F mask changes nothing), so each address is written once and in increasing order |
| Driver.InitializeLoadsRegisters | src/lib.rs:87-90 | from any prior register contents, every voice and filter register then holds its byte from the state's payload |
| Driver.DefaultStateImage | src/lib.rs:41-49 | after `new`, `initialize` writes `31 1C 00 08 40 00 70` three times, then `00 00 00 07` |
| Driver.Sid.constructor | src/lib.rs:41-49 | `new` stores the default state, emits no events and never fails |
| Driver.Sid.WriteReg | src/lib.rs:51-56 | appends exactly `CsLow, Spi([addr & 0x1F, value]), CsHigh` |
| Driver.Sid.WriteRegs | src/lib.rs:57-61 | appends the frames of `values` at consecutive addresses from `start` |
| Driver.Sid.Reset | src/lib.rs:63-68 | appends exactly `ResLow, DelayMs(10), ResHigh` |
| Driver.Sid.WriteFilter | src/lib.rs:70-75 | appends the filter payload's frames from 0x15; the state is unchanged |
| Driver.Sid.WriteVoice | src/lib.rs:76-81 | appends voice `v`'s payload frames from address `7v`; the state is unchanged |
| Driver.Sid.WriteVoices | src/lib.rs:82-86 | appends the frames of all three voice payloads from address 0 |
| Driver.Sid.Initialize | src/lib.rs:87-90 | appends the frames of the 25-byte state image from address 0 |

## Findings

| source | as written | input that shows it | evidently intended | confidence | as-written member | corrected member |
|---|---|---|---|---|---|---|
| src/state.rs:156-157 | line 156 writes the control payload into the temporary `[u8; 1]` that `try_into` copies out of `buf[4..5]`, so `buf[4]` is never written; line 157 converts the 1-byte slice `buf[5..6]` to a `[u8; 2]`, and `unwrap` panics | any voice, e.g. the default voice on a zeroed buffer: panic, with byte 4 still 0 instead of 0x40 | control payload at byte 4; envelope payload at bytes 5-6 | high (not executed) | State.VoiceBytesAsWritten | State.VoicePayload |

`State.VoicePayloadAsWrittenPanics` and `State.VoicePayloadAsWrittenDiffers` prove the
as-written behaviour. `State.VoiceBytes` and its lemmas (`VoiceLayout`, `VoiceRoundTrip`,
`VoiceBytesOnto`) define the intended layout and prove its properties. The driver uses only
the corrected payload.

## Left out

- The `embedded_hal` traits (`spi::Write`, `OutputPin`, `DelayMs`) are replaced by the
  `Bus` event log. Real timing and bus behaviour are not modelled.
- The error types `E` and `PinError` are left out. The driver discards every capability
  result with `.ok()`, so the `Bus` methods cannot fail.
- `Sid::new` returns `Result<Self, E>`, but that result is always `Ok`. It is modelled as a
  constructor, which cannot fail.
- The `ux` constructors (`u4::new` and the others, which panic when out of range) are not
  modelled. They belong to the `ux` crate. The subset types make out-of-range values
  unrepresentable instead.
- The internals of the `flagset` crate are left out. Only membership and `bits()` are
  modelled. Adding, removing and combining flags are ordinary set operations on the fields.
- The generic `Payload` trait is left out. Its four implementations are four separate
  methods, each with its own fixed buffer size.
- The shifted-address convention (address shifted left by one, with a reset bit) and the
  microsecond delays are not modelled. Neither appears in this code.
- `SID_FREQ` is not modelled. It is declared and never used.
- The type and name mismatches between `src/lib.rs` and `src/state.rs` are not reproduced.
  The model implements the evident intent described above.
- Registers.VoiceAddr: requires that `offset + 7 * voice` fits in a `u8`. In that range
  `voice as u8` and the `u8` arithmetic are exact. Outside it, `voice as u8` truncates
  modulo 256, and the `u8` product and sum then panic (debug build) or wrap (release build)
  when they exceed 255. None of this is modelled.
- Driver.Sid.WriteRegs: requires `start + |values| <= 256`. Outside that range,
  `start_addr + (i as u8)` would overflow `u8`; this is not modelled.
- Driver.Sid.WriteVoice: requires `voice < 3`. Indexing the three voices with a larger
  number panics in Rust; that panic is not modelled.
- Driver.Latch: this reading of the log is the chip's view of a register write. It stores
  each two-byte SPI transfer and ignores chip-select framing. It is used only to state what
  `initialize` achieves. The framing itself is stated separately, by `FrameAt` and
  `InitializeFrames`.
