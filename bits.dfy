/** Fixed-width unsigned integers and the bitwise OR used by the payload encoders.

    The driver stores its parameters in constrained-width integers (`u4`, `u11`, `u12`,
    `u16`) and packs them into `u8` register bytes. Here each width is a subset type of
    `int`, so an out-of-range magnitude is unrepresentable, exactly as with the `ux` types.
    Masks and shifts by constants are written as their arithmetic equivalents
    (`x & (2^k - 1)` is `x % 2^k`, `x >> k` is `x / 2^k`, `x << k` is `x * 2^k`); the
    bitwise OR is defined bit by bit, because whether it coincides with addition is a
    property of its operands that the encoders rely on. */
module Bits {

  /** Rust `u8`: one register byte. */
  type Byte = x: int | 0 <= x < 0x100

  /** `ux::u4`: an envelope stage, a resonance or a volume. */
  type U4 = x: int | 0 <= x < 0x10

  /** `ux::u11`: the filter cutoff frequency. */
  type U11 = x: int | 0 <= x < 0x800

  /** `ux::u12`: a pulse width. */
  type U12 = x: int | 0 <= x < 0x1000

  /** Rust `u16`: an oscillator frequency. */
  type U16 = x: int | 0 <= x < 0x1_0000

  function Pow2(k: nat): (p: nat)
    ensures p >= 1
  {
    if k == 0 then 1 else 2 * Pow2(k - 1)
  }

  /** Bitwise OR of two naturals, least significant bit first. */
  function Or(a: nat, b: nat): (r: nat)
    ensures a <= r && b <= r && r <= a + b
    decreases a + b
  {
    if a == 0 then b
    else if b == 0 then a
    else 2 * Or(a / 2, b / 2) + (if a % 2 == 1 || b % 2 == 1 then 1 else 0)
  }

  /** OR never sets a bit at or above the width of both operands. */
  lemma {:induction false} OrBelow(a: nat, b: nat, k: nat)
    requires a < Pow2(k) && b < Pow2(k)
    ensures Or(a, b) < Pow2(k)
  {
    if a != 0 && b != 0 {
      assert k > 0;
      OrBelow(a / 2, b / 2, k - 1);
    }
  }

  /** When every bit of `lo` lies below the lowest bit `hi` may have, OR is addition. */
  lemma {:induction false} OrDisjoint(m: nat, lo: nat, k: nat)
    requires lo < Pow2(k)
    ensures Or(m * Pow2(k), lo) == m * Pow2(k) + lo
  {
    var hi := m * Pow2(k);
    if hi != 0 && lo != 0 {
      assert k > 0;
      var half := m * Pow2(k - 1);
      assert hi == 2 * half;
      OrDisjoint(m, lo / 2, k - 1);
      assert Or(hi, lo) == 2 * Or(half, lo / 2) + lo % 2;
    }
  }

  /** Rust `u8 | u8`. */
  function Or8(a: Byte, b: Byte): (r: Byte)
    ensures a <= r && b <= r
  {
    OrBelow(a, b, 8);
    Or(a, b)
  }

  /** `(hi << 4) | lo` for two nibbles: the byte whose high nibble is `hi` and low nibble `lo`. */
  lemma PackNibbles(hi: U4, lo: U4)
    ensures Or8(hi * 0x10, lo) == hi * 0x10 + lo
    ensures (hi * 0x10 + lo) / 0x10 == hi && (hi * 0x10 + lo) % 0x10 == lo
  {
    OrDisjoint(hi, lo, 4);
  }

  /** The same, for a high part that is already a multiple of 16 (a flag set of high bits). */
  lemma PackHighLow(hi: Byte, lo: U4)
    requires hi % 0x10 == 0
    ensures Or8(hi, lo) == hi + lo
    ensures (hi + lo) / 0x10 * 0x10 == hi && (hi + lo) % 0x10 == lo
  {
    OrDisjoint(hi / 0x10, lo, 4);
  }
}
