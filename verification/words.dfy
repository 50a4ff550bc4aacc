/**
  Unsigned machine words of the 8080 and the C conversions the emulator
  relies on. Values are plain integers restricted to their width; the
  wrap-around that C performs when it stores into a `uint8_t` or a
  `uint16_t` is written out explicitly with `Wrap8` and `Wrap16`.
 */
module Words {

  /** An 8-bit register or memory byte (`uint8_t`). */
  type u8 = x: int | 0 <= x < 0x100

  /** A 16-bit address, register pair or program counter (`uint16_t`). */
  type u16 = x: int | 0 <= x < 0x1_0000

  /** A 32-bit millisecond count (SDL's `Uint32`). */
  type u32 = x: int | 0 <= x < 0x1_0000_0000

  /** Storing any integer into a `uint8_t`: the value modulo 2^8. */
  function Wrap8(x: int): (r: u8)
    ensures (r - x) % 0x100 == 0
    ensures 0 <= x < 0x100 ==> r == x
    ensures 0x100 <= x < 0x200 ==> r == x - 0x100
    ensures -0x100 <= x < 0 ==> r == x + 0x100
  {
    x % 0x100
  }

  /** Storing any integer into a `uint16_t`: the value modulo 2^16. */
  function Wrap16(x: int): (r: u16)
    ensures (r - x) % 0x1_0000 == 0
    ensures 0 <= x < 0x1_0000 ==> r == x
    ensures 0x1_0000 <= x < 0x2_0000 ==> r == x - 0x1_0000
    ensures -0x1_0000 <= x < 0 ==> r == x + 0x1_0000
  {
    x % 0x1_0000
  }

  /** The high byte of a word, `(w & 0xFF00) >> 8`. */
  function High(w: u16): u8
  {
    w / 0x100
  }

  /** The low byte of a word, `w & 0xff`. */
  function Low(w: u16): u8
  {
    w % 0x100
  }

  /** A register pair as the emulator composes it, `(hi << 8) | lo`. */
  function Pair(hi: u8, lo: u8): u16
  {
    hi * 0x100 + lo
  }

  /** Composing two bytes into a word and splitting it again gives the
      two bytes back. */
  lemma HalvesOfPair(hi: u8, lo: u8)
    ensures High(Pair(hi, lo)) == hi && Low(Pair(hi, lo)) == lo
  {
  }

  /** Splitting a word and composing the halves gives the word back. */
  lemma PairOfHalves(w: u16)
    ensures Pair(High(w), Low(w)) == w
  {
  }

  /** Truncating to 16 bits does not change the low byte. */
  lemma LowOfWrap16(x: int)
    ensures Low(Wrap16(x)) == Wrap8(x)
  {
    var q := x / 0x1_0000;
    assert x == q * 0x1_0000 + Wrap16(x);
    assert q * 0x1_0000 == (q * 0x100) * 0x100;
  }

  /** A nonzero multiple of a positive `d` is at least `d` away from 0. */
  lemma MultipleAtLeast(k: int, d: int)
    requires d > 0
    ensures k >= 1 ==> k * d >= d
    ensures k <= -1 ==> k * d <= -d
  {
    assert k * d == (k - 1) * d + d == (k + 1) * d - d;
    assert k >= 1 ==> (k - 1) * d >= 0;
    assert k <= -1 ==> (k + 1) * d <= 0;
  }

  /** The quotient of `q * d + r` by `d` is `q` when `r` is a remainder. */
  lemma DivideExactly(x: int, d: int, q: int, r: int)
    requires d > 0 && 0 <= r < d && x == q * d + r
    ensures x / d == q
  {
    var q', r' := x / d, x % d;
    assert x == q' * d + r';
    assert (q - q') * d == q * d - q' * d == r' - r;
    MultipleAtLeast(q - q', d);
  }

  /** Dividing `hi * 256 + lo` by a divisor `d` of 256 splits into the
      two halves: `hi` scaled by 256 / d plus the quotient of `lo`. */
  lemma DivideWord(hi: int, lo: int, p: int, d: int)
    requires d > 0 && p * d == 0x100
    ensures (hi * 0x100 + lo) / d == hi * p + lo / d
  {
    var q, r := lo / d, lo % d;
    assert hi * 0x100 + lo == (hi * p + q) * d + r by {
      assert hi * 0x100 == (hi * p) * d;
      assert (hi * p + q) * d == (hi * p) * d + q * d;
    }
    DivideExactly(hi * 0x100 + lo, d, hi * p + q, r);
  }
}
