/** The fixed-width unsigned integers of the interpreter, and what its bit
    operations compute.

    The C++ members are `uint8_t`, `uint16_t` and `uint32_t`. The model keeps
    them as integers bounded to their width; every place where the C++ code
    truncates (a compound assignment, a narrowing store) is written out as a
    reduction modulo 2^8 or 2^16. The instruction word is taken apart with masks
    and shifts in the source and with division and remainder in the model; the
    lemmas below show that both give the same numbers. */
module Word {

  newtype u8 = n: int | 0 <= n < 0x100
  newtype u16 = n: int | 0 <= n < 0x1_0000
  newtype u32 = n: int | 0 <= n < 0x1_0000_0000

  /** The value a `uint8_t` keeps when n is stored into it: the one byte that
      differs from n by a multiple of 256, which is n itself when n fits. */
  function Wrap8(n: int): (r: u8)
    ensures (n - r as int) % 0x100 == 0
    ensures 0 <= n < 0x100 ==> r as int == n
  {
    (n % 0x100) as u8
  }

  /** The value a `uint16_t` keeps when n is stored into it: the one 16-bit
      value that differs from n by a multiple of 65536, n itself when n fits. */
  function Wrap16(n: int): (r: u16)
    ensures (n - r as int) % 0x1_0000 == 0
    ensures 0 <= n < 0x1_0000 ==> r as int == n
  {
    (n % 0x1_0000) as u16
  }

  /** A 16-bit word is its upper bits times 2^k plus its low k bits, for k = 4, 8, 12. */
  lemma Split4(w: bv16)
    ensures w as int == (w >> 4) as int * 0x10 + (w & 0xF) as int
    ensures (w & 0xF) as int < 0x10
  {
    assert w as int == ((w >> 4) << 4) as int + (w & 0xF) as int;
    assert ((w >> 4) << 4) as int == (w >> 4) as int * 0x10;
  }

  lemma Split8(w: bv16)
    ensures w as int == (w >> 8) as int * 0x100 + (w & 0xFF) as int
    ensures (w & 0xFF) as int < 0x100
  {
    assert w as int == ((w >> 8) << 8) as int + (w & 0xFF) as int;
    assert ((w >> 8) << 8) as int == (w >> 8) as int * 0x100;
  }

  lemma Split12(w: bv16)
    ensures w as int == (w >> 12) as int * 0x1000 + (w & 0xFFF) as int
    ensures (w & 0xFFF) as int < 0x1000
  {
    assert w as int == ((w >> 12) << 12) as int + (w & 0xFFF) as int;
    assert ((w >> 12) << 12) as int == (w >> 12) as int * 0x1000;
  }

  /** Quotient and remainder are unique, for the three divisors the decoders use. */
  lemma DivMod16(n: int, q: int, r: int)
    requires 0 <= r < 0x10 && n == q * 0x10 + r
    ensures n / 0x10 == q && n % 0x10 == r
  {}

  lemma DivMod256(n: int, q: int, r: int)
    requires 0 <= r < 0x100 && n == q * 0x100 + r
    ensures n / 0x100 == q && n % 0x100 == r
  {}

  lemma DivMod4096(n: int, q: int, r: int)
    requires 0 <= r < 0x1000 && n == q * 0x1000 + r
    ensures n / 0x1000 == q && n % 0x1000 == r
  {}

  /** The nibbles of a 16-bit number: its remainder modulo 4096 is its third
      nibble times 256 plus its low byte, and its low byte is its second nibble
      times 16 plus its low nibble. */
  lemma Nibbles(n: int)
    requires 0 <= n < 0x10000
    ensures n % 0x1000 == n / 0x100 % 0x10 * 0x100 + n % 0x100
    ensures n % 0x100 == n / 0x10 % 0x10 * 0x10 + n % 0x10
  {
    var hi, lo := n / 0x100, n % 0x100;
    assert n == hi / 0x10 * 0x1000 + (hi % 0x10 * 0x100 + lo);
    DivMod4096(n, hi / 0x10, hi % 0x10 * 0x100 + lo);
    var mid, low := n / 0x10, n % 0x10;
    assert n == mid / 0x10 * 0x100 + (mid % 0x10 * 0x10 + low);
    DivMod256(n, mid / 0x10, mid % 0x10 * 0x10 + low);
  }

  /** Masking with 0xF, 0xFF and 0xFFF keeps the value modulo 16, 256 and 4096;
      a right shift by 4 divides by 16. */
  lemma Mask4(w: bv16)
    ensures (w & 0xF) as int == w as int % 0x10
    ensures (w >> 4) as int == w as int / 0x10
  {
    Split4(w);
    DivMod16(w as int, (w >> 4) as int, (w & 0xF) as int);
  }

  lemma Mask8(w: bv16)
    ensures (w & 0xFF) as int == w as int % 0x100
    ensures (w >> 8) as int == w as int / 0x100
  {
    Split8(w);
    DivMod256(w as int, (w >> 8) as int, (w & 0xFF) as int);
  }

  lemma Mask12(w: bv16)
    ensures (w & 0xFFF) as int == w as int % 0x1000
  {
    Split12(w);
    DivMod4096(w as int, (w >> 12) as int, (w & 0xFFF) as int);
  }

  /** A right shift by one halves a byte; its low bit is its parity. */
  lemma Shift1(a: bv8)
    ensures (a >> 1) as int == a as int / 2
    ensures (a & 1) as int == a as int % 2
  {}
}
