/** The conditional skips 3xkk, 4xkk and 5xy0: each advances the 16-bit
    program counter past the next two-byte instruction when its condition holds. */
module Control {
  import opened Word

  /** `if (cond) pc += 2;` on a `uint16_t` program counter: two bytes on,
      modulo 2^16, when the condition holds, and no move otherwise. */
  function SkipIf(cond: bool, pc: u16): (next: u16)
    ensures cond ==> (next as int - pc as int) % 0x1_0000 == 2
    ensures !cond ==> next == pc
  {
    if cond then Wrap16(pc as int + 2) else pc
  }

  /** A skip moves the program counter two bytes on, modulo 2^16, and only a
      skip moves it: even at the top of the address space, where it wraps,
      the counter never stays where it was. */
  lemma SkipMoves(cond: bool, pc: u16)
    ensures cond ==> SkipIf(cond, pc) as int == (pc as int + 2) % 0x1_0000
    ensures (SkipIf(cond, pc) != pc) == cond
  {}

  /** 3xkk (skip if Vx = kk) and 4xkk (skip if Vx != kk) on the same state:
      exactly one of them skips. */
  lemma EqualOrNotEqualSkips(vx: u8, kk: u8, pc: u16)
    ensures (SkipIf(vx == kk, pc) != pc) != (SkipIf(vx != kk, pc) != pc)
  {
    SkipMoves(vx == kk, pc);
    SkipMoves(vx != kk, pc);
  }
}
