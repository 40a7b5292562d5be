/** Operand fields of a 16-bit CHIP-8 instruction word: the register numbers
    x and y, the byte kk and the address nnn (Cowgod's Chip-8 Technical
    Reference, section 3.0). The model reads them off as hexadecimal digits;
    `MasksExtractFields` shows that the masks and shifts of the handlers give
    the same numbers. */
module Operands {
  import opened Word

  /** A register number: the file has sixteen registers V0..VF. */
  type Reg = i: int | 0 <= i < 16

  /** VF, the register the arithmetic instructions use as their flag. */
  const VF: Reg := 15

  /** x, the second hexadecimal digit of the instruction word: the digit that
      weighs 0x100 in the low twelve bits. */
  function X(opcode: u16): (x: Reg)
    ensures x * 0x100 <= opcode as int % 0x1000 < (x + 1) * 0x100
  {
    Nibbles(opcode as int);
    opcode as int / 0x100 % 0x10
  }

  /** y, the third hexadecimal digit: the digit that weighs 0x10 in the low
      byte. */
  function Y(opcode: u16): (y: Reg)
    ensures y * 0x10 <= opcode as int % 0x100 < (y + 1) * 0x10
  {
    Nibbles(opcode as int);
    opcode as int / 0x10 % 0x10
  }

  /** kk, the low byte: the only byte that differs from the word by a multiple
      of 0x100. */
  function Byte(opcode: u16): (kk: u8)
    ensures (opcode as int - kk as int) % 0x100 == 0
  {
    (opcode as int % 0x100) as u8
  }

  /** nnn, the low twelve bits: below 0x1000, and differing from the word by
      a multiple of 0x1000. */
  function Address(opcode: u16): (nnn: u16)
    ensures nnn < 0x1000 && (opcode as int - nnn as int) % 0x1000 == 0
  {
    (opcode as int % 0x1000) as u16
  }

  /** On every 16-bit instruction word, `(opcode & 0x0F00) >> 8` is x,
      `(opcode & 0x00F0) >> 4` is y, `opcode & 0x00FF` is kk and
      `opcode & 0x0FFF` is nnn. */
  lemma MasksExtractFields(w: bv16)
    ensures ((w & 0x0F00) >> 8) as int == X(w as int as u16)
    ensures ((w & 0x00F0) >> 4) as int == Y(w as int as u16)
    ensures (w & 0x00FF) as int == Byte(w as int as u16) as int
    ensures (w & 0x0FFF) as int == Address(w as int as u16) as int
  {
    assert (w & 0x0F00) >> 8 == (w >> 8) & 0xF;
    Mask8(w);
    Mask4(w >> 8);
    assert (w & 0x00F0) >> 4 == (w >> 4) & 0xF;
    Mask4(w);
    Mask4(w >> 4);
    Mask12(w);
  }
}
