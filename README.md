# CHIP-8 machine state and instruction handlers

This project models, in Dafny, the `Chip8` class of `chip8.cpp`, a partial
CHIP-8 interpreter. Its mnemonics follow section 3.1 of Cowgod's Chip-8
Technical Reference. The model covers:

- the machine state;
- the constructor, which sets the program counter to 0x200 and copies the
  font to 0x50..0x9F;
- the loop that copies a program into memory from 0x200;
- the handlers 00E0, 00EE, 1nnn, 2nnn, 3xkk, 4xkk, 5xy0, 6xkk, 7xkk and
  8xy0 to 8xy6.

The source has no fetch and dispatch routine. A caller sets `opcode` and then
calls one handler.

Modules:

- `Word`: the `uint8_t`, `uint16_t` and `uint32_t` members as integers bounded
  to their width. Every truncation the C++ code performs is written out as a
  reduction modulo 2^8 or 2^16. The module also proves the facts about masks
  and shifts on 16-bit words that the decoders rely on.
- `Operands`: the fields x, y, kk and nnn of an instruction word. A lemma
  shows that they are exactly what the handlers' masks and shifts extract.
- `Registers`: what 8xy0 to 8xy6 do to the register file V0..VF.
- `Control`: the conditional skip of 3xkk, 4xkk and 5xy0.
- `Display`: the 64 x 32 framebuffer and the effect of 00E0 on it.
- `Interpreter`: the class `Chip8`. Its handlers update the arrays and fields
  in place. Each `modifies` clause names exactly what the handler writes, and
  each postcondition states the new state as a function of the old one.

The model follows the code as written, including four places where the code
does not do what the instruction set describes:

- **2nnn pushes the call target.** It assigns `pc = nnn` before
  `stack[sp] = pc`, so the stack receives nnn, not the return address. A call
  followed by a return leaves the program counter at nnn
  (`Interpreter.CallThenReturn`).
- **00E0 clears only the top eight rows.** Its `memset` is given
  64 * 32 = 2048 as a count. `memset` counts bytes, and a pixel is a 4-byte
  `uint32_t`, so only pixels 0..511 are cleared (`Display.ClearBlanksTopRows`).
- **The flag is written before Vx in 8xy4, 8xy5 and 8xy6.** Vx and Vy are read
  again after the flag is stored. So with y = F the result is computed from the
  new flag, and with x = F the flag is overwritten by the result. The case
  lemmas in `Registers` state what each instruction then leaves in Vx and VF.
- **8xy6 shifts Vy.** It stores the low bit of Vy in VF and Vy shifted right
  in Vx; the old Vx is never read (`Registers.ShiftIgnoresVx`).

Three of these are departures from Cowgod's Chip-8 Technical Reference,
section 3.1: there 00E0 clears the whole display, 2nnn puts the current
program counter (the return address) on the top of the stack, and 8xy6 tests
the low bit of Vx and halves Vx.

The constructor sets only `pc` and the font bytes. The other members are
default-initialised, which in C++ leaves the scalar fields and the plain arrays
of a `Chip8` created on the stack or with `new` with indeterminate values, so
the model's constructor promises nothing about them.

## Model

| member | source | states |
|---|---|---|
| Operands.MasksExtractFields | chip8.cpp:121-167 | on every 16-bit instruction word, `(opcode & 0x0F00) >> 8`, `(opcode & 0x00F0) >> 4`, `opcode & 0x00FF` and `opcode & 0x0FFF` are the second hexadecimal digit x, the third digit y, the low byte kk and the low twelve bits nnn; so x and y are register numbers below 16 |
| Operands.X | chip8.cpp:142 | x is the hexadecimal digit of weight 0x100 in the low twelve bits of the word: 0x100 * x <= opcode mod 0x1000 < 0x100 * (x + 1), so a register number below 16 |
| Operands.Y | chip8.cpp:167 | y is the digit of weight 0x10 in the low byte: 0x10 * y <= opcode mod 0x100 < 0x10 * (y + 1) |
| Operands.Byte | chip8.cpp:143 | kk is the byte that differs from the word by a multiple of 0x100 |
| Operands.Address | chip8.cpp:121 | nnn is below 0x1000 and differs from the word by a multiple of 0x1000 |
| Word.Wrap8 | chip8.cpp:190 | the value a `uint8_t` keeps: the byte congruent to the stored number modulo 256, and the number itself when it fits; 7xkk, 8xy4 (line 251) and 8xy5 (line 269) store through it |
| Word.Wrap16 | chip8.cpp:145 | the value the `uint16_t` program counter keeps: congruent to the number modulo 2^16, and the number itself when it fits |
| Interpreter.Copied | chip8.cpp:88-91 | memory after the first n iterations of a copy loop `memory[base + i] = src[i]`: bytes base..base+n-1 hold src[0..n-1] in order and every other byte is unchanged; the font loop at lines 62-65 is the same loop with base 0x50 |
| Interpreter.Chip8.constructor | chip8.cpp:55-70 | afterwards the arrays have their declared sizes, `pc` is 0x200, and memory 0x50..0x9F holds the 80 font bytes in order; the copy loop keeps memory equal to Copied of its initial contents |
| Interpreter.Chip8.LoadROM | chip8.cpp:88-91 | memory becomes Copied of the old memory with base 0x200 and all of the program: byte i of the program ends up at 0x200 + i, and every other memory byte is unchanged |
| Display.ZeroPixels | chip8.cpp:103-105 | the framebuffer with its first n pixels 0 and the remaining pixels unchanged |
| Interpreter.Chip8.OP_00E0 | chip8.cpp:103-105 | the framebuffer becomes ZeroPixels of the old one with n = 2048 bytes / 4 bytes per pixel = 512; nothing else changes |
| Display.ClearBlanksTopRows | chip8.cpp:103-105 | after 00E0 the pixel at (col, row) is cleared to 0 when row < 8, and every pixel in rows 8..31 keeps its value |
| Interpreter.Chip8.OP_00EE | chip8.cpp:111-114 | `sp` goes down by one and `pc` becomes the stack entry at the new `sp`; nothing else changes (requires 0 < sp <= 16) |
| Interpreter.Chip8.OP_1nnn | chip8.cpp:120-123 | `pc` becomes nnn; nothing else changes |
| Interpreter.Chip8.OP_2nnn | chip8.cpp:129-135 | `pc` becomes nnn, `sp` goes up by one, and the stack entry at the old `sp` becomes nnn with every other entry unchanged; unless the caller was already at nnn, the pushed value is not the old `pc` (requires sp < 16) |
| Interpreter.CallThenReturn | chip8.cpp:111-135 | 2nnn followed by 00EE restores `sp` but leaves `pc` at nnn, so it never returns to a caller that was elsewhere |
| Control.SkipIf | chip8.cpp:144-146 | when the condition holds, the new `pc` is the old one plus 2 modulo 2^16; otherwise `pc` does not move; 4xkk (lines 156-158) and 5xy0 (lines 168-170) share it |
| Control.SkipMoves | chip8.cpp:141-147 | a skip moves `pc` to (pc + 2) mod 2^16, and the counter moves exactly when the condition holds, even where it wraps |
| Control.EqualOrNotEqualSkips | chip8.cpp:141-159 | on the same Vx, kk and pc, exactly one of 3xkk and 4xkk skips |
| Interpreter.Chip8.OP_3xkk | chip8.cpp:141-147 | `pc` is skipped past the next instruction exactly when Vx = kk; nothing else changes |
| Interpreter.Chip8.OP_4xkk | chip8.cpp:153-159 | `pc` is skipped exactly when Vx != kk; nothing else changes |
| Interpreter.Chip8.OP_5xy0 | chip8.cpp:165-171 | `pc` is skipped exactly when Vx = Vy; nothing else changes |
| Registers.Store | chip8.cpp:177-181 | storing into register x changes Vx to the stored value and leaves the other fifteen registers unchanged |
| Interpreter.Chip8.OP_6xnn | chip8.cpp:177-181 | Vx becomes kk; every other register and all other state are unchanged |
| Interpreter.Chip8.OP_7xnn | chip8.cpp:187-191 | Vx becomes (Vx + kk) mod 256 and every register other than Vx is unchanged; no carry is written, so VF changes only when x = F |
| Interpreter.Chip8.OP_8xy0 | chip8.cpp:197-201 | Vx becomes the old Vy; every other register is unchanged |
| Interpreter.Chip8.OP_8xy1 | chip8.cpp:208-212 | Vx becomes Vx OR Vy; every other register is unchanged; with x = y the register file is unchanged |
| Interpreter.Chip8.OP_8xy2 | chip8.cpp:219-223 | Vx becomes Vx AND Vy; every other register is unchanged; with x = y the register file is unchanged |
| Interpreter.Chip8.OP_8xy3 | chip8.cpp:230-234 | Vx becomes Vx XOR Vy; every other register is unchanged; with x = y, Vx becomes 0 |
| Registers.ZeroIdentities | chip8.cpp:211 | a byte ORed with 0 or XORed with 0 (lines 211 and 233) is itself |
| Registers.AndMasks | chip8.cpp:222 | a byte ANDed with 0xFF is itself, and ANDed with 0 is 0 |
| Registers.LogicOnItself | chip8.cpp:211 | a byte ORed or ANDed with itself is itself, and XORed with itself is 0 (the `|`, `&` and `^` of lines 211, 222 and 233); the handlers above use it for x = y |
| Registers.AddRegisters | chip8.cpp:242-253 | the register file after 8xy4; every register other than Vx and VF is unchanged, and for every x other than F, whatever y is, VF ends as the carry: 1 exactly when Vx + Vy > 255 |
| Interpreter.Chip8.OP_8xy4 | chip8.cpp:242-253 | the register file becomes AddRegisters of the old one: the flag is stored first, then Vx is updated from the re-read registers |
| Registers.AddOutsideFlag | chip8.cpp:245-251 | with x, y other than F: VF = 1 exactly when Vx + Vy > 255, and 256 * VF + Vx equals the exact sum of the old Vx and Vy |
| Registers.AddFromFlag | chip8.cpp:245-251 | with y = F and x other than F: Vx gets the carry just stored added to it, mod 256, not the old VF itself; the old VF still decides that carry |
| Registers.AddIntoFlag | chip8.cpp:245-251 | with x = F: VF ends as (carry + Vy) mod 256, or as twice the carry when y = F too; the carry itself is lost |
| Registers.AddCarryExample | chip8.cpp:242-253 | with x, y other than F and distinct, Vx = 250 and Vy = 10 give Vx = 4 and VF = 1 |
| Registers.AddIntoFlagLosesCarry | chip8.cpp:245-251 | 8F04 with VF = 0xFF and V0 = 1 overflows yet leaves VF = 2 |
| Registers.SubRegisters | chip8.cpp:261-271 | the register file after 8xy5; every register other than Vx and VF is unchanged, and for every x other than F, whatever y is, VF ends as 1 exactly when Vx > Vy |
| Interpreter.Chip8.OP_8xy5 | chip8.cpp:261-271 | the register file becomes SubRegisters of the old one: the flag is stored first, then Vx is updated from the re-read registers |
| Registers.SubOutsideFlag | chip8.cpp:264-269 | with x, y other than F: VF = 1 exactly when Vx > Vy, and Vx becomes Vx - Vy, plus 256 when Vy is the larger |
| Registers.SubEqualClearsFlag | chip8.cpp:264-268 | two different registers with equal values give Vx = 0 and VF = 0, since the flag is "greater than", not "no borrow" |
| Registers.SubFromFlag | chip8.cpp:264-269 | with y = F and x other than F: Vx becomes Vx minus the flag just stored, mod 256 |
| Registers.SubIntoFlag | chip8.cpp:264-269 | with x = F: VF ends as (flag - Vy) mod 256, or as 0 when y = F too |
| Registers.SubBorrowExample | chip8.cpp:261-271 | with x, y other than F and distinct, Vx = 5 and Vy = 10 give Vx = 251 and VF = 0 |
| Registers.LowBit | chip8.cpp:281 | the low bit of a byte: 0 or 1, with the same parity as the byte |
| Registers.Half | chip8.cpp:282 | a byte shifted right once: the largest h with 2 * h <= b |
| Registers.ShiftBits | chip8.cpp:281-282 | on every byte, `& 0x1` is its remainder modulo 2 and `>> 1` its half, rounded down |
| Registers.ShiftRegisters | chip8.cpp:278-283 | the register file after 8xy6; every register other than Vx and VF is unchanged, and for every x other than F, whatever y is, VF ends as the low bit of Vy |
| Interpreter.Chip8.OP_8xy6 | chip8.cpp:278-283 | the register file becomes ShiftRegisters of the old one: VF gets the low bit of Vy first, then Vx gets the re-read Vy shifted right |
| Registers.ShiftOutsideFlag | chip8.cpp:281-282 | with x, y other than F no bit is lost: VF < 2 and 2 * Vx + VF equals the old Vy |
| Registers.ShiftFromFlag | chip8.cpp:281-282 | with y = F, Vx ends as 0, because the shifted value is the single bit just stored in VF |
| Registers.ShiftIntoFlag | chip8.cpp:281-282 | with x = F and y other than F, VF ends as Vy / 2 and the shifted-out bit is lost |
| Registers.ShiftIgnoresVx | chip8.cpp:278-283 | unless x = y, the old Vx has no influence on the result of 8xy6 |

## Left out

- The random number generator (`randGen` and `randByte`, chip8.cpp:51-52, 55 and 68) is not modelled. It is seeded from the system clock, and no handler in the file uses it.
- Reading the ROM file in `LoadROM` (opening the stream, `tellg`, `seekg`, `read`, the heap buffer; chip8.cpp:72-96) is I/O and is not modelled. `Interpreter.Chip8.LoadROM` takes the file's bytes as a parameter, already converted from `char` to `uint8_t`. The case of a file that cannot be opened is not modelled, since then nothing is copied.
- `Interpreter.Chip8.LoadROM` requires the program to fit below address 4096. The source does not check this, and writes out of bounds for a larger file.
- `Interpreter.Chip8.OP_2nnn` requires `sp < 16`, and `Interpreter.Chip8.OP_00EE` requires `0 < sp <= 16`. The source does not check these. Without them it indexes past the stack, or wraps the `uint8_t` stack pointer to 255.
- `Interpreter.Chip8.constructor` states nothing about the registers, stack, `sp`, `index`, `opcode`, timers, keypad, framebuffer or the memory outside 0x50..0x9F. The source leaves them uninitialised.
- `memset` is not modelled as a library call. Only its effect on `video` is modelled: its count is taken in bytes.
- `index`, `delayTimer`, `soundTimer` and `keypad` are fields only. No handler in the file reads or writes them.
- The fetch and dispatch of instructions, and every instruction the file does not implement (8xy7, 8xyE, 9xy0, Annn onwards), are not part of the file and are not modelled.
- The handlers compute x, y, kk and nnn by division and remainder rather than by masks. `Operands.MasksExtractFields` shows that the masks give the same values.
- The handlers compute `& 0x1` and `>> 1` on a byte by remainder and division. `Registers.ShiftBits` shows that they agree.
