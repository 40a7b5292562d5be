/** The CHIP-8 machine state and the instruction handlers the interpreter
    implements: 00E0, 00EE, 1nnn, 2nnn, 3xkk, 4xkk, 5xy0, 6xkk, 7xkk and
    8xy0 to 8xy6 (Cowgod's Chip-8 Technical Reference, section 3.1).

    Each handler reads the instruction word from the `opcode` member, which a
    caller sets beforehand, and updates the machine in place. Each handler's
    `modifies` clause names exactly the members it writes, so every other
    member is unchanged. */
module Interpreter {
  import opened Operands
  import opened Registers
  import opened Control
  import opened Display
  import opened Word

  /** Where programs are loaded and where execution starts. */
  const START_ADDRESS := 0x200

  /** Where the font is copied, and its size in bytes. */
  const FONTSET_START_ADDRESS := 0x50
  const FONTSET_SIZE := 80

  /** The sprites of the sixteen hexadecimal digits 0..F, five rows each. */
  const Fontset: seq<u8> := [
    0xF0, 0x90, 0x90, 0x90, 0xF0, // 0
    0x20, 0x60, 0x20, 0x20, 0x70, // 1
    0xF0, 0x10, 0xF0, 0x80, 0xF0, // 2
    0xF0, 0x10, 0xF0, 0x10, 0xF0, // 3
    0x90, 0x90, 0xF0, 0x10, 0x10, // 4
    0xF0, 0x80, 0xF0, 0x10, 0xF0, // 5
    0xF0, 0x80, 0xF0, 0x90, 0xF0, // 6
    0xF0, 0x10, 0x20, 0x40, 0x40, // 7
    0xF0, 0x90, 0xF0, 0x90, 0xF0, // 8
    0xF0, 0x90, 0xF0, 0x10, 0xF0, // 9
    0xF0, 0x90, 0xF0, 0x90, 0x90, // A
    0xE0, 0x90, 0xE0, 0x90, 0xE0, // B
    0xF0, 0x80, 0x80, 0x80, 0xF0, // C
    0xE0, 0x90, 0x90, 0x90, 0xE0, // D
    0xF0, 0x80, 0xF0, 0x80, 0xF0, // E
    0xF0, 0x80, 0xF0, 0x80, 0x80  // F
  ]

  /** Memory after a copy loop `memory[base + i] = src[i]` has run its first n
      iterations: the first n bytes of src sit at base onwards, and every other
      byte is as it was. */
  function Copied(mem: seq<u8>, base: nat, src: seq<u8>, n: nat): (r: seq<u8>)
    requires n <= |src| && base + |src| <= |mem|
    ensures |r| == |mem|
    ensures forall a :: 0 <= a < |mem| ==>
      r[a] == if base <= a < base + n then src[a - base] else mem[a]
  {
    if n == 0 then mem else Copied(mem, base, src, n - 1)[base + n - 1 := src[n - 1]]
  }

  class Chip8 {
    // The arrays are embedded in the object, so their identity never changes.
    const registers: array<u8>
    const memory: array<u8>
    var index: u16
    var pc: u16
    const stack: array<u16>
    var sp: u8
    var delayTimer: u8
    var soundTimer: u8
    const keypad: array<u8>
    const video: array<u32>
    var opcode: u16

    /** The arrays have their declared sizes and are distinct objects. The
        constructor establishes it and every handler keeps it. */
    ghost predicate Valid() {
      registers.Length == 16 && memory.Length == 4096 && stack.Length == 16 &&
      keypad.Length == 16 && video.Length == VIDEO_WIDTH * VIDEO_HEIGHT &&
      registers != memory && registers != keypad && memory != keypad
    }

    /** Sets the program counter to the start of program space and copies the
        font to 0x50..0x9F. Nothing else is initialised by the source. */
    constructor ()
      ensures Valid()
      ensures fresh(registers) && fresh(memory) && fresh(stack) && fresh(keypad) && fresh(video)
      ensures pc as int == START_ADDRESS
      ensures memory[FONTSET_START_ADDRESS .. FONTSET_START_ADDRESS + FONTSET_SIZE] == Fontset
    {
      var mem := new u8[4096];
      registers := new u8[16];
      stack := new u16[16];
      keypad := new u8[16];
      video := new u32[VIDEO_WIDTH * VIDEO_HEIGHT];
      pc := START_ADDRESS as u16;
      ghost var before := mem[..];
      for i := 0 to FONTSET_SIZE
        invariant mem[..] == Copied(before, FONTSET_START_ADDRESS, Fontset, i)
      {
        mem[FONTSET_START_ADDRESS + i] := Fontset[i];
      }
      assert mem[FONTSET_START_ADDRESS .. FONTSET_START_ADDRESS + FONTSET_SIZE] == Fontset;
      memory := mem;
    }

    /** Copies the bytes of a program into memory from 0x200 on, byte by byte.
        Reading the file is left to the caller. */
    method LoadROM(rom: seq<u8>)
      requires Valid()
      ensures Valid()
      requires |rom| <= memory.Length - START_ADDRESS
      modifies memory
      ensures memory[..] == Copied(old(memory[..]), START_ADDRESS, rom, |rom|)
      ensures forall a :: 0 <= a < memory.Length ==>
        memory[a] == if START_ADDRESS <= a < START_ADDRESS + |rom| then rom[a - START_ADDRESS] else old(memory[a])
    {
      for i := 0 to |rom|
        invariant memory[..] == Copied(old(memory[..]), START_ADDRESS, rom, i)
      {
        memory[START_ADDRESS + i] := rom[i];
      }
    }

    /** 00E0 (CLS): zeroes the first 512 pixels; see Display for why not all 2048. */
    method OP_00E0()
      requires Valid()
      ensures Valid()
      modifies video
      ensures video[..] == ZeroPixels(old(video[..]), CLEARED_PIXELS)
    {
      forall i | 0 <= i < CLEARED_PIXELS {
        video[i] := 0;
      }
    }

    /** 00EE (RET): pops the top of the stack into the program counter. */
    method OP_00EE()
      requires Valid()
      ensures Valid()
      requires 0 < sp as int <= stack.Length
      modifies this`sp, this`pc
      ensures sp == old(sp) - 1
      ensures pc == stack[sp]
    {
      sp := sp - 1;
      pc := stack[sp];
    }

    /** 1nnn (JP addr): jumps to nnn. */
    method OP_1nnn()
      requires Valid()
      ensures Valid()
      modifies this`pc
      ensures pc == Address(opcode)
    {
      var address := Address(opcode);
      pc := address;
    }

    /** 2nnn (CALL addr): jumps to nnn and pushes the program counter, which
        by then already holds nnn. So the stack receives the target of the
        call, not the address to return to. */
    method OP_2nnn()
      requires Valid()
      ensures Valid()
      requires sp as int < stack.Length
      modifies this`pc, this`sp, stack
      ensures pc == Address(opcode)
      ensures sp == old(sp) + 1
      ensures stack[..] == old(stack[..])[old(sp) as int := Address(opcode)]
      ensures old(pc) != Address(opcode) ==> stack[old(sp)] != old(pc)
    {
      var address := Address(opcode);
      pc := address;
      stack[sp] := pc;
      sp := sp + 1;
      pc := address;
    }

    /** 3xkk (SE Vx, byte): skips the next instruction if Vx = kk. */
    method OP_3xkk()
      requires Valid()
      ensures Valid()
      modifies this`pc
      ensures pc == SkipIf(registers[X(opcode)] == Byte(opcode), old(pc))
    {
      var vx := X(opcode);
      var byte := Byte(opcode);
      if registers[vx] == byte {
        pc := Wrap16(pc as int + 2);
      }
    }

    /** 4xkk (SNE Vx, byte): skips the next instruction if Vx != kk. */
    method OP_4xkk()
      requires Valid()
      ensures Valid()
      modifies this`pc
      ensures pc == SkipIf(registers[X(opcode)] != Byte(opcode), old(pc))
    {
      var vx := X(opcode);
      var byte := Byte(opcode);
      if registers[vx] != byte {
        pc := Wrap16(pc as int + 2);
      }
    }

    /** 5xy0 (SE Vx, Vy): skips the next instruction if Vx = Vy. */
    method OP_5xy0()
      requires Valid()
      ensures Valid()
      modifies this`pc
      ensures pc == SkipIf(registers[X(opcode)] == registers[Y(opcode)], old(pc))
    {
      var vx := X(opcode);
      var vy := Y(opcode);
      if registers[vx] == registers[vy] {
        pc := Wrap16(pc as int + 2);
      }
    }

    /** 6xkk (LD Vx, byte): Vx := kk. */
    method OP_6xnn()
      requires Valid()
      ensures Valid()
      modifies registers
      ensures registers[..] == Store(old(registers[..]), X(opcode), Byte(opcode))
    {
      var vx := X(opcode);
      var byte := Byte(opcode);
      registers[vx] := byte;
    }

    /** 7xkk (ADD Vx, byte): Vx := Vx + kk modulo 256. No carry is
        written, so VF changes only when x is F. */
    method OP_7xnn()
      requires Valid()
      ensures Valid()
      modifies registers
      ensures registers[..] ==
        Store(old(registers[..]), X(opcode), Wrap8(old(registers[X(opcode)]) as int + Byte(opcode) as int))
    {
      var vx := X(opcode);
      var byte := Byte(opcode);
      registers[vx] := Wrap8(registers[vx] as int + byte as int);
    }

    /** 8xy0 (LD Vx, Vy): Vx := Vy. */
    method OP_8xy0()
      requires Valid()
      ensures Valid()
      modifies registers
      ensures registers[..] == Store(old(registers[..]), X(opcode), old(registers[Y(opcode)]))
    {
      var vx := X(opcode);
      var vy := Y(opcode);
      registers[vx] := registers[vy];
    }

    /** 8xy1 (OR Vx, Vy): Vx := Vx | Vy. */
    method OP_8xy1()
      requires Valid()
      ensures Valid()
      modifies registers
      ensures registers[..] ==
        Store(old(registers[..]), X(opcode), Or8(old(registers[X(opcode)]), old(registers[Y(opcode)])))
      ensures X(opcode) == Y(opcode) ==> registers[..] == old(registers[..])
    {
      var vx := X(opcode);
      var vy := Y(opcode);
      LogicOnItself(registers[vx]);
      registers[vx] := Or8(registers[vx], registers[vy]);
    }

    /** 8xy2 (AND Vx, Vy): Vx := Vx & Vy. */
    method OP_8xy2()
      requires Valid()
      ensures Valid()
      modifies registers
      ensures registers[..] ==
        Store(old(registers[..]), X(opcode), And8(old(registers[X(opcode)]), old(registers[Y(opcode)])))
      ensures X(opcode) == Y(opcode) ==> registers[..] == old(registers[..])
    {
      var vx := X(opcode);
      var vy := Y(opcode);
      LogicOnItself(registers[vx]);
      registers[vx] := And8(registers[vx], registers[vy]);
    }

    /** 8xy3 (XOR Vx, Vy): Vx := Vx ^ Vy. */
    method OP_8xy3()
      requires Valid()
      ensures Valid()
      modifies registers
      ensures registers[..] ==
        Store(old(registers[..]), X(opcode), Xor8(old(registers[X(opcode)]), old(registers[Y(opcode)])))
      ensures X(opcode) == Y(opcode) ==> registers[X(opcode)] == 0
    {
      var vx := X(opcode);
      var vy := Y(opcode);
      LogicOnItself(registers[vx]);
      registers[vx] := Xor8(registers[vx], registers[vy]);
    }

    /** 8xy4 (ADD Vx, Vy): VF := carry, then Vx := Vx + Vy modulo 256. */
    method OP_8xy4()
      requires Valid()
      ensures Valid()
      modifies registers
      ensures registers[..] == AddRegisters(old(registers[..]), X(opcode), Y(opcode))
    {
      var vx := X(opcode);
      var vy := Y(opcode);
      var result: u16 := (registers[vx] as int + registers[vy] as int) as u16;
      if result > 255 {
        registers[VF] := 1;
      } else {
        registers[VF] := 0;
      }
      registers[vx] := Wrap8(registers[vx] as int + registers[vy] as int);
    }

    /** 8xy5 (SUB Vx, Vy): VF := (Vx > Vy), then Vx := Vx - Vy modulo 256. */
    method OP_8xy5()
      requires Valid()
      ensures Valid()
      modifies registers
      ensures registers[..] == SubRegisters(old(registers[..]), X(opcode), Y(opcode))
    {
      var vx := X(opcode);
      var vy := Y(opcode);
      if registers[vx] > registers[vy] {
        registers[VF] := 1;
      } else {
        registers[VF] := 0;
      }
      registers[vx] := Wrap8(registers[vx] as int - registers[vy] as int);
    }

    /** 8xy6 (SHR Vx, Vy): VF := the low bit of Vy, then Vx := Vy >> 1. */
    method OP_8xy6()
      requires Valid()
      ensures Valid()
      modifies registers
      ensures registers[..] == ShiftRegisters(old(registers[..]), X(opcode), Y(opcode))
    {
      var vx := X(opcode);
      var vy := Y(opcode);
      registers[VF] := LowBit(registers[vy]);
      registers[vx] := Half(registers[vy]);
    }
  }

  /** A call followed by a return: the stack pointer comes back to where it
      was, but the program counter is left at the called address, not at the
      caller, because 2nnn pushed the target. */
  method CallThenReturn(m: Chip8)
    requires m.Valid()
    requires m.sp as int < m.stack.Length
    modifies m`pc, m`sp, m.stack
    ensures m.sp == old(m.sp)
    ensures m.pc == Address(m.opcode)
    ensures old(m.pc) != Address(m.opcode) ==> m.pc != old(m.pc)
  {
    m.OP_2nnn();
    m.OP_00EE();
  }
}
