/** The register file V0..VF and what the register-to-register instructions
    8xy0 to 8xy6 compute.

    The flag-setting instructions 8xy4 (ADD), 8xy5 (SUB) and 8xy6 (SHR) write
    VF FIRST, and only then Vx, reading the operands again from the register
    file. Each function below computes the register file the handler leaves
    behind in that order of writes, and the lemmas after it spell out what the
    order means case by case:
    - when x and y are both other than VF, the instruction is the textbook one;
    - when y is VF, the result is computed from the flag just stored, not from
      the old VF;
    - when x is VF, the final VF is not the flag but the result. */
module Registers {
  import opened Word
  import opened Operands

  /** The value an instruction stores in VF: 1 for true, 0 for false. */
  function Flag(b: bool): u8
  {
    if b then 1 else 0
  }

  /** `a | b`, `a & b` and `a ^ b` on two `uint8_t` values. */
  function Or8(a: u8, b: u8): u8
  {
    ((a as bv8) | (b as bv8)) as u8
  }

  function And8(a: u8, b: u8): u8
  {
    ((a as bv8) & (b as bv8)) as u8
  }

  function Xor8(a: u8, b: u8): u8
  {
    ((a as bv8) ^ (b as bv8)) as u8
  }

  /** A byte combined with itself: OR and AND give it back, XOR gives 0. */
  lemma LogicOnItself(a: u8)
    ensures Or8(a, a) == a && And8(a, a) == a && Xor8(a, a) == 0
  {}

  /** 0 is the identity of OR and of XOR. */
  lemma ZeroIdentities(a: u8)
    ensures Or8(a, 0) == a && Xor8(a, 0) == a
  {}

  /** 0xFF is the identity of AND, and 0 absorbs it. */
  lemma AndMasks(a: u8)
    ensures And8(a, 0xFF) == a && And8(a, 0) == 0
  {}

  /** The file after `registers[Vx] = value`: only Vx changes. */
  function Store(v: seq<u8>, x: Reg, value: u8): (r: seq<u8>)
    requires |v| == 16
    ensures |r| == 16 && r[x] == value
    ensures forall i :: 0 <= i < 16 && i != x ==> r[i] == v[i]
  {
    v[x := value]
  }

  /** 8xy4: VF := (Vx + Vy > 255), with the sum taken in a `uint16_t`, where
      it cannot overflow; then `Vx += Vy` modulo 256, with Vx and Vy read
      again. */
  function AddRegisters(v: seq<u8>, x: Reg, y: Reg): (r: seq<u8>)
    requires |v| == 16
    ensures |r| == 16
    ensures forall i :: 0 <= i < 16 && i != x && i != VF ==> r[i] == v[i]
    ensures x != VF ==> r[VF] == Flag(v[x] as int + v[y] as int > 0xFF)
  {
    var w := Store(v, VF, Flag(v[x] as int + v[y] as int > 0xFF));
    Store(w, x, Wrap8(w[x] as int + w[y] as int))
  }

  /** With x and y both other than VF, 8xy4 is ADD with carry: the carry in VF
      and the byte in Vx together make the exact sum. */
  lemma AddOutsideFlag(v: seq<u8>, x: Reg, y: Reg)
    requires |v| == 16 && x != VF && y != VF
    ensures AddRegisters(v, x, y)[VF] == Flag(v[x] as int + v[y] as int > 0xFF)
    ensures 0x100 * AddRegisters(v, x, y)[VF] as int + AddRegisters(v, x, y)[x] as int
      == v[x] as int + v[y] as int
  {
    var sum := v[x] as int + v[y] as int;
    if sum > 0xFF {
      assert sum % 0x100 == sum - 0x100;
    }
  }

  /** With y = VF, 8xy4 adds the carry it has just stored, not the old VF. */
  lemma AddFromFlag(v: seq<u8>, x: Reg)
    requires |v| == 16 && x != VF
    ensures AddRegisters(v, x, VF)[x] as int ==
      (v[x] as int + Flag(v[x] as int + v[VF] as int > 0xFF) as int) % 0x100
  {}

  /** With x = VF, 8xy4 overwrites the carry: VF ends as carry + Vy, and as
      twice the carry when y = VF too. */
  lemma AddIntoFlag(v: seq<u8>, y: Reg)
    requires |v| == 16
    ensures y != VF ==>
      AddRegisters(v, VF, y)[VF] as int == (Flag(v[VF] as int + v[y] as int > 0xFF) as int + v[y] as int) % 0x100
    ensures y == VF ==> AddRegisters(v, VF, y)[VF] as int == 2 * Flag(v[VF] as int > 0x7F) as int
  {}

  /** With both operands other than VF, 8xy4 on 250 and 10 leaves 4 and a carry. */
  lemma AddCarryExample(v: seq<u8>, x: Reg, y: Reg)
    requires |v| == 16 && x != VF && y != VF && x != y
    requires v[x] == 250 && v[y] == 10
    ensures AddRegisters(v, x, y)[x] == 4 && AddRegisters(v, x, y)[VF] == 1
  {
    AddOutsideFlag(v, x, y);
  }

  /** Adding into VF loses the carry: with VF = 0xFF and V0 = 1 the sum
      overflows, yet 8F04 leaves VF = 2, the flag plus V0. */
  lemma AddIntoFlagLosesCarry(v: seq<u8>)
    requires |v| == 16 && v[VF] == 0xFF && v[0] == 1
    ensures AddRegisters(v, VF, 0)[VF] == 2
  {
    AddIntoFlag(v, 0);
  }

  /** 8xy5: VF := (Vx > Vy); then `Vx -= Vy` modulo 256, with Vx and Vy read
      again. */
  function SubRegisters(v: seq<u8>, x: Reg, y: Reg): (r: seq<u8>)
    requires |v| == 16
    ensures |r| == 16
    ensures forall i :: 0 <= i < 16 && i != x && i != VF ==> r[i] == v[i]
    ensures x != VF ==> r[VF] == Flag(v[x] as int > v[y] as int)
  {
    var w := Store(v, VF, Flag(v[x] as int > v[y] as int));
    Store(w, x, Wrap8(w[x] as int - w[y] as int))
  }

  /** With x and y both other than VF, 8xy5 is SUB: Vx gets the difference,
      borrowing 256 when Vy is larger, and VF is set exactly when Vx > Vy. */
  lemma SubOutsideFlag(v: seq<u8>, x: Reg, y: Reg)
    requires |v| == 16 && x != VF && y != VF
    ensures SubRegisters(v, x, y)[VF] == Flag(v[x] as int > v[y] as int)
    ensures SubRegisters(v, x, y)[x] as int ==
      if v[x] >= v[y] then v[x] as int - v[y] as int else v[x] as int - v[y] as int + 0x100
  {
    var d := v[x] as int - v[y] as int;
    if d < 0 {
      assert d % 0x100 == d + 0x100;
    }
  }

  /** VF is set on "greater than", not on "no borrow": two different registers
      holding the same value give 0 in Vx and 0 in VF, although nothing was
      borrowed. */
  lemma SubEqualClearsFlag(v: seq<u8>, x: Reg, y: Reg)
    requires |v| == 16 && x != VF && y != VF && x != y && v[x] == v[y]
    ensures SubRegisters(v, x, y)[x] == 0 && SubRegisters(v, x, y)[VF] == 0
  {
    SubOutsideFlag(v, x, y);
  }

  /** With y = VF, 8xy5 subtracts the flag it has just stored, not the old VF. */
  lemma SubFromFlag(v: seq<u8>, x: Reg)
    requires |v| == 16 && x != VF
    ensures SubRegisters(v, x, VF)[x] as int ==
      (v[x] as int - Flag(v[x] as int > v[VF] as int) as int) % 0x100
  {}

  /** With x = VF, 8xy5 overwrites the flag: VF ends as flag - Vy, and as 0
      when y = VF too. */
  lemma SubIntoFlag(v: seq<u8>, y: Reg)
    requires |v| == 16
    ensures y != VF ==>
      SubRegisters(v, VF, y)[VF] as int == (Flag(v[VF] as int > v[y] as int) as int - v[y] as int) % 0x100
    ensures y == VF ==> SubRegisters(v, VF, y)[VF] == 0
  {}

  /** With both operands other than VF, 8xy5 on 5 and 10 leaves 251 and no flag. */
  lemma SubBorrowExample(v: seq<u8>, x: Reg, y: Reg)
    requires |v| == 16 && x != VF && y != VF && x != y
    requires v[x] == 5 && v[y] == 10
    ensures SubRegisters(v, x, y)[x] == 251 && SubRegisters(v, x, y)[VF] == 0
  {
    SubOutsideFlag(v, x, y);
  }

  /** `b & 0x1`: the low bit of a byte, 0 or 1 and of the same parity as b. */
  function LowBit(b: u8): (bit: u8)
    ensures bit < 2 && (b as int - bit as int) % 2 == 0
  {
    b % 2
  }

  /** `b >> 1`: a byte shifted right once, the largest h with 2h <= b. */
  function Half(b: u8): (h: u8)
    ensures 2 * h as int <= b as int < 2 * h as int + 2
  {
    b / 2
  }

  /** On every byte c, `c & 0x1` is LowBit and `c >> 1` is Half. */
  lemma ShiftBits(c: bv8)
    ensures (c & 1) as int == LowBit(c as int as u8) as int
    ensures (c >> 1) as int == Half(c as int as u8) as int
  {
    Shift1(c);
  }

  /** 8xy6: VF := the low bit of Vy; then Vx := Vy >> 1, with Vy read again.
      The old Vx is never read. */
  function ShiftRegisters(v: seq<u8>, x: Reg, y: Reg): (r: seq<u8>)
    requires |v| == 16
    ensures |r| == 16
    ensures forall i :: 0 <= i < 16 && i != x && i != VF ==> r[i] == v[i]
    ensures x != VF ==> r[VF] == LowBit(v[y])
  {
    var w := Store(v, VF, LowBit(v[y]));
    Store(w, x, Half(w[y]))
  }

  /** With x and y both other than VF, 8xy6 loses no bit: twice the new Vx
      plus VF is the old Vy. */
  lemma ShiftOutsideFlag(v: seq<u8>, x: Reg, y: Reg)
    requires |v| == 16 && x != VF && y != VF
    ensures ShiftRegisters(v, x, y)[VF] < 2
    ensures 2 * ShiftRegisters(v, x, y)[x] as int + ShiftRegisters(v, x, y)[VF] as int == v[y] as int
  {}

  /** With y = VF, 8xy6 shifts the bit it has just stored, so Vx ends as 0. */
  lemma ShiftFromFlag(v: seq<u8>, x: Reg)
    requires |v| == 16
    ensures ShiftRegisters(v, x, VF)[x] == 0
  {}

  /** With x = VF, 8xy6 overwrites the shifted-out bit: VF ends as Vy >> 1. */
  lemma ShiftIntoFlag(v: seq<u8>, y: Reg)
    requires |v| == 16 && y != VF
    ensures ShiftRegisters(v, VF, y)[VF] as int == v[y] as int / 2
  {}

  /** The old value of Vx does not matter to 8xy6 unless x = y. */
  lemma ShiftIgnoresVx(v: seq<u8>, x: Reg, y: Reg, b: u8)
    requires |v| == 16 && x != y
    ensures ShiftRegisters(Store(v, x, b), x, y) == ShiftRegisters(v, x, y)
  {}
}
