/**
 * The rotate, shift, bit and flag handlers of pkg/cpu/operations.go:
 * RLCA, RRCA, RLA, RRA, DAA, CPL, SCF, CCF (on A and F only) and the
 * CB-prefixed BIT, RES, SET, RLC, RL, RRC, RR, SLA, SRA, SRL and SWAP (on
 * any operand cpu.Get and cpu.Set accept).
 *
 * The byte each rotate or shift computes is a function with its meaning
 * as contract; the handlers are methods proved against functions of the
 * old state, and the lemmas relate the operations to one another.
 */
module CpuOperationsBits {
  import opened Errors
  import opened BitsBitwise
  import opened Operands
  import opened CpuRegisters
  import opened CpuMemory
  import opened Cpu
  import opened CpuOperand
  import opened CpuSymbol
  import opened CpuAccess
  import opened CpuArith
  import opened CpuOperationsAlu

  // The bytes the rotates and shifts compute.

  /** RLCA and RLC: every bit one place up, old bit 7 into bit 0. */
  function RotateLeftCircular(v: bv8): (r: bv8)
    ensures r == v.RotateLeft(1)
  {
    var result := v << 1;
    if GetNBit(v, 7) then result | 1 else result
  }

  /** RRCA and RRC: every bit one place down, old bit 0 into bit 7. */
  function RotateRightCircular(v: bv8): (r: bv8)
    ensures r == v.RotateRight(1)
  {
    var result := v >> 1;
    if GetNBit(v, 0) then result | (1 << 7) else result
  }

  /** RLA and RL: every bit one place up, the carry flag into bit 0. */
  function RotateLeftThrough(v: bv8, carry: bool): (r: bv8)
    ensures r >> 1 == v & 0x7F
    ensures GetNBit(r, 0) == carry
  {
    var result := v << 1;
    if carry then result | 1 else result
  }

  /** RRA and RR: every bit one place down, the carry flag into bit 7. */
  function RotateRightThrough(v: bv8, carry: bool): (r: bv8)
    ensures r & 0x7F == v >> 1
    ensures GetNBit(r, 7) == carry
  {
    var result := v >> 1;
    if carry then result | (1 << 7) else result
  }

  /** SLA: every bit one place up, 0 into bit 0. */
  function ShiftLeftArithmetic(v: bv8): (r: bv8)
    ensures r >> 1 == v & 0x7F
    ensures !GetNBit(r, 0)
  {
    v << 1
  }

  /** SRA: every bit one place down, bit 7 kept, so a negative byte stays negative. */
  function ShiftRightArithmetic(v: bv8): (r: bv8)
    ensures r & 0x7F == v >> 1
    ensures GetNBit(r, 7) == GetNBit(v, 7)
  {
    (v >> 1) | (v & (1 << 7))
  }

  /** SRL: every bit one place down, 0 into bit 7. */
  function ShiftRightLogical(v: bv8): (r: bv8)
    ensures r & 0x7F == v >> 1
    ensures !GetNBit(r, 7)
  {
    v >> 1
  }

  /** SWAP: the two nibbles exchanged. */
  function SwapNibbles(v: bv8): (r: bv8)
    ensures r == v.RotateLeft(4)
    ensures r & 0xF == v >> 4 && r >> 4 == v & 0xF
  {
    ((v & 0x0F) << 4) | ((v & 0xF0) >> 4)
  }

  /** The CB-prefixed rotates and shifts that work on one operand. */
  datatype Shift = Rlc | Rl | Rrc | Rr | Sla | Sra | Srl | Swap

  /** The byte a rotate or shift stores, given the operand's byte and the C flag. */
  function ShiftResult(k: Shift, v: bv8, carry: bool): bv8
  {
    match k
    case Rlc => RotateLeftCircular(v)
    case Rl => RotateLeftThrough(v, carry)
    case Rrc => RotateRightCircular(v)
    case Rr => RotateRightThrough(v, carry)
    case Sla => ShiftLeftArithmetic(v)
    case Sra => ShiftRightArithmetic(v)
    case Srl => ShiftRightLogical(v)
    case Swap => SwapNibbles(v)
  }

  /** The bit a rotate or shift moves into C: bit 7 for the left ones, bit 0 for the right ones; SWAP clears C. */
  function ShiftCarry(k: Shift, v: bv8): bool
  {
    match k
    case Rlc => GetNBit(v, 7)
    case Rl => GetNBit(v, 7)
    case Sla => GetNBit(v, 7)
    case Rrc => GetNBit(v, 0)
    case Rr => GetNBit(v, 0)
    case Sra => GetNBit(v, 0)
    case Srl => GetNBit(v, 0)
    case Swap => false
  }

  // The handlers on A and F.

  /** RLCA, RRCA, RLA and RRA: store the rotated A, then Z from it, N and H cleared, C from the bit shifted out. */
  function RotateARegs(r: Regs, k: Shift): Regs
    requires k in {Rlc, Rl, Rrc, Rr}
  {
    var result := ShiftResult(k, r.a, r.Flag(FlagC));
    r.(a := result).RotateShiftFlags(result, ShiftCarry(k, r.a))
  }

  /** DAA's correction: 6 for the low digit and 0x60 for the high one, as the flags and (after an addition) A demand. */
  function DaaAdjust(a: bv8, n: bool, h: bool, c: bool): bv8
  {
    var adjust: bv8 := (if h then 0x6 else 0) | (if c then 0x60 else 0);
    if !n then adjust | (if a & 0xF > 0x9 then 0x6 else 0) | (if a > 0x99 then 0x60 else 0)
    else adjust
  }

  /** A after DAA: the correction added after an addition, subtracted after a subtraction (mod 256). */
  function DaaResult(a: bv8, n: bool, h: bool, c: bool): bv8
  {
    var adjust := DaaAdjust(a, n, h, c);
    if !n then Add8Wrap(a, adjust) else Sub8Wrap(a, adjust)
  }

  /** DAA: A corrected, Z from the new A, N kept, H cleared, C set when the high digit was corrected. */
  function DaaRegs(r: Regs): Regs
  {
    var n, h, c := r.Flag(FlagN), r.Flag(FlagH), r.Flag(FlagC);
    var result := DaaResult(r.a, n, h, c);
    r.(a := result).WithFlag(FlagZ, result == 0).WithFlag(FlagH, false).WithFlag(FlagC, DaaAdjust(r.a, n, h, c) >= 0x60)
  }

  /** CPL: A inverted, N and H set. */
  function CplRegs(r: Regs): Regs
  {
    r.(a := !r.a).WithFlag(FlagN, true).WithFlag(FlagH, true)
  }

  /** SCF: N and H cleared, C set. */
  function ScfRegs(r: Regs): Regs
  {
    r.WithFlag(FlagN, false).WithFlag(FlagH, false).WithFlag(FlagC, true)
  }

  /** CCF: N and H cleared, C inverted. */
  function CcfRegs(r: Regs): Regs
  {
    r.WithFlag(FlagN, false).WithFlag(FlagH, false).WithFlag(FlagC, !r.Flag(FlagC))
  }

  // The CB-prefixed handlers.

  /** RLC, RL, RRC, RR, SLA, SRA, SRL and SWAP: store the new byte through cpu.Set, then set the flags. */
  function ShiftSpec(s: Machine, ops: seq<Operand>, k: Shift): Step
  {
    if |ops| == 0 then Step(Fail(IndexOutOfRange), s) else
    var g := GetSpec(s, ops[0]);
    ShiftStore(g.state, ops[0], ShiftResult(k, Lo(g.value), g.state.regs.Flag(FlagC)), ShiftCarry(k, Lo(g.value)))
  }

  /** The second half of a rotate or shift: cpu.Set of the new byte, then Z from it, N and H cleared and C as given. */
  function ShiftStore(s: Machine, op: Operand, result: bv8, carry: bool): Step
  {
    var t := SetSpec(s, op, result as bv16);
    if t.outcome.Fail? then t
    else Step(Pass, t.state.(regs := t.state.regs.RotateShiftFlags(result, carry)))
  }

  /** BIT b,r: Z set exactly when bit b of the operand's byte is clear, N cleared, H set, C kept. */
  function BitSpec(s: Machine, ops: seq<Operand>): Step
  {
    if |ops| == 0 then Step(Fail(IndexOutOfRange), s) else
    var b := GetSpec(s, ops[0]);
    if |ops| == 1 then Step(Fail(IndexOutOfRange), b.state) else
    var v := GetSpec(b.state, ops[1]);
    var isSet := GetNBit(Lo(v.value), Lo(b.value));
    Step(Pass, v.state.(regs := v.state.regs.WithFlag(FlagZ, !isSet).WithFlag(FlagN, false).WithFlag(FlagH, true)))
  }

  /** The byte SET (on) or RES (off) computes. */
  function BitWritten(v: bv8, n: bv8, on: bool): (r: bv8)
    ensures n < 8 ==> GetNBit(r, n) == on
    ensures forall i: bv8 {:trigger GetNBit(v, i)} :: i != n ==> GetNBit(r, i) == GetNBit(v, i)
  {
    if on then SetNBit(v, n) else ClearNBit(v, n)
  }

  /** SET b,r (on) and RES b,r (off): the operand's byte with bit b changed, stored through cpu.Set; no flag changes. */
  function BitWriteSpec(s: Machine, ops: seq<Operand>, on: bool): Step
  {
    if |ops| == 0 then Step(Fail(IndexOutOfRange), s) else
    var b := GetSpec(s, ops[0]);
    if |ops| == 1 then Step(Fail(IndexOutOfRange), b.state) else
    var v := GetSpec(b.state, ops[1]);
    SetSpec(v.state, ops[1], BitWritten(Lo(v.value), Lo(b.value), on) as bv16)
  }

  /**
   * RES as pkg/cpu/operations.go writes it: a dereferenced operand is
   * written at the address given by the byte it read, not at the address
   * it was read from; any other operand must be a register.
   */
  function ResAsWrittenSpec(s: Machine, ops: seq<Operand>): Step
  {
    if |ops| == 0 then Step(Fail(IndexOutOfRange), s) else
    var b := GetSpec(s, ops[0]);
    if |ops| == 1 then Step(Fail(IndexOutOfRange), b.state) else
    var v := GetSpec(b.state, ops[1]);
    var result := ClearNBit(Lo(v.value), Lo(b.value));
    if ops[1].deref then Step(Pass, v.state.(mem := Store(v.state.mem, v.value, result)))
    else if !ops[1].symbol.RegisterSym? then Step(Fail(FailedTypeAssertion), v.state)
    else Step(Pass, v.state.(regs := v.state.regs.Set(ops[1].symbol.reg, result as bv16)))
  }

  /** A bit-number operand, as the CB table writes `0`..`7`. */
  function BitNumber(n: bv8): Operand { Operand(ByteSym(n), false, false, false) }

  // The handlers.

  method RLCA(cpu: CPU, ops: seq<Operand>)
    modifies cpu.registers
    ensures cpu.registers.Value() == RotateARegs(old(cpu.registers.Value()), Rlc)
  {
    var val := cpu.registers.a;
    var isCarry := GetNBit(val, 7);
    var result := RotateLeftCircular(val);
    StoreRotatedA(cpu.registers, result, isCarry);
  }

  method RRCA(cpu: CPU, ops: seq<Operand>)
    modifies cpu.registers
    ensures cpu.registers.Value() == RotateARegs(old(cpu.registers.Value()), Rrc)
  {
    var val := cpu.registers.a;
    var isCarry := GetNBit(val, 0);
    var result := RotateRightCircular(val);
    StoreRotatedA(cpu.registers, result, isCarry);
  }

  method RLA(cpu: CPU, ops: seq<Operand>)
    modifies cpu.registers
    ensures cpu.registers.Value() == RotateARegs(old(cpu.registers.Value()), Rl)
  {
    var val := cpu.registers.a;
    var isCarry := GetNBit(val, 7);
    var isCarryFlagSet := cpu.registers.Value().Flag(FlagC);
    var result := RotateLeftThrough(val, isCarryFlagSet);
    StoreRotatedA(cpu.registers, result, isCarry);
  }

  method RRA(cpu: CPU, ops: seq<Operand>)
    modifies cpu.registers
    ensures cpu.registers.Value() == RotateARegs(old(cpu.registers.Value()), Rr)
  {
    var val := cpu.registers.a;
    var isCarry := GetNBit(val, 0);
    var isCarryFlagSet := cpu.registers.Value().Flag(FlagC);
    var result := RotateRightThrough(val, isCarryFlagSet);
    StoreRotatedA(cpu.registers, result, isCarry);
  }

  /** The store into A and the SetRotateAndShiftFlags call the four A rotates share. */
  method StoreRotatedA(registers: Registers, result: bv8, carry: bool)
    modifies registers
    ensures registers.Value() == old(registers.Value()).(a := result).RotateShiftFlags(result, carry)
  {
    registers.a := result;
    registers.SetRotateAndShiftFlags(result, carry);
  }

  method DAA(cpu: CPU, ops: seq<Operand>)
    modifies cpu.registers
    ensures cpu.registers.Value() == DaaRegs(old(cpu.registers.Value()))
  {
    var adjust := DaaCorrection(cpu.registers);
    if !cpu.registers.Value().Flag(FlagN) {
      StoreDaa(cpu.registers, Add8Wrap(cpu.registers.a, adjust), adjust);
    } else {
      StoreDaa(cpu.registers, Sub8Wrap(cpu.registers.a, adjust), adjust);
    }
  }

  /** The first half of DAA: the correction the flags and A call for. */
  method DaaCorrection(registers: Registers) returns (adjust: bv8)
    ensures adjust == DaaAdjust(registers.a, registers.Value().Flag(FlagN), registers.Value().Flag(FlagH), registers.Value().Flag(FlagC))
  {
    adjust := 0;
    if registers.Value().Flag(FlagH) {
      adjust := adjust | 0x6;
    }
    if registers.Value().Flag(FlagC) {
      adjust := adjust | 0x60;
    }
    if !registers.Value().Flag(FlagN) {
      if registers.a & 0xF > 0x9 {
        adjust := adjust | 0x6;
      }
      if registers.a > 0x99 {
        adjust := adjust | 0x60;
      }
    }
  }

  /** Go's byte `+=`, which wraps mod 256. */
  function Add8Wrap(x: bv8, y: bv8): bv8 { x + y }

  /** Go's byte `-=`, which wraps mod 256. */
  function Sub8Wrap(x: bv8, y: bv8): bv8 { x - y }

  /** DAA's store into A and its three SetFlag calls. */
  method StoreDaa(registers: Registers, result: bv8, adjust: bv8)
    modifies registers
    ensures registers.Value() ==
      old(registers.Value()).(a := result).WithFlag(FlagZ, result == 0).WithFlag(FlagH, false).WithFlag(FlagC, adjust >= 0x60)
  {
    registers.a := result;
    registers.SetFlagTo(FlagZ, registers.a == 0);
    registers.SetFlagTo(FlagH, false);
    registers.SetFlagTo(FlagC, adjust >= 0x60);
  }

  method CPL(cpu: CPU, ops: seq<Operand>)
    modifies cpu.registers
    ensures cpu.registers.Value() == CplRegs(old(cpu.registers.Value()))
  {
    cpu.registers.a := !cpu.registers.a;
    cpu.registers.SetFlagTo(FlagN, true);
    cpu.registers.SetFlagTo(FlagH, true);
  }

  method SCF(cpu: CPU, ops: seq<Operand>)
    modifies cpu.registers
    ensures cpu.registers.Value() == ScfRegs(old(cpu.registers.Value()))
  {
    cpu.registers.SetFlagTo(FlagN, false);
    cpu.registers.SetFlagTo(FlagH, false);
    cpu.registers.SetFlagTo(FlagC, true);
  }

  method CCF(cpu: CPU, ops: seq<Operand>)
    modifies cpu.registers
    ensures cpu.registers.Value() == CcfRegs(old(cpu.registers.Value()))
  {
    cpu.registers.SetFlagTo(FlagN, false);
    cpu.registers.SetFlagTo(FlagH, false);
    cpu.registers.SetFlagTo(FlagC, !cpu.registers.Value().Flag(FlagC));
  }

  method BIT(cpu: CPU, ops: seq<Operand>) returns (r: Outcome)
    modifies cpu.registers
    ensures Step(r, cpu.State()) == BitSpec(old(cpu.State()), ops)
  {
    if |ops| == 0 {
      return Fail(IndexOutOfRange);
    }
    var bit := Get(cpu, ops[0]);
    if |ops| == 1 {
      return Fail(IndexOutOfRange);
    }
    var val := Get(cpu, ops[1]);
    var isSet := GetNBit(Lo(val), Lo(bit));
    cpu.registers.SetFlagTo(FlagZ, !isSet);
    cpu.registers.SetFlagTo(FlagN, false);
    cpu.registers.SetFlagTo(FlagH, true);
    r := Pass;
  }

  /** RES with the result stored through cpu.Set, at the address the operand was read from. */
  method RES(cpu: CPU, ops: seq<Operand>) returns (r: Outcome)
    modifies cpu, cpu.registers
    ensures Step(r, cpu.State()) == BitWriteSpec(old(cpu.State()), ops, false)
  {
    if |ops| == 0 {
      return Fail(IndexOutOfRange);
    }
    var bit := Get(cpu, ops[0]);
    if |ops| == 1 {
      return Fail(IndexOutOfRange);
    }
    var val := Get(cpu, ops[1]);
    var result := ClearNBit(Lo(val), Lo(bit));
    r := Set(cpu, ops[1], result as bv16);
  }

  method SET(cpu: CPU, ops: seq<Operand>) returns (r: Outcome)
    modifies cpu, cpu.registers
    ensures Step(r, cpu.State()) == BitWriteSpec(old(cpu.State()), ops, true)
  {
    if |ops| == 0 {
      return Fail(IndexOutOfRange);
    }
    var bit := Get(cpu, ops[0]);
    if |ops| == 1 {
      return Fail(IndexOutOfRange);
    }
    var val := Get(cpu, ops[1]);
    var result := SetNBit(Lo(val), Lo(bit));
    r := Set(cpu, ops[1], result as bv16);
  }

  method RLC(cpu: CPU, ops: seq<Operand>) returns (r: Outcome)
    modifies cpu, cpu.registers
    ensures Step(r, cpu.State()) == ShiftSpec(old(cpu.State()), ops, Rlc)
  {
    if |ops| == 0 {
      return Fail(IndexOutOfRange);
    }
    var val := Get(cpu, ops[0]);
    var isCarry := GetNBit(Lo(val), 7);
    var result := RotateLeftCircular(Lo(val));
    r := StoreShifted(cpu, ops[0], result, isCarry);
  }

  method RL(cpu: CPU, ops: seq<Operand>) returns (r: Outcome)
    modifies cpu, cpu.registers
    ensures Step(r, cpu.State()) == ShiftSpec(old(cpu.State()), ops, Rl)
  {
    if |ops| == 0 {
      return Fail(IndexOutOfRange);
    }
    var val := Get(cpu, ops[0]);
    var isCarry := GetNBit(Lo(val), 7);
    var isCarryFlagSet := cpu.registers.Value().Flag(FlagC);
    var result := RotateLeftThrough(Lo(val), isCarryFlagSet);
    r := StoreShifted(cpu, ops[0], result, isCarry);
  }

  method RRC(cpu: CPU, ops: seq<Operand>) returns (r: Outcome)
    modifies cpu, cpu.registers
    ensures Step(r, cpu.State()) == ShiftSpec(old(cpu.State()), ops, Rrc)
  {
    if |ops| == 0 {
      return Fail(IndexOutOfRange);
    }
    var val := Get(cpu, ops[0]);
    var isCarry := GetNBit(Lo(val), 0);
    var result := RotateRightCircular(Lo(val));
    r := StoreShifted(cpu, ops[0], result, isCarry);
  }

  method RR(cpu: CPU, ops: seq<Operand>) returns (r: Outcome)
    modifies cpu, cpu.registers
    ensures Step(r, cpu.State()) == ShiftSpec(old(cpu.State()), ops, Rr)
  {
    if |ops| == 0 {
      return Fail(IndexOutOfRange);
    }
    var val := Get(cpu, ops[0]);
    var isCarry := GetNBit(Lo(val), 0);
    var isCarryFlagSet := cpu.registers.Value().Flag(FlagC);
    var result := RotateRightThrough(Lo(val), isCarryFlagSet);
    r := StoreShifted(cpu, ops[0], result, isCarry);
  }

  method SLA(cpu: CPU, ops: seq<Operand>) returns (r: Outcome)
    modifies cpu, cpu.registers
    ensures Step(r, cpu.State()) == ShiftSpec(old(cpu.State()), ops, Sla)
  {
    if |ops| == 0 {
      return Fail(IndexOutOfRange);
    }
    var val := Get(cpu, ops[0]);
    var result := ShiftLeftArithmetic(Lo(val));
    var isCarry := GetNBit(Lo(val), 7);
    r := StoreShifted(cpu, ops[0], result, isCarry);
  }

  method SRA(cpu: CPU, ops: seq<Operand>) returns (r: Outcome)
    modifies cpu, cpu.registers
    ensures Step(r, cpu.State()) == ShiftSpec(old(cpu.State()), ops, Sra)
  {
    if |ops| == 0 {
      return Fail(IndexOutOfRange);
    }
    var val := Get(cpu, ops[0]);
    var result := ShiftRightArithmetic(Lo(val));
    var isCarry := GetNBit(Lo(val), 0);
    r := StoreShifted(cpu, ops[0], result, isCarry);
  }

  method SRL(cpu: CPU, ops: seq<Operand>) returns (r: Outcome)
    modifies cpu, cpu.registers
    ensures Step(r, cpu.State()) == ShiftSpec(old(cpu.State()), ops, Srl)
  {
    if |ops| == 0 {
      return Fail(IndexOutOfRange);
    }
    var val := Get(cpu, ops[0]);
    var result := ShiftRightLogical(Lo(val));
    var isCarry := GetNBit(Lo(val), 0);
    r := StoreShifted(cpu, ops[0], result, isCarry);
  }

  method SWAP(cpu: CPU, ops: seq<Operand>) returns (r: Outcome)
    modifies cpu, cpu.registers
    ensures Step(r, cpu.State()) == ShiftSpec(old(cpu.State()), ops, Swap)
  {
    if |ops| == 0 {
      return Fail(IndexOutOfRange);
    }
    var val := Get(cpu, ops[0]);
    var result := SwapNibbles(Lo(val));
    r := StoreSwapped(cpu, ops[0], result);
  }

  /** The cpu.Set and SetRotateAndShiftFlags calls that end RLC, RL, RRC, RR, SLA, SRA and SRL. */
  method StoreShifted(cpu: CPU, op: Operand, result: bv8, carry: bool) returns (r: Outcome)
    modifies cpu, cpu.registers
    ensures Step(r, cpu.State()) == ShiftStore(old(cpu.State()), op, result, carry)
  {
    r := Set(cpu, op, result as bv16);
    if r.Fail? {
      return;
    }
    cpu.registers.SetRotateAndShiftFlags(result, carry);
  }

  /** The cpu.Set and four SetFlag calls that end SWAP; C is cleared. */
  method StoreSwapped(cpu: CPU, op: Operand, result: bv8) returns (r: Outcome)
    modifies cpu, cpu.registers
    ensures Step(r, cpu.State()) == ShiftStore(old(cpu.State()), op, result, false)
  {
    r := Set(cpu, op, result as bv16);
    if r.Fail? {
      return;
    }
    cpu.registers.SetFlagTo(FlagZ, result == 0);
    cpu.registers.SetFlagTo(FlagN, false);
    cpu.registers.SetFlagTo(FlagH, false);
    cpu.registers.SetFlagTo(FlagC, false);
  }

  // Properties of the bytes.

  /** RRC undoes RLC and RLC undoes RRC. */
  lemma RotateCircularInverse(v: bv8)
    ensures RotateRightCircular(RotateLeftCircular(v)) == v
    ensures RotateLeftCircular(RotateRightCircular(v)) == v
  {
  }

  /**
   * RL and RR are rotations of nine bits through the carry: RR with the bit
   * RL shifted out gives the byte back and shifts out the carry RL took in,
   * and the other way round.
   */
  lemma RotateThroughInverse(v: bv8, carry: bool)
    ensures RotateRightThrough(RotateLeftThrough(v, carry), GetNBit(v, 7)) == v
    ensures GetNBit(RotateLeftThrough(v, carry), 0) == carry
    ensures RotateLeftThrough(RotateRightThrough(v, carry), GetNBit(v, 0)) == v
    ensures GetNBit(RotateRightThrough(v, carry), 7) == carry
  {
  }

  /** SWAP is its own inverse. */
  lemma SwapInvolution(v: bv8)
    ensures SwapNibbles(SwapNibbles(v)) == v
  {
  }

  /** SLA doubles the byte mod 256 and SRL halves it, rounding down. */
  lemma ShiftArithmetic(v: bv8)
    ensures ShiftLeftArithmetic(v) as int == (v as int * 2) % 256
    ensures ShiftRightLogical(v) as int == v as int / 2
  {
  }

  /** SRL after SLA loses exactly the bit SLA shifted out. */
  lemma ShiftLeftThenRight(v: bv8)
    ensures ShiftRightLogical(ShiftLeftArithmetic(v)) == v & 0x7F
  {
  }

  // DAA: binary-coded decimal after an addition or a subtraction.

  /** A binary-coded decimal byte: both nibbles are decimal digits. */
  predicate IsBcd(x: bv8)
  {
    x & 0xF <= 9 && x >> 4 <= 9
  }

  /** The digit of p + q + carry-in in decimal. */
  function DigitSum(p: bv8, q: bv8, carry: bool): bv8
  {
    var t := p + q + (if carry then 1 else 0);
    if t >= 10 then t - 10 else t
  }

  /** Whether p + q + carry-in carries into the next decimal digit. */
  predicate DigitCarry(p: bv8, q: bv8, carry: bool)
  {
    p + q + (if carry then 1 else 0) >= 10
  }

  /** The digit of p - q - borrow-in in decimal. */
  function DigitDifference(p: bv8, q: bv8, borrow: bool): bv8
  {
    var t := q + (if borrow then 1 else 0);
    if p < t then p + 10 - t else p - t
  }

  /** Whether p - q - borrow-in borrows from the next decimal digit. */
  predicate DigitBorrow(p: bv8, q: bv8, borrow: bool)
  {
    p < q + (if borrow then 1 else 0)
  }

  /** The byte with the given high and low nibbles. */
  function JoinNibbles(high: bv8, low: bv8): bv8
  {
    (high << 4) | low
  }

  /** The two-digit decimal sum of two BCD bytes, mod 100, as a BCD byte. */
  function DecimalSum(x: bv8, y: bv8): bv8
  {
    var low := DigitSum(x & 0xF, y & 0xF, false);
    var high := DigitSum(x >> 4, y >> 4, DigitCarry(x & 0xF, y & 0xF, false));
    JoinNibbles(high, low)
  }

  /** Whether the decimal sum of two BCD bytes reaches 100. */
  predicate DecimalCarry(x: bv8, y: bv8)
  {
    DigitCarry(x >> 4, y >> 4, DigitCarry(x & 0xF, y & 0xF, false))
  }

  /** The two-digit decimal difference of two BCD bytes, mod 100, as a BCD byte. */
  function DecimalDifference(x: bv8, y: bv8): bv8
  {
    var low := DigitDifference(x & 0xF, y & 0xF, false);
    var high := DigitDifference(x >> 4, y >> 4, DigitBorrow(x & 0xF, y & 0xF, false));
    JoinNibbles(high, low)
  }

  /** Whether the decimal difference of two BCD bytes is negative. */
  predicate DecimalBorrow(x: bv8, y: bv8)
  {
    DigitBorrow(x >> 4, y >> 4, DigitBorrow(x & 0xF, y & 0xF, false))
  }

  /**
   * DAA after an 8-bit ADD of two BCD bytes, given the sum and the H and C
   * flags ADD leaves: A becomes the decimal sum and C says it reached 100.
   */
  lemma DaaAfterAddition(x: bv8, y: bv8, a: bv8, h: bool, c: bool)
    requires IsBcd(x) && IsBcd(y)
    requires a == x + y && h == ((x & 0xF) + (y & 0xF) > 0xF) && c == (x as bv16 + y as bv16 > 0xFF)
    ensures DaaResult(a, false, h, c) == DecimalSum(x, y)
    ensures DaaAdjust(a, false, h, c) >= 0x60 <==> DecimalCarry(x, y)
  {
  }

  /** ADD's sum and carries of two bytes, in bytes. */
  lemma AdditionBytes(x: bv8, y: bv8)
    ensures Lo(Plus(x as bv16, y as bv16)) == x + y
    ensures CarryFromBit3(x as bv16, y as bv16, 0) <==> (x & 0xF) + (y & 0xF) > 0xF
    ensures CarryFromBit7(x as bv16, y as bv16, 0) <==> x as bv16 + y as bv16 > 0xFF
  {
  }

  /**
   * DAA after an 8-bit SUB of two BCD bytes, given the difference and the H
   * and C flags SUB leaves: A becomes the decimal difference and C says it
   * was negative.
   */
  lemma DaaAfterSubtraction(x: bv8, y: bv8, a: bv8, h: bool, c: bool)
    requires IsBcd(x) && IsBcd(y)
    requires a == x - y && h == ((x & 0xF) < (y & 0xF)) && c == (x < y)
    ensures DaaResult(a, true, h, c) == DecimalDifference(x, y)
    ensures DaaAdjust(a, true, h, c) >= 0x60 <==> DecimalBorrow(x, y)
  {
  }

  /** SUB's difference and borrows of two bytes, in bytes. */
  lemma SubtractionBytes(x: bv8, y: bv8)
    ensures Lo(Minus(x as bv16, y as bv16)) == x - y
    ensures BorrowIntoBit4(x as bv16, y as bv16, 0) <==> (x & 0xF) < (y & 0xF)
    ensures BorrowIntoBit8(x as bv16, y as bv16, 0) <==> x < y
  {
  }

  /** DAA sets Z from the new A, keeps N, clears H and sets C exactly when it corrected the high digit. */
  lemma DaaFlags(r: Regs)
    ensures DaaRegs(r).a == DaaResult(r.a, r.Flag(FlagN), r.Flag(FlagH), r.Flag(FlagC))
    ensures DaaRegs(r).Flag(FlagZ) <==> DaaRegs(r).a == 0
    ensures DaaRegs(r).Flag(FlagN) == r.Flag(FlagN) && !DaaRegs(r).Flag(FlagH)
    ensures DaaRegs(r).Flag(FlagC) <==> DaaAdjust(r.a, r.Flag(FlagN), r.Flag(FlagH), r.Flag(FlagC)) >= 0x60
  {
  }

  // The rotates and shifts on a plain 8-bit register.

  /** A rotate or shift of a plain register stores its new byte there and sets the flags; memory is untouched. */
  lemma ShiftShape(s: Machine, reg: Register, k: Shift)
    ensures ShiftSpec(s, [Reg(reg)], k) ==
      ShiftStore(s, Reg(reg), ShiftResult(k, Lo(s.regs.Get(reg)), s.regs.Flag(FlagC)), ShiftCarry(k, Lo(s.regs.Get(reg))))
  {
    GetRegister(s, reg);
  }

  /** ShiftStore into a plain 8-bit register other than F: the register holds the byte and Z, N, H, C are the rotate flags. */
  lemma ShiftStoreRegister(s: Machine, reg: Register, result: bv8, carry: bool)
    requires IsSingle(reg) && reg != F
    ensures ShiftStore(s, Reg(reg), result, carry).outcome == Pass
    ensures ShiftStore(s, Reg(reg), result, carry).state.regs.Get(reg) == result as bv16
    ensures ShiftStore(s, Reg(reg), result, carry).state.regs.Flag(FlagZ) == (result == 0)
    ensures !ShiftStore(s, Reg(reg), result, carry).state.regs.Flag(FlagN)
    ensures !ShiftStore(s, Reg(reg), result, carry).state.regs.Flag(FlagH)
    ensures ShiftStore(s, Reg(reg), result, carry).state.regs.Flag(FlagC) == carry
    ensures ShiftStore(s, Reg(reg), result, carry).state.mem == s.mem
  {
    var r := s.regs.Set(reg, result as bv16);
    assert r.Get(reg) == result as bv16;
    FlagsKeepRegister(r, r.RotateShiftFlags(result, carry).f, reg);
  }

  /**
   * A rotate or shift of a plain 8-bit register other than F: the register
   * holds ShiftResult of its old byte and the old C, Z says whether that is
   * zero, N and H are cleared, C is ShiftCarry of the old byte, and memory
   * is untouched.
   */
  lemma ShiftRegister(s: Machine, reg: Register, k: Shift)
    requires IsSingle(reg) && reg != F
    ensures ShiftSpec(s, [Reg(reg)], k).outcome == Pass
    ensures ShiftSpec(s, [Reg(reg)], k).state.regs.Get(reg) ==
      ShiftResult(k, Lo(s.regs.Get(reg)), s.regs.Flag(FlagC)) as bv16
    ensures ShiftSpec(s, [Reg(reg)], k).state.regs.Flag(FlagZ) ==
      (ShiftResult(k, Lo(s.regs.Get(reg)), s.regs.Flag(FlagC)) == 0)
    ensures !ShiftSpec(s, [Reg(reg)], k).state.regs.Flag(FlagN)
    ensures !ShiftSpec(s, [Reg(reg)], k).state.regs.Flag(FlagH)
    ensures ShiftSpec(s, [Reg(reg)], k).state.regs.Flag(FlagC) == ShiftCarry(k, Lo(s.regs.Get(reg)))
    ensures ShiftSpec(s, [Reg(reg)], k).state.mem == s.mem
  {
    ShiftShape(s, reg, k);
    ShiftStoreRegister(s, reg, ShiftResult(k, Lo(s.regs.Get(reg)), s.regs.Flag(FlagC)), ShiftCarry(k, Lo(s.regs.Get(reg))));
  }

  /** RRC r undoes RLC r. */
  lemma RlcThenRrc(s: Machine, reg: Register)
    requires IsSingle(reg) && reg != F
    ensures ShiftSpec(ShiftSpec(s, [Reg(reg)], Rlc).state, [Reg(reg)], Rrc).state.regs.Get(reg) == s.regs.Get(reg)
  {
    var v := Lo(s.regs.Get(reg));
    ShiftRegister(s, reg, Rlc);
    ShiftRegister(ShiftSpec(s, [Reg(reg)], Rlc).state, reg, Rrc);
    OwnByte(RotateLeftCircular(v));
    RotateCircularInverse(v);
    ByteWidens(s.regs.Get(reg));
  }

  /** RR r undoes RL r: the register and the C flag are both restored. */
  lemma RlThenRr(s: Machine, reg: Register)
    requires IsSingle(reg) && reg != F
    ensures ShiftSpec(ShiftSpec(s, [Reg(reg)], Rl).state, [Reg(reg)], Rr).state.regs.Get(reg) == s.regs.Get(reg)
    ensures ShiftSpec(ShiftSpec(s, [Reg(reg)], Rl).state, [Reg(reg)], Rr).state.regs.Flag(FlagC) == s.regs.Flag(FlagC)
  {
    var v := Lo(s.regs.Get(reg));
    ShiftRegister(s, reg, Rl);
    ShiftRegister(ShiftSpec(s, [Reg(reg)], Rl).state, reg, Rr);
    OwnByte(RotateLeftThrough(v, s.regs.Flag(FlagC)));
    RotateThroughInverse(v, s.regs.Flag(FlagC));
    ByteWidens(s.regs.Get(reg));
  }

  /** SWAP r twice leaves r as it was. */
  lemma SwapTwice(s: Machine, reg: Register)
    requires IsSingle(reg) && reg != F
    ensures ShiftSpec(ShiftSpec(s, [Reg(reg)], Swap).state, [Reg(reg)], Swap).state.regs.Get(reg) == s.regs.Get(reg)
  {
    var v := Lo(s.regs.Get(reg));
    ShiftRegister(s, reg, Swap);
    ShiftRegister(ShiftSpec(s, [Reg(reg)], Swap).state, reg, Swap);
    OwnByte(SwapNibbles(v));
    SwapInvolution(v);
    ByteWidens(s.regs.Get(reg));
  }

  /** SRL r after SLA r clears bit 7 of r and keeps the rest. */
  lemma SlaThenSrl(s: Machine, reg: Register)
    requires IsSingle(reg) && reg != F
    ensures ShiftSpec(ShiftSpec(s, [Reg(reg)], Sla).state, [Reg(reg)], Srl).state.regs.Get(reg) == s.regs.Get(reg) & 0x7F
  {
    var v := Lo(s.regs.Get(reg));
    ShiftRegister(s, reg, Sla);
    ShiftRegister(ShiftSpec(s, [Reg(reg)], Sla).state, reg, Srl);
    OwnByte(ShiftLeftArithmetic(v));
    ShiftLeftThenRight(v);
    ByteWidens(s.regs.Get(reg));
    MaskWidens(v, s.regs.Get(reg));
  }

  /** Masking commutes with widening a byte. */
  lemma MaskWidens(v: bv8, x: bv16)
    requires x == v as bv16
    ensures (v & 0x7F) as bv16 == x & 0x7F
  {
  }

  /**
   * A rotate or shift of (HL) reads the byte HL points at and writes the
   * new byte back there; the registers other than F are untouched.
   */
  lemma ShiftAtHL(s: Machine, k: Shift)
    ensures ShiftSpec(s, [At(HL)], k).outcome == Pass
    ensures ShiftSpec(s, [At(HL)], k).state.mem ==
      Store(s.mem, s.regs.Get(HL), ShiftResult(k, s.mem(s.regs.Get(HL)), s.regs.Flag(FlagC)))
    ensures ShiftSpec(s, [At(HL)], k).state.regs ==
      s.regs.RotateShiftFlags(ShiftResult(k, s.mem(s.regs.Get(HL)), s.regs.Flag(FlagC)), ShiftCarry(k, s.mem(s.regs.Get(HL))))
  {
    ShiftAtShape(s, HL, k);
    ShiftStoreAt(s, HL, ShiftResult(k, s.mem(s.regs.Get(HL)), s.regs.Flag(FlagC)), ShiftCarry(k, s.mem(s.regs.Get(HL))));
  }

  /** A rotate or shift of (r) works on the byte r points at. */
  lemma ShiftAtShape(s: Machine, reg: Register, k: Shift)
    ensures ShiftSpec(s, [At(reg)], k) ==
      ShiftStore(s, At(reg), ShiftResult(k, s.mem(s.regs.Get(reg)), s.regs.Flag(FlagC)), ShiftCarry(k, s.mem(s.regs.Get(reg))))
  {
    GetAt(s, reg);
    OwnByte(s.mem(s.regs.Get(reg)));
  }

  /** Get on (r) reads the byte r points at and changes nothing. */
  lemma GetAt(s: Machine, reg: Register)
    ensures GetSpec(s, At(reg)) == Fetched(s.mem(s.regs.Get(reg)) as bv16, s)
  {
    ResolveWithoutFetch(s, RegisterSym(reg));
  }

  /** ShiftStore into (r) writes the byte where r points and sets the rotate flags. */
  lemma ShiftStoreAt(s: Machine, reg: Register, result: bv8, carry: bool)
    ensures ShiftStore(s, At(reg), result, carry) ==
      Step(Pass, s.(mem := Store(s.mem, s.regs.Get(reg), result), regs := s.regs.RotateShiftFlags(result, carry)))
  {
    OwnByte(result);
  }

  /** In go-gameboy RLCA, RRCA, RLA and RRA set the flags exactly as RLC A, RRC A, RL A and RR A do. */
  lemma RotateAIsShiftA(s: Machine, k: Shift)
    requires k in {Rlc, Rl, Rrc, Rr}
    ensures ShiftSpec(s, [Reg(A)], k).outcome == Pass
    ensures ShiftSpec(s, [Reg(A)], k).state.regs == RotateARegs(s.regs, k)
  {
    ShiftShape(s, A, k);
    OwnByte(s.regs.a);
    OwnByte(ShiftResult(k, s.regs.a, s.regs.Flag(FlagC)));
  }

  /** RRCA undoes RLCA; RRA undoes RLA, restoring both A and C. */
  lemma RotateAInverse(r: Regs)
    ensures RotateARegs(RotateARegs(r, Rlc), Rrc).a == r.a
    ensures RotateARegs(RotateARegs(r, Rl), Rr).a == r.a
    ensures RotateARegs(RotateARegs(r, Rl), Rr).Flag(FlagC) == r.Flag(FlagC)
  {
    RotateCircularInverse(r.a);
    RotateThroughInverse(r.a, r.Flag(FlagC));
  }

  // The flag operations.

  /** CPL twice gives A back; CPL sets N and H and keeps Z and C. */
  lemma CplTwice(r: Regs)
    ensures CplRegs(CplRegs(r)).a == r.a
    ensures CplRegs(r).Flag(FlagN) && CplRegs(r).Flag(FlagH)
    ensures CplRegs(r).Flag(FlagZ) == r.Flag(FlagZ) && CplRegs(r).Flag(FlagC) == r.Flag(FlagC)
  {
  }

  /** CCF twice gives C back; both clear N and H and keep Z and A. */
  lemma CcfTwice(r: Regs)
    ensures CcfRegs(CcfRegs(r)).Flag(FlagC) == r.Flag(FlagC)
    ensures CcfRegs(r).Flag(FlagC) == !r.Flag(FlagC)
    ensures !CcfRegs(r).Flag(FlagN) && !CcfRegs(r).Flag(FlagH)
    ensures CcfRegs(r).Flag(FlagZ) == r.Flag(FlagZ) && CcfRegs(r).a == r.a
  {
  }

  /** CCF after SCF clears C; SCF sets C whatever it was. */
  lemma ScfThenCcf(r: Regs)
    ensures ScfRegs(r).Flag(FlagC)
    ensures !CcfRegs(ScfRegs(r)).Flag(FlagC)
    ensures ScfRegs(r).Flag(FlagZ) == r.Flag(FlagZ) && ScfRegs(r).a == r.a
  {
  }

  // BIT, SET and RES on a plain 8-bit register or on (HL).

  /** Get on a bit-number operand yields the number and changes nothing. */
  lemma GetBitNumber(s: Machine, n: bv8)
    ensures GetSpec(s, BitNumber(n)) == Fetched(n as bv16, s)
    ensures Lo(n as bv16) == n
  {
    ResolveWithoutFetch(s, ByteSym(n));
  }

  /** BIT n,r reads the bit number and the register without changing anything else. */
  lemma BitShape(s: Machine, n: bv8, reg: Register)
    ensures BitSpec(s, [BitNumber(n), Reg(reg)]) ==
      Step(Pass, s.(regs := s.regs.WithFlag(FlagZ, !GetNBit(Lo(s.regs.Get(reg)), n)).WithFlag(FlagN, false).WithFlag(FlagH, true)))
  {
    GetBitNumber(s, n);
    GetRegister(s, reg);
  }

  /**
   * BIT n,r sets Z exactly when bit n of r is clear, clears N, sets H and
   * keeps C, A and memory.
   */
  lemma BitRegister(s: Machine, n: bv8, reg: Register)
    ensures BitSpec(s, [BitNumber(n), Reg(reg)]).outcome == Pass
    ensures BitSpec(s, [BitNumber(n), Reg(reg)]).state.regs.Flag(FlagZ) == !GetNBit(Lo(s.regs.Get(reg)), n)
    ensures !BitSpec(s, [BitNumber(n), Reg(reg)]).state.regs.Flag(FlagN)
    ensures BitSpec(s, [BitNumber(n), Reg(reg)]).state.regs.Flag(FlagH)
    ensures BitSpec(s, [BitNumber(n), Reg(reg)]).state.regs.Flag(FlagC) == s.regs.Flag(FlagC)
    ensures BitSpec(s, [BitNumber(n), Reg(reg)]).state.regs.a == s.regs.a
    ensures BitSpec(s, [BitNumber(n), Reg(reg)]).state.mem == s.mem
  {
    BitShape(s, n, reg);
  }

  /** SET n,r and RES n,r store the register's byte with bit n changed. */
  lemma BitWriteShape(s: Machine, n: bv8, reg: Register, on: bool)
    ensures BitWriteSpec(s, [BitNumber(n), Reg(reg)], on) ==
      Step(Pass, s.(regs := s.regs.Set(reg, BitWritten(Lo(s.regs.Get(reg)), n, on) as bv16)))
  {
    GetBitNumber(s, n);
    GetRegister(s, reg);
  }

  /**
   * SET n,r (on) and RES n,r (off) on an 8-bit register other than F: bit
   * n of the register becomes on, and memory is untouched.
   */
  lemma BitWriteRegister(s: Machine, n: bv8, reg: Register, on: bool)
    requires IsSingle(reg) && reg != F && n < 8
    ensures BitWriteSpec(s, [BitNumber(n), Reg(reg)], on).outcome == Pass
    ensures GetNBit(Lo(BitWriteSpec(s, [BitNumber(n), Reg(reg)], on).state.regs.Get(reg)), n) == on
    ensures BitWriteSpec(s, [BitNumber(n), Reg(reg)], on).state.mem == s.mem
  {
    BitWriteShape(s, n, reg, on);
    SetByteRegister(s.regs, reg, BitWritten(Lo(s.regs.Get(reg)), n, on));
  }

  /** SET n,r and RES n,r on an 8-bit register other than F change no flag. */
  lemma BitWriteKeepsFlags(s: Machine, n: bv8, reg: Register, on: bool)
    requires IsSingle(reg) && reg != F
    ensures BitWriteSpec(s, [BitNumber(n), Reg(reg)], on).state.regs.f == s.regs.f
  {
    BitWriteShape(s, n, reg, on);
    SetByteRegister(s.regs, reg, BitWritten(Lo(s.regs.Get(reg)), n, on));
  }

  /** SET n,r and RES n,r keep every bit of r other than bit n. */
  lemma BitWriteOtherBits(s: Machine, n: bv8, reg: Register, on: bool, i: bv8)
    requires IsSingle(reg) && reg != F && i != n
    ensures GetNBit(Lo(BitWriteSpec(s, [BitNumber(n), Reg(reg)], on).state.regs.Get(reg)), i) == GetNBit(Lo(s.regs.Get(reg)), i)
  {
    BitWriteShape(s, n, reg, on);
    SetByteRegister(s.regs, reg, BitWritten(Lo(s.regs.Get(reg)), n, on));
  }

  /** Storing a byte into an 8-bit register other than F: the register reads it back and F is kept. */
  lemma SetByteRegister(r: Regs, reg: Register, w: bv8)
    requires IsSingle(reg) && reg != F
    ensures Lo(r.Set(reg, w as bv16).Get(reg)) == w
    ensures r.Set(reg, w as bv16).f == r.f
  {
    assert r.Set(reg, w as bv16).Get(reg) == w as bv16;
    OwnByte(w);
    SetFields(r, reg, w as bv16);
  }

  /** BIT n,r after SET n,r finds the bit set: Z is cleared. */
  lemma SetThenBit(s: Machine, n: bv8, reg: Register)
    requires IsSingle(reg) && reg != F && n < 8
    ensures !BitSpec(BitWriteSpec(s, [BitNumber(n), Reg(reg)], true).state, [BitNumber(n), Reg(reg)]).state.regs.Flag(FlagZ)
  {
    BitWriteRegister(s, n, reg, true);
    BitRegister(BitWriteSpec(s, [BitNumber(n), Reg(reg)], true).state, n, reg);
  }

  /** BIT n,r after RES n,r finds the bit clear: Z is set. */
  lemma ResThenBit(s: Machine, n: bv8, reg: Register)
    requires IsSingle(reg) && reg != F && n < 8
    ensures BitSpec(BitWriteSpec(s, [BitNumber(n), Reg(reg)], false).state, [BitNumber(n), Reg(reg)]).state.regs.Flag(FlagZ)
  {
    BitWriteRegister(s, n, reg, false);
    BitRegister(BitWriteSpec(s, [BitNumber(n), Reg(reg)], false).state, n, reg);
  }

  /** SET n,(HL) and RES n,(HL) write the changed byte back where HL points; the registers are untouched. */
  lemma BitWriteAtHL(s: Machine, n: bv8, on: bool)
    ensures BitWriteSpec(s, [BitNumber(n), At(HL)], on) ==
      Step(Pass, s.(mem := Store(s.mem, s.regs.Get(HL), BitWritten(s.mem(s.regs.Get(HL)), n, on))))
  {
    GetBitNumber(s, n);
    GetAt(s, HL);
    OwnByte(s.mem(s.regs.Get(HL)));
    OwnByte(BitWritten(s.mem(s.regs.Get(HL)), n, on));
  }

  /** RES n,(HL) as written stores the cleared byte at the address equal to the byte it read. */
  lemma ResAsWrittenAtHL(s: Machine, n: bv8)
    ensures ResAsWrittenSpec(s, [BitNumber(n), At(HL)]) ==
      Step(Pass, s.(mem := Store(s.mem, s.mem(s.regs.Get(HL)) as bv16, ClearNBit(s.mem(s.regs.Get(HL)), n))))
  {
    GetBitNumber(s, n);
    GetAt(s, HL);
    OwnByte(s.mem(s.regs.Get(HL)));
  }

  /**
   * With HL = 0xC000 and 0xFF stored there, RES 0,(HL) as written leaves
   * 0xC000 holding 0xFF and writes 0xFE to 0x00FF instead; the corrected
   * RES stores 0xFE at 0xC000.
   */
  lemma ResAsWrittenMissesOperand(s: Machine)
    requires s.regs.Get(HL) == 0xC000 && s.mem(0xC000) == 0xFF
    ensures ResAsWrittenSpec(s, [BitNumber(0), At(HL)]).state.mem(0xC000) == 0xFF
    ensures ResAsWrittenSpec(s, [BitNumber(0), At(HL)]).state.mem(0x00FF) == 0xFE
    ensures BitWriteSpec(s, [BitNumber(0), At(HL)], false).state.mem(0xC000) == 0xFE
  {
    ResAsWrittenAtHL(s, 0);
    BitWriteAtHL(s, 0, false);
  }
}
