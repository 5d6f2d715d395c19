/**
 * The arithmetic and logic handlers of pkg/cpu/operations.go: INC, DEC,
 * ADD, ADC, SUB, SBC, AND, OR, XOR and CP. Each handler is a method on the
 * CPU proved against a function from the old state to the outcome and the
 * new state; the lemmas relate those functions to the byte and word
 * arithmetic of internal/bits and to each other.
 */
module CpuOperationsAlu {
  import opened Errors
  import opened BitsBitwise
  import opened BitsArithmetic
  import opened Operands
  import opened CpuRegisters
  import opened CpuMemory
  import opened Cpu
  import opened CpuOperand
  import opened CpuSymbol
  import opened CpuAccess
  import opened CpuArith

  /** The flags INC sets on an 8-bit or dereferenced operand; C is left alone. */
  function IncFlags(r: Regs, result: bv16): Regs
  {
    r.WithFlag(FlagZ, result & 0xFF == 0).WithFlag(FlagN, false).WithFlag(FlagH, result & 0xF == 0)
  }

  /** The flags DEC sets on an 8-bit or dereferenced operand; C is left alone. */
  function DecFlags(r: Regs, result: bv16): Regs
  {
    r.WithFlag(FlagZ, result & 0xFF == 0).WithFlag(FlagN, true).WithFlag(FlagH, result & 0xF == 0xF)
  }

  function IncSpec(s: Machine, ops: seq<Operand>): Step
  {
    if |ops| == 0 then Step(Fail(IndexOutOfRange), s) else
    var g := GetSpec(s, ops[0]);
    var result := Plus(g.value, 1);
    var t := SetSpec(g.state, ops[0], result);
    if t.outcome.Fail? || (ops[0].Is16() && !ops[0].deref) then t
    else Step(Pass, t.state.(regs := IncFlags(t.state.regs, result)))
  }

  function DecSpec(s: Machine, ops: seq<Operand>): Step
  {
    if |ops| == 0 then Step(Fail(IndexOutOfRange), s) else
    var g := GetSpec(s, ops[0]);
    var result := Minus(g.value, 1);
    var t := SetSpec(g.state, ops[0], result);
    if t.outcome.Fail? || (ops[0].Is16() && !ops[0].deref) then t
    else Step(Pass, t.state.(regs := DecFlags(t.state.regs, result)))
  }

  /** ADD's store and flags: the SP form (0xE8), the 16-bit form and the 8-bit form. */
  function AddRegs(r: Regs, dst: Operand, x: bv16, y: bv16): Regs
    requires dst.symbol.RegisterSym?
  {
    AddFlags(r.Set(dst.symbol.reg, Plus(x, y)).WithFlag(FlagN, false), dst, x, y)
  }

  /** The flags ADD sets after storing the sum and clearing N. */
  function AddFlags(r: Regs, dst: Operand, x: bv16, y: bv16): Regs
  {
    if dst.symbol == RegisterSym(SP) then
      r.WithFlag(FlagZ, false).WithFlag(FlagH, CarryFromBit3(x, y, 0)).WithFlag(FlagC, CarryFromBit7(x, y, 0))
    else if dst.Is16() then
      r.WithFlag(FlagH, CarryFromBit11(x, y)).WithFlag(FlagC, CarryFromBit15(x, y))
    else
      r.WithFlag(FlagZ, Plus(x, y) & 0xFF == 0).WithFlag(FlagH, CarryFromBit3(x, y, 0)).WithFlag(FlagC, CarryFromBit7(x, y, 0))
  }

  function AddSpec(s: Machine, ops: seq<Operand>): Step
  {
    if |ops| == 0 then Step(Fail(IndexOutOfRange), s) else
    var a := GetSpec(s, ops[0]);
    if |ops| < 2 then Step(Fail(IndexOutOfRange), a.state) else
    var b := GetSpec(a.state, ops[1]);
    if !ops[0].symbol.RegisterSym? then Step(Fail(FailedTypeAssertion), b.state)
    else Step(Pass, b.state.(regs := AddRegs(b.state.regs, ops[0], a.value, b.value)))
  }

  /** The carry ADC and SBC take in: 1 when C is set. */
  function CarryIn(r: Regs): (c: bv16)
    ensures c <= 1 && (c == 1 <==> r.Flag(FlagC))
  {
    if r.Flag(FlagC) then 1 else 0
  }

  /** ADC's store into A and its flags. */
  function AdcRegs(r: Regs, x: bv16, y: bv16, c: bv16): Regs
  {
    var sum := PlusCarry(x, y, c);
    r.Set(A, sum).WithFlag(FlagZ, sum & 0xFF == 0).WithFlag(FlagN, false)
      .WithFlag(FlagH, CarryFromBit3(x, y, c)).WithFlag(FlagC, CarryFromBit7(x, y, c))
  }

  function AdcSpec(s: Machine, ops: seq<Operand>): Step
  {
    if |ops| == 0 then Step(Fail(IndexOutOfRange), s) else
    var a := GetSpec(s, ops[0]);
    if |ops| < 2 then Step(Fail(IndexOutOfRange), a.state) else
    var b := GetSpec(a.state, ops[1]);
    Step(Pass, b.state.(regs := AdcRegs(b.state.regs, a.value, b.value, CarryIn(b.state.regs))))
  }

  /** The flags SUB and CP set from A (x) and the operand (y). */
  function CompareFlags(r: Regs, x: bv16, y: bv16): Regs
  {
    r.WithFlag(FlagZ, Minus(x, y) & 0xFF == 0).WithFlag(FlagN, true)
      .WithFlag(FlagH, BorrowIntoBit4(x, y, 0)).WithFlag(FlagC, BorrowIntoBit8(x, y, 0))
  }

  function SubSpec(s: Machine, ops: seq<Operand>): Step
  {
    if |ops| == 0 then Step(Fail(IndexOutOfRange), s) else
    var x := s.regs.a as bv16;
    var g := GetSpec(s, ops[0]);
    Step(Pass, g.state.(regs := CompareFlags(g.state.regs.Set(A, Minus(x, g.value)), x, g.value)))
  }

  function CpSpec(s: Machine, ops: seq<Operand>): Step
  {
    if |ops| == 0 then Step(Fail(IndexOutOfRange), s) else
    var x := s.regs.a as bv16;
    var g := GetSpec(s, ops[0]);
    Step(Pass, g.state.(regs := CompareFlags(g.state.regs, x, g.value)))
  }

  /** SBC's store into A and its flags, given the difference it computes. */
  function SbcRegs(r: Regs, x: bv16, y: bv16, c: bv16, diff: bv16): Regs
  {
    r.Set(A, diff).WithFlag(FlagZ, diff & 0xFF == 0).WithFlag(FlagN, true)
      .WithFlag(FlagH, BorrowIntoBit4(x, y, c)).WithFlag(FlagC, BorrowIntoBit8(x, y, c))
  }

  /**
   * SBC as pkg/cpu/operations.go writes it: the subtrahend is ops[0],
   * which the table always gives as A, and the carry is added.
   */
  function SbcAsWrittenSpec(s: Machine, ops: seq<Operand>): Step
  {
    if |ops| == 0 then Step(Fail(IndexOutOfRange), s) else
    var x := s.regs.a as bv16;
    var g := GetSpec(s, ops[0]);
    var c := CarryIn(g.state.regs);
    Step(Pass, g.state.(regs := SbcRegs(g.state.regs, x, g.value, c, MinusPlusCarry(x, g.value, c))))
  }

  /** SBC A,r as intended: A - r - carry, with r the second operand. */
  function SbcSpec(s: Machine, ops: seq<Operand>): Step
  {
    if |ops| < 2 then Step(Fail(IndexOutOfRange), s) else
    var x := s.regs.a as bv16;
    var g := GetSpec(s, ops[1]);
    var c := CarryIn(g.state.regs);
    Step(Pass, g.state.(regs := SbcRegs(g.state.regs, x, g.value, c, MinusCarry(x, g.value, c))))
  }

  /** The flags AND, OR and XOR set from the new A; AND alone sets H. */
  function LogicFlags(r: Regs, halfCarry: bool): Regs
  {
    r.WithFlag(FlagZ, r.a == 0).WithFlag(FlagN, false).WithFlag(FlagH, halfCarry).WithFlag(FlagC, false)
  }

  function AndSpec(s: Machine, ops: seq<Operand>): Step
  {
    if |ops| == 0 then Step(Fail(IndexOutOfRange), s) else
    var g := GetSpec(s, ops[0]);
    Step(Pass, g.state.(regs := LogicFlags(g.state.regs.(a := g.state.regs.a & Lo(g.value)), true)))
  }

  function OrSpec(s: Machine, ops: seq<Operand>): Step
  {
    if |ops| == 0 then Step(Fail(IndexOutOfRange), s) else
    var g := GetSpec(s, ops[0]);
    Step(Pass, g.state.(regs := LogicFlags(g.state.regs.(a := g.state.regs.a | Lo(g.value)), false)))
  }

  function XorSpec(s: Machine, ops: seq<Operand>): Step
  {
    if |ops| == 0 then Step(Fail(IndexOutOfRange), s) else
    var g := GetSpec(s, ops[0]);
    Step(Pass, g.state.(regs := LogicFlags(g.state.regs.(a := g.state.regs.a ^ Lo(g.value)), false)))
  }

  method INC(cpu: CPU, ops: seq<Operand>) returns (r: Outcome)
    modifies cpu, cpu.registers
    ensures Step(r, cpu.State()) == IncSpec(old(cpu.State()), ops)
  {
    if |ops| == 0 {
      return Fail(IndexOutOfRange);
    }
    var src := ops[0];
    var val := Get(cpu, src);
    var result := Plus(val, 1);
    r := Set(cpu, src, result);
    if r.Fail? || (src.Is16() && !src.deref) {
      return;
    }
    SetIncFlags(cpu.registers, result);
  }

  /** INC's three SetFlag calls. */
  method SetIncFlags(registers: Registers, result: bv16)
    modifies registers
    ensures registers.Value() == IncFlags(old(registers.Value()), result)
  {
    registers.SetFlagTo(FlagZ, result & 0xFF == 0);
    registers.SetFlagTo(FlagN, false);
    registers.SetFlagTo(FlagH, result & 0xF == 0);
  }

  method DEC(cpu: CPU, ops: seq<Operand>) returns (r: Outcome)
    modifies cpu, cpu.registers
    ensures Step(r, cpu.State()) == DecSpec(old(cpu.State()), ops)
  {
    if |ops| == 0 {
      return Fail(IndexOutOfRange);
    }
    var src := ops[0];
    var val := Get(cpu, src);
    var result := Minus(val, 1);
    r := Set(cpu, src, result);
    if r.Fail? || (src.Is16() && !src.deref) {
      return;
    }
    SetDecFlags(cpu.registers, result);
  }

  /** DEC's three SetFlag calls. */
  method SetDecFlags(registers: Registers, result: bv16)
    modifies registers
    ensures registers.Value() == DecFlags(old(registers.Value()), result)
  {
    registers.SetFlagTo(FlagZ, result & 0xFF == 0);
    registers.SetFlagTo(FlagN, true);
    registers.SetFlagTo(FlagH, result & 0xF == 0xF);
  }

  method ADD(cpu: CPU, ops: seq<Operand>) returns (r: Outcome)
    modifies cpu.registers
    ensures Step(r, cpu.State()) == AddSpec(old(cpu.State()), ops)
  {
    if |ops| == 0 {
      return Fail(IndexOutOfRange);
    }
    var valA := Get(cpu, ops[0]);
    if |ops| < 2 {
      return Fail(IndexOutOfRange);
    }
    var valB := Get(cpu, ops[1]);
    if !ops[0].symbol.RegisterSym? {
      return Fail(FailedTypeAssertion);
    }
    StoreSum(cpu.registers, ops[0], valA, valB);
    r := Pass;
  }

  /** The part of ADD after the operands are read: the store and the flags. */
  method StoreSum(registers: Registers, dst: Operand, valA: bv16, valB: bv16)
    requires dst.symbol.RegisterSym?
    modifies registers
    ensures registers.Value() == AddRegs(old(registers.Value()), dst, valA, valB)
  {
    var sum := Plus(valA, valB);
    registers.Set(dst.symbol.reg, sum);
    registers.SetFlagTo(FlagN, false);
    SetAddFlags(registers, dst, valA, valB);
  }

  /** The SetFlag calls of ADD's three forms. */
  method SetAddFlags(registers: Registers, dst: Operand, valA: bv16, valB: bv16)
    modifies registers
    ensures registers.Value() == AddFlags(old(registers.Value()), dst, valA, valB)
  {
    if dst.symbol == RegisterSym(SP) {
      registers.SetFlagTo(FlagZ, false);
      registers.SetFlagTo(FlagH, CarryFromBit3(valA, valB, 0));
      registers.SetFlagTo(FlagC, CarryFromBit7(valA, valB, 0));
    } else if dst.Is16() {
      registers.SetFlagTo(FlagH, CarryFromBit11(valA, valB));
      registers.SetFlagTo(FlagC, CarryFromBit15(valA, valB));
    } else {
      registers.SetFlagTo(FlagZ, Plus(valA, valB) & 0xFF == 0);
      registers.SetFlagTo(FlagH, CarryFromBit3(valA, valB, 0));
      registers.SetFlagTo(FlagC, CarryFromBit7(valA, valB, 0));
    }
  }

  method ADC(cpu: CPU, ops: seq<Operand>) returns (r: Outcome)
    modifies cpu.registers
    ensures Step(r, cpu.State()) == AdcSpec(old(cpu.State()), ops)
  {
    if |ops| == 0 {
      return Fail(IndexOutOfRange);
    }
    var valA := Get(cpu, ops[0]);
    if |ops| < 2 {
      return Fail(IndexOutOfRange);
    }
    var valB := Get(cpu, ops[1]);
    StoreCarrySum(cpu.registers, valA, valB);
    r := Pass;
  }

  /** The part of ADC after the operands are read: the carry-in, the store into A and the flags. */
  method StoreCarrySum(registers: Registers, valA: bv16, valB: bv16)
    modifies registers
    ensures registers.Value() == AdcRegs(old(registers.Value()), valA, valB, CarryIn(old(registers.Value())))
  {
    var carry: bv16 := 0;
    if registers.Value().Flag(FlagC) {
      carry := 1;
    }
    var sum := PlusCarry(valA, valB, carry);
    registers.Set(A, sum);
    registers.SetFlagTo(FlagZ, sum & 0xFF == 0);
    registers.SetFlagTo(FlagN, false);
    registers.SetFlagTo(FlagH, CarryFromBit3(valA, valB, carry));
    registers.SetFlagTo(FlagC, CarryFromBit7(valA, valB, carry));
  }

  method SUB(cpu: CPU, ops: seq<Operand>) returns (r: Outcome)
    modifies cpu.registers
    ensures Step(r, cpu.State()) == SubSpec(old(cpu.State()), ops)
  {
    if |ops| == 0 {
      return Fail(IndexOutOfRange);
    }
    var valA := cpu.registers.a as bv16;
    var valB := Get(cpu, ops[0]);
    StoreDifference(cpu.registers, valA, valB);
    r := Pass;
  }

  /** The part of SUB after the operands are read: the store into A and the flags. */
  method StoreDifference(registers: Registers, valA: bv16, valB: bv16)
    modifies registers
    ensures registers.Value() == CompareFlags(old(registers.Value()).Set(A, Minus(valA, valB)), valA, valB)
  {
    registers.Set(A, Minus(valA, valB));
    SetCompareFlags(registers, valA, valB);
  }

  method CP(cpu: CPU, ops: seq<Operand>) returns (r: Outcome)
    modifies cpu.registers
    ensures Step(r, cpu.State()) == CpSpec(old(cpu.State()), ops)
  {
    if |ops| == 0 {
      return Fail(IndexOutOfRange);
    }
    var valA := cpu.registers.a as bv16;
    var valB := Get(cpu, ops[0]);
    SetCompareFlags(cpu.registers, valA, valB);
    r := Pass;
  }

  /** The four SetFlag calls SUB and CP share. */
  method SetCompareFlags(registers: Registers, valA: bv16, valB: bv16)
    modifies registers
    ensures registers.Value() == CompareFlags(old(registers.Value()), valA, valB)
  {
    registers.SetFlagTo(FlagZ, Minus(valA, valB) & 0xFF == 0);
    registers.SetFlagTo(FlagN, true);
    registers.SetFlagTo(FlagH, BorrowIntoBit4(valA, valB, 0));
    registers.SetFlagTo(FlagC, BorrowIntoBit8(valA, valB, 0));
  }

  /** SBC with the subtrahend taken from the second operand and the carry subtracted. */
  method SBC(cpu: CPU, ops: seq<Operand>) returns (r: Outcome)
    modifies cpu.registers
    ensures Step(r, cpu.State()) == SbcSpec(old(cpu.State()), ops)
  {
    if |ops| < 2 {
      return Fail(IndexOutOfRange);
    }
    var valA := cpu.registers.a as bv16;
    var valB := Get(cpu, ops[1]);
    StoreBorrowDifference(cpu.registers, valA, valB);
    r := Pass;
  }

  /** The part of SBC after the operands are read: the carry-in, the store into A and the flags. */
  method StoreBorrowDifference(registers: Registers, valA: bv16, valB: bv16)
    modifies registers
    ensures var c := CarryIn(old(registers.Value()));
      registers.Value() == SbcRegs(old(registers.Value()), valA, valB, c, MinusCarry(valA, valB, c))
  {
    var carry: bv16 := 0;
    if registers.Value().Flag(FlagC) {
      carry := 1;
    }
    var diff := MinusCarry(valA, valB, carry);
    registers.Set(A, diff);
    registers.SetFlagTo(FlagZ, diff & 0xFF == 0);
    registers.SetFlagTo(FlagN, true);
    registers.SetFlagTo(FlagH, BorrowIntoBit4(valA, valB, carry));
    registers.SetFlagTo(FlagC, BorrowIntoBit8(valA, valB, carry));
  }

  method AND(cpu: CPU, ops: seq<Operand>) returns (r: Outcome)
    modifies cpu.registers
    ensures Step(r, cpu.State()) == AndSpec(old(cpu.State()), ops)
  {
    if |ops| == 0 {
      return Fail(IndexOutOfRange);
    }
    var val := Get(cpu, ops[0]);
    StoreLogic(cpu.registers, cpu.registers.a & Lo(val), true);
    r := Pass;
  }

  method OR(cpu: CPU, ops: seq<Operand>) returns (r: Outcome)
    modifies cpu.registers
    ensures Step(r, cpu.State()) == OrSpec(old(cpu.State()), ops)
  {
    if |ops| == 0 {
      return Fail(IndexOutOfRange);
    }
    var val := Get(cpu, ops[0]);
    StoreLogic(cpu.registers, cpu.registers.a | Lo(val), false);
    r := Pass;
  }

  method XOR(cpu: CPU, ops: seq<Operand>) returns (r: Outcome)
    modifies cpu.registers
    ensures Step(r, cpu.State()) == XorSpec(old(cpu.State()), ops)
  {
    if |ops| == 0 {
      return Fail(IndexOutOfRange);
    }
    var val := Get(cpu, ops[0]);
    StoreLogic(cpu.registers, cpu.registers.a ^ Lo(val), false);
    r := Pass;
  }

  /** The store into A and the four SetFlag calls AND, OR and XOR share. */
  method StoreLogic(registers: Registers, result: bv8, halfCarry: bool)
    modifies registers
    ensures registers.Value() == LogicFlags(old(registers.Value()).(a := result), halfCarry)
  {
    registers.a := result;
    registers.SetFlagTo(FlagZ, registers.a == 0);
    registers.SetFlagTo(FlagN, false);
    registers.SetFlagTo(FlagH, halfCarry);
    registers.SetFlagTo(FlagC, false);
  }


  /** INC r on an 8-bit register stores r + 1 and sets the flags from it. */
  lemma IncRegister(s: Machine, reg: Register)
    requires IsSingle(reg)
    ensures var x := Plus(s.regs.Get(reg), 1);
      IncSpec(s, [Reg(reg)]) == Step(Pass, s.(regs := IncFlags(s.regs.Set(reg, x), x)))
  {
    GetRegister(s, reg);
    var x := Plus(s.regs.Get(reg), 1);
    assert !Reg(reg).Is16();
    assert SetSpec(s, Reg(reg), x) == Step(Pass, s.(regs := s.regs.Set(reg, x)));
  }

  /** DEC r on an 8-bit register stores r - 1 and sets the flags from it. */
  lemma DecRegister(s: Machine, reg: Register)
    requires IsSingle(reg)
    ensures var x := Minus(s.regs.Get(reg), 1);
      DecSpec(s, [Reg(reg)]) == Step(Pass, s.(regs := DecFlags(s.regs.Set(reg, x), x)))
  {
    GetRegister(s, reg);
    var x := Minus(s.regs.Get(reg), 1);
    assert !Reg(reg).Is16();
    assert SetSpec(s, Reg(reg), x) == Step(Pass, s.(regs := s.regs.Set(reg, x)));
  }


  /** The flags INC and DEC set change F alone. */
  lemma IncDecFlagsFrame(r: Regs, x: bv16)
    ensures IncFlags(r, x) == r.(f := IncFlags(r, x).f)
    ensures DecFlags(r, x) == r.(f := DecFlags(r, x).f)
  {
  }

  /** INC r on an 8-bit register: r goes up by one mod 2^8 and memory is left as it was. */
  lemma {:induction false} IncByte(s: Machine, reg: Register)
    requires IsSingle(reg) && reg != F
    ensures IncSpec(s, [Reg(reg)]).outcome == Pass
    ensures IncSpec(s, [Reg(reg)]).state.mem == s.mem
    ensures Lo(IncSpec(s, [Reg(reg)]).state.regs.Get(reg)) == Lo(s.regs.Get(reg)) + 1
  {
    IncRegister(s, reg);
    var v := s.regs.Get(reg);
    var x := Plus(v, 1);
    var t := s.regs.Set(reg, x);
    IncDecFlagsFrame(t, x);
    FlagsKeepRegister(t, IncFlags(t, x).f, reg);
    assert IncFlags(t, x).Get(reg) == x & 0xFF;
    ByteIncrement(Lo(v));
    assert v == Lo(v) as bv16;
  }

  /** INC r sets Z exactly when r wraps to 0 and H exactly when its low nibble was 0xF; N is cleared and C kept. */
  lemma IncByteFlags(s: Machine, reg: Register)
    requires IsSingle(reg) && reg != F
    ensures var r := IncSpec(s, [Reg(reg)]).state.regs;
      (r.Flag(FlagZ) <==> s.regs.Get(reg) == 0xFF) && !r.Flag(FlagN) &&
      (r.Flag(FlagH) <==> s.regs.Get(reg) & 0xF == 0xF) &&
      r.Flag(FlagC) == s.regs.Flag(FlagC)
  {
    IncRegister(s, reg);
  }

  /** DEC r sets Z exactly when r drops to 0 and H exactly when its low nibble was 0; N is set and C kept. */
  lemma DecByteFlags(s: Machine, reg: Register)
    requires IsSingle(reg) && reg != F
    ensures var r := DecSpec(s, [Reg(reg)]).state.regs;
      (r.Flag(FlagZ) <==> s.regs.Get(reg) == 1) && r.Flag(FlagN) &&
      (r.Flag(FlagH) <==> s.regs.Get(reg) & 0xF == 0) &&
      r.Flag(FlagC) == s.regs.Flag(FlagC)
  {
    DecRegister(s, reg);
  }

  /** DEC r undoes INC r on an 8-bit register's value. */
  lemma {:induction false} DecAfterIncByte(s: Machine, reg: Register)
    requires IsSingle(reg) && reg != F
    ensures DecSpec(IncSpec(s, [Reg(reg)]).state, [Reg(reg)]).state.regs.Get(reg) == s.regs.Get(reg)
  {
    IncByte(s, reg);
    var s1 := IncSpec(s, [Reg(reg)]).state;
    DecRegister(s1, reg);
    var w := s1.regs.Get(reg);
    var x := Minus(w, 1);
    var t := s1.regs.Set(reg, x);
    IncDecFlagsFrame(t, x);
    FlagsKeepRegister(t, DecFlags(t, x).f, reg);
    assert DecFlags(t, x).Get(reg) == x & 0xFF;
    ByteIncrement(Lo(w));
    assert w == Lo(w) as bv16;
    assert s.regs.Get(reg) == Lo(s.regs.Get(reg)) as bv16;
  }

  /** INC rr on BC, DE, HL or SP stores rr + 1 and touches no flag. */
  lemma IncPair(s: Machine, reg: Register)
    requires reg in {BC, DE, HL, SP}
    ensures IncSpec(s, [Reg(reg)]) == Step(Pass, s.(regs := s.regs.Set(reg, Plus(s.regs.Get(reg), 1))))
  {
    GetRegister(s, reg);
  }

  /** DEC rr on BC, DE, HL or SP stores rr - 1 and touches no flag. */
  lemma DecPair(s: Machine, reg: Register)
    requires reg in {BC, DE, HL, SP}
    ensures DecSpec(s, [Reg(reg)]) == Step(Pass, s.(regs := s.regs.Set(reg, Minus(s.regs.Get(reg), 1))))
  {
    GetRegister(s, reg);
  }

  /** INC rr adds one mod 2^16, as bits.Add16 does, and leaves F as it was. */
  lemma IncWide(s: Machine, reg: Register)
    requires reg in {BC, DE, HL, SP}
    ensures IncSpec(s, [Reg(reg)]).state.regs.Get(reg) == Add16(s.regs.Get(reg), 1, 0).sum
    ensures IncSpec(s, [Reg(reg)]).state.regs.f == s.regs.f
  {
    IncPair(s, reg);
    WordAddAgrees(s.regs.Get(reg), 1);
    SetFields(s.regs, reg, Plus(s.regs.Get(reg), 1));
  }

  /** DEC rr undoes INC rr on BC, DE, HL or SP: the whole machine is as before. */
  lemma DecAfterIncWide(s: Machine, reg: Register)
    requires reg in {BC, DE, HL, SP}
    ensures DecSpec(IncSpec(s, [Reg(reg)]).state, [Reg(reg)]) == Step(Pass, s)
  {
    IncPair(s, reg);
    DecPair(IncSpec(s, [Reg(reg)]).state, reg);
    PairStepBack(s.regs, reg);
  }

  /** Storing rr + 1 and then one less than what rr holds gives the registers back. */
  lemma PairStepBack(r: Regs, reg: Register)
    requires reg in {BC, DE, HL, SP}
    ensures var r1 := r.Set(reg, Plus(r.Get(reg), 1));
      r1.Set(reg, Minus(r1.Get(reg), 1)) == r
  {
    var v := r.Get(reg);
    assert r.Set(reg, Plus(v, 1)).Get(reg) == Plus(v, 1);
    assert Minus(Plus(v, 1), 1) == v;
    SetTwice(r, reg, Plus(v, 1), v);
    SetOwnValue(r, reg);
  }

  /** A second Set of a 16-bit register overrides the first. */
  lemma SetTwice(r: Regs, reg: Register, v: bv16, w: bv16)
    requires reg in {BC, DE, HL, SP}
    ensures r.Set(reg, v).Set(reg, w) == r.Set(reg, w)
  {
  }

  /** Get changes nothing but PC: immediates move it, everything else leaves the machine as it was. */
  lemma GetMovesOnlyPC(s: Machine, op: Operand)
    ensures GetSpec(s, op).state == s.(regs := s.regs.(pc := GetSpec(s, op).state.regs.pc))
  {
    if op.symbol.DataSym? || op.symbol.AddressSym? {
      ResolveMovesPC(s, op.symbol);
    } else {
      ResolveWithoutFetch(s, op.symbol);
    }
  }

  /** ADD A,r reads A and r and stores through AddRegs. */
  lemma AddRegisters(s: Machine, dst: Register, src: Register)
    ensures AddSpec(s, [Reg(dst), Reg(src)]) ==
      Step(Pass, s.(regs := AddRegs(s.regs, Reg(dst), s.regs.Get(dst), s.regs.Get(src))))
  {
    GetRegister(s, dst);
    GetRegister(s, src);
  }

  /** On A and a byte, AddRegs stores bits.Add8's sum, sets C to its carry-out and Z when the sum is 0. */
  lemma AddRegsByte(r: Regs, y: bv8)
    ensures var t := AddRegs(r, Reg(A), r.a as bv16, y as bv16);
      t.a == Add8(r.a, y, 0).sum && (t.Flag(FlagC) <==> Add8(r.a, y, 0).carryOut == 1) &&
      (t.Flag(FlagZ) <==> t.a == 0) && !t.Flag(FlagN)
  {
    ByteSumAgrees(r.a, y);
  }

  /** ADD A,r on 8-bit registers agrees with bits.Add8 without carry-in. */
  lemma {:induction false} AddByte(s: Machine, reg: Register)
    requires IsSingle(reg)
    ensures AddSpec(s, [Reg(A), Reg(reg)]).state.regs.a == Add8(s.regs.a, Lo(s.regs.Get(reg)), 0).sum
    ensures AddSpec(s, [Reg(A), Reg(reg)]).state.regs.Flag(FlagC) <==> Add8(s.regs.a, Lo(s.regs.Get(reg)), 0).carryOut == 1
    ensures AddSpec(s, [Reg(A), Reg(reg)]).state.regs.Flag(FlagZ) <==> AddSpec(s, [Reg(A), Reg(reg)]).state.regs.a == 0
    ensures !AddSpec(s, [Reg(A), Reg(reg)]).state.regs.Flag(FlagN)
  {
    AddByteShape(s, reg);
    AddRegsByte(s.regs, Lo(s.regs.Get(reg)));
  }

  /** ADD A,r with r an 8-bit register works on A's and r's bytes. */
  lemma AddByteShape(s: Machine, reg: Register)
    requires IsSingle(reg)
    ensures AddSpec(s, [Reg(A), Reg(reg)]).state.regs == AddRegs(s.regs, Reg(A), s.regs.a as bv16, Lo(s.regs.Get(reg)) as bv16)
  {
    AddRegisters(s, A, reg);
    var y := s.regs.Get(reg);
    assert y == Lo(y) as bv16;
    assert s.regs.Get(A) == s.regs.a as bv16;
  }

  /** On HL and a word, AddRegs stores bits.Add16's sum, sets C to its carry-out and keeps Z. */
  lemma AddRegsWide(r: Regs, y: bv16)
    ensures var t := AddRegs(r, Reg(HL), r.GetHL(), y);
      t.GetHL() == Add16(r.GetHL(), y, 0).sum && (t.Flag(FlagC) <==> Add16(r.GetHL(), y, 0).carryOut == 1) &&
      t.Flag(FlagZ) == r.Flag(FlagZ) && !t.Flag(FlagN)
  {
    WordAddAgrees(r.GetHL(), y);
    var t0 := r.Set(HL, Plus(r.GetHL(), y));
    assert t0.f == r.f;
    var t1 := t0.WithFlag(FlagN, false);
    assert AddRegs(r, Reg(HL), r.GetHL(), y) == t1.WithFlag(FlagH, CarryFromBit11(r.GetHL(), y)).WithFlag(FlagC, CarryFromBit15(r.GetHL(), y));
  }

  /** ADD HL,rr agrees with bits.Add16 and leaves Z as it was. */
  lemma {:induction false} AddWide(s: Machine, reg: Register)
    requires reg in {BC, DE, HL, SP}
    ensures var t := AddSpec(s, [Reg(HL), Reg(reg)]).state.regs;
      var sum := Add16(s.regs.GetHL(), s.regs.Get(reg), 0);
      t.GetHL() == sum.sum && (t.Flag(FlagC) <==> sum.carryOut == 1) && t.Flag(FlagZ) == s.regs.Flag(FlagZ)
  {
    AddRegisters(s, HL, reg);
    AddRegsWide(s.regs, s.regs.Get(reg));
  }

  /** ADD SP,x adds the operand to SP and always clears Z and N. */
  lemma AddSP(s: Machine, ops: seq<Operand>)
    requires |ops| >= 2 && ops[0] == Reg(SP)
    ensures AddSpec(s, ops).outcome == Pass
    ensures AddSpec(s, ops).state.regs.sp == Plus(s.regs.sp, GetSpec(s, ops[1]).value)
    ensures !AddSpec(s, ops).state.regs.Flag(FlagZ) && !AddSpec(s, ops).state.regs.Flag(FlagN)
  {
    GetRegister(s, SP);
    var b := GetSpec(s, ops[1]);
    var t := b.state.regs.Set(SP, Plus(s.regs.sp, b.value)).WithFlag(FlagN, false);
    assert AddSpec(s, ops) == Step(Pass, b.state.(regs := AddFlags(t, Reg(SP), s.regs.sp, b.value)));
  }

  /** ADC A,r with r a plain register works on A, r and the carry flag. */
  lemma AdcByteShape(s: Machine, reg: Register)
    ensures AdcSpec(s, [Reg(A), Reg(reg)]).state.regs ==
      AdcRegs(s.regs, s.regs.Get(A), s.regs.Get(reg), CarryIn(s.regs))
  {
    GetRegister(s, A);
    GetRegister(s, reg);
  }

  /** AdcRegs stores the low byte of the sum in A and sets C from the carry out of bit 7; Z says A is 0. */
  lemma AdcRegsFields(r: Regs, x: bv16, y: bv16, c: bv16)
    ensures AdcRegs(r, x, y, c).a == Lo(PlusCarry(x, y, c))
    ensures AdcRegs(r, x, y, c).Flag(FlagC) == CarryFromBit7(x, y, c)
    ensures AdcRegs(r, x, y, c).Flag(FlagZ) <==> AdcRegs(r, x, y, c).a == 0
    ensures !AdcRegs(r, x, y, c).Flag(FlagN)
  {
  }

  /** ADC A,r on 8-bit registers agrees with bits.Add8 with C as the carry-in. */
  lemma {:induction false} AdcByte(s: Machine, reg: Register)
    requires IsSingle(reg)
    ensures AdcSpec(s, [Reg(A), Reg(reg)]).state.regs.a == Add8(s.regs.a, Lo(s.regs.Get(reg)), Lo(CarryIn(s.regs))).sum
    ensures AdcSpec(s, [Reg(A), Reg(reg)]).state.regs.Flag(FlagC) <==>
      Add8(s.regs.a, Lo(s.regs.Get(reg)), Lo(CarryIn(s.regs))).carryOut == 1
  {
    AdcByteShape(s, reg);
    AdcRegsByte(s.regs, s.regs.Get(A), s.regs.Get(reg));
  }

  /** On A, a byte value and the carry, ADC's store and flags give bits.Add8's sum and carry-out. */
  lemma AdcRegsByte(r: Regs, x: bv16, y: bv16)
    requires x == r.a as bv16 && y < 0x100
    ensures AdcRegs(r, x, y, CarryIn(r)).a == Add8(r.a, Lo(y), Lo(CarryIn(r))).sum
    ensures AdcRegs(r, x, y, CarryIn(r)).Flag(FlagC) <==> Add8(r.a, Lo(y), Lo(CarryIn(r))).carryOut == 1
  {
    var c := CarryIn(r);
    AdcRegsFields(r, x, y, c);
    assert y == Lo(y) as bv16 && c == Lo(c) as bv16;
    ByteAdcAgrees(r.a, Lo(y), Lo(c));
  }

  /** SUB r on a plain register subtracts r from A. */
  lemma SubByteShape(s: Machine, reg: Register)
    ensures var x := s.regs.a as bv16;
      var y := s.regs.Get(reg);
      SubSpec(s, [Reg(reg)]).state.regs == CompareFlags(s.regs.Set(A, Minus(x, y)), x, y)
  {
    GetRegister(s, reg);
  }


  /** CompareFlags leaves A alone; Z says the low byte of the difference is 0 and C is the borrow out of the low byte. */
  lemma CompareFlagsFields(r: Regs, x: bv16, y: bv16)
    ensures CompareFlags(r, x, y).a == r.a
    ensures CompareFlags(r, x, y).Flag(FlagZ) <==> Minus(x, y) & 0xFF == 0
    ensures CompareFlags(r, x, y).Flag(FlagC) == BorrowIntoBit8(x, y, 0)
    ensures CompareFlags(r, x, y).Flag(FlagN)
  {
  }

  /** SUB r on 8-bit registers agrees with bits.Sub8 without borrow-in; C is set exactly when A was below r and Z when they were equal. */
  lemma {:induction false} SubByte(s: Machine, reg: Register)
    requires IsSingle(reg)
    ensures SubSpec(s, [Reg(reg)]).state.regs.a == Sub8(s.regs.a, Lo(s.regs.Get(reg)), 0).sum
    ensures SubSpec(s, [Reg(reg)]).state.regs.Flag(FlagC) <==> s.regs.a as bv16 < s.regs.Get(reg)
    ensures SubSpec(s, [Reg(reg)]).state.regs.Flag(FlagZ) <==> s.regs.a as bv16 == s.regs.Get(reg)
  {
    SubByteShape(s, reg);
    SubRegsByte(s.regs, s.regs.Get(reg));
  }


  /** On A and a byte value, SUB's store gives bits.Sub8's difference, C says A was below the value and Z that they were equal. */
  lemma SubRegsByte(r: Regs, y: bv16)
    requires y < 0x100
    ensures CompareFlags(r.Set(A, Minus(r.a as bv16, y)), r.a as bv16, y).a == Sub8(r.a, Lo(y), 0).sum
    ensures CompareFlags(r.Set(A, Minus(r.a as bv16, y)), r.a as bv16, y).Flag(FlagC) <==> r.a as bv16 < y
    ensures CompareFlags(r.Set(A, Minus(r.a as bv16, y)), r.a as bv16, y).Flag(FlagZ) <==> r.a as bv16 == y
  {
    var x := r.a as bv16;
    var d := Minus(x, y);
    var r1 := r.Set(A, d);
    assert r1.a == Lo(d);
    CompareFlagsByte(r1, x, y);
    ByteDifferenceLow(r.a, y);
  }

  /** The low byte of a byte minus a byte value is bits.Sub8's difference. */
  lemma ByteDifferenceLow(x: bv8, y: bv16)
    requires y < 0x100
    ensures Lo(Minus(x as bv16, y)) == Sub8(x, Lo(y), 0).sum
  {
    var b := Lo(y);
    assert y == b as bv16;
    ByteDifferenceAgrees(x, b);
  }



  /** SUB A clears A, sets Z and N, and clears H and C. */
  lemma SubSelf(s: Machine)
    ensures SubSpec(s, [Reg(A)]).state.regs.a == 0
    ensures SubSpec(s, [Reg(A)]).state.regs.Flag(FlagZ) && SubSpec(s, [Reg(A)]).state.regs.Flag(FlagN)
    ensures !SubSpec(s, [Reg(A)]).state.regs.Flag(FlagH) && !SubSpec(s, [Reg(A)]).state.regs.Flag(FlagC)
  {
    SubByteShape(s, A);
    var x := s.regs.a as bv16;
    assert Lo(s.regs.Get(A)) as bv16 == x;
    assert Minus(x, x) == 0;
    assert !BorrowIntoBit4(x, x, 0) && !BorrowIntoBit8(x, x, 0);
  }

  /** CompareFlags changes F alone. */
  lemma CompareFlagsOnlyF(r: Regs, x: bv16, y: bv16)
    ensures CompareFlags(r, x, y) == r.(f := CompareFlags(r, x, y).f)
  {
  }

  /** Storing into A before CompareFlags changes A alone. */
  lemma CompareFlagsKeepA(r: Regs, v: bv16, x: bv16, y: bv16)
    ensures CompareFlags(r.Set(A, v), x, y) == CompareFlags(r, x, y).(a := Lo(v))
  {
  }

  /** CP is SUB without the store: the same outcome, the same flags, and A as it was. */
  lemma CpIsSubWithoutStore(s: Machine, ops: seq<Operand>)
    requires |ops| >= 1
    ensures CpSpec(s, ops).outcome == SubSpec(s, ops).outcome
    ensures CpSpec(s, ops).state == SubSpec(s, ops).state.(regs := SubSpec(s, ops).state.regs.(a := s.regs.a))
  {
    var g := GetSpec(s, ops[0]);
    GetMovesOnlyPC(s, ops[0]);
    var x := s.regs.a as bv16;
    var d := Minus(x, g.value);
    var compared := CompareFlags(g.state.regs, x, g.value);
    CompareFlagsKeepA(g.state.regs, d, x, g.value);
    CompareFlagsOnlyF(g.state.regs, x, g.value);
    var cp, sub := CpSpec(s, ops).state, SubSpec(s, ops).state;
    assert cp == g.state.(regs := compared);
    assert sub == g.state.(regs := compared.(a := Lo(d)));
    assert compared.a == s.regs.a;
    assert sub.regs.(a := s.regs.a) == compared;
  }

  /** CP r on a plain register compares A with r. */
  lemma CpByteShape(s: Machine, reg: Register)
    ensures CpSpec(s, [Reg(reg)]).state.regs == CompareFlags(s.regs, s.regs.a as bv16, s.regs.Get(reg))
  {
    GetRegister(s, reg);
  }


  /** CP r on an 8-bit register leaves A alone, sets Z exactly when A equals r and C exactly when A is below r. */
  lemma {:induction false} CpByte(s: Machine, reg: Register)
    requires IsSingle(reg)
    ensures CpSpec(s, [Reg(reg)]).state.regs.a == s.regs.a
    ensures CpSpec(s, [Reg(reg)]).state.regs.Flag(FlagZ) <==> s.regs.a as bv16 == s.regs.Get(reg)
    ensures CpSpec(s, [Reg(reg)]).state.regs.Flag(FlagC) <==> s.regs.a as bv16 < s.regs.Get(reg)
  {
    CpByteShape(s, reg);
    CompareFlagsByte(s.regs, s.regs.a as bv16, s.regs.Get(reg));
  }



  /** On two byte values, CompareFlags keeps A, sets Z when they are equal and C when the first is below the second. */
  lemma CompareFlagsByte(r: Regs, x: bv16, y: bv16)
    requires x < 0x100 && y < 0x100
    ensures CompareFlags(r, x, y).a == r.a
    ensures CompareFlags(r, x, y).Flag(FlagZ) <==> x == y
    ensures CompareFlags(r, x, y).Flag(FlagC) <==> x < y
  {
    CompareFlagsFields(r, x, y);
    ByteDifferenceZero(x, y);
    ByteCompare(x, y);
  }

  /** SBC A,r on a plain register subtracts r and the carry from A. */
  lemma SbcByteShape(s: Machine, reg: Register)
    ensures var x := s.regs.a as bv16;
      var y := s.regs.Get(reg);
      var c := CarryIn(s.regs);
      SbcSpec(s, [Reg(A), Reg(reg)]).state.regs == SbcRegs(s.regs, x, y, c, MinusCarry(x, y, c))
  {
    GetRegister(s, reg);
  }


  /** SbcRegs stores the low byte of the difference in A and sets C from the borrow out of the low byte. */
  lemma SbcRegsFields(r: Regs, x: bv16, y: bv16, c: bv16, diff: bv16)
    ensures SbcRegs(r, x, y, c, diff).a == Lo(diff)
    ensures SbcRegs(r, x, y, c, diff).Flag(FlagC) == BorrowIntoBit8(x, y, c)
    ensures SbcRegs(r, x, y, c, diff).Flag(FlagN)
  {
  }

  /** SBC A,r on 8-bit registers agrees with bits.Sub8 with C as the borrow-in. */
  lemma {:induction false} SbcByte(s: Machine, reg: Register)
    requires IsSingle(reg)
    ensures SbcSpec(s, [Reg(A), Reg(reg)]).state.regs.a == Sub8(s.regs.a, Lo(s.regs.Get(reg)), Lo(CarryIn(s.regs))).sum
    ensures SbcSpec(s, [Reg(A), Reg(reg)]).state.regs.Flag(FlagC) <==>
      Sub8(s.regs.a, Lo(s.regs.Get(reg)), Lo(CarryIn(s.regs))).carryOut == 1
  {
    SbcByteShape(s, reg);
    SbcRegsByte(s.regs, s.regs.Get(reg));
  }


  /** On A, a byte value and the carry, SBC's store and flags give bits.Sub8's difference and borrow. */
  lemma SbcRegsByte(r: Regs, y: bv16)
    requires y < 0x100
    ensures SbcRegs(r, r.a as bv16, y, CarryIn(r), MinusCarry(r.a as bv16, y, CarryIn(r))).a ==
      Sub8(r.a, Lo(y), Lo(CarryIn(r))).sum
    ensures SbcRegs(r, r.a as bv16, y, CarryIn(r), MinusCarry(r.a as bv16, y, CarryIn(r))).Flag(FlagC) <==>
      Sub8(r.a, Lo(y), Lo(CarryIn(r))).carryOut == 1
  {
    var x := r.a as bv16;
    var c := CarryIn(r);
    SbcRegsFields(r, x, y, c, MinusCarry(x, y, c));
    BorrowDifferenceAgrees(r.a, y, c);
  }

  /** ByteSubAgrees for a byte value and a carry held in uint16s. */
  lemma BorrowDifferenceAgrees(x: bv8, y: bv16, c: bv16)
    requires y < 0x100 && c <= 1
    ensures Lo(MinusCarry(x as bv16, y, c)) == Sub8(x, Lo(y), Lo(c)).sum
    ensures BorrowIntoBit8(x as bv16, y, c) <==> Sub8(x, Lo(y), Lo(c)).carryOut == 1
  {
    var b := Lo(y);
    var k := Lo(c);
    assert y == b as bv16 && c == k as bv16;
    ByteSubAgrees(x, b, k);
  }



  /** SBC as written, when the table gives A as its first operand, takes A as the subtrahend. */
  lemma SbcAsWrittenShape(s: Machine, ops: seq<Operand>)
    requires |ops| >= 1 && ops[0] == Reg(A)
    ensures var x := s.regs.a as bv16;
      var c := CarryIn(s.regs);
      SbcAsWrittenSpec(s, ops).state.regs == SbcRegs(s.regs, x, x, c, MinusPlusCarry(x, x, c))
  {
    GetRegister(s, A);
    assert s.regs.Get(A) == s.regs.a as bv16;
  }

  /**
   * SBC as written subtracts A from itself: whatever the second operand,
   * A ends up holding the carry flag.
   */
  lemma {:induction false} SbcAsWrittenIgnoresOperand(s: Machine, ops: seq<Operand>)
    requires |ops| >= 1 && ops[0] == Reg(A)
    ensures SbcAsWrittenSpec(s, ops).state.regs.a == Lo(CarryIn(s.regs))
  {
    SbcAsWrittenShape(s, ops);
    var x := s.regs.a as bv16;
    var c := CarryIn(s.regs);
    SbcRegsFields(s.regs, x, x, c, MinusPlusCarry(x, x, c));
    assert MinusPlusCarry(x, x, c) == c;
  }

  /** SBC A,B with A = 5, B = 1 and C set: as written A becomes 1, as intended 5 - 1 - 1 = 3. */
  lemma SbcAsWrittenExample(s: Machine)
    requires s.regs.a == 5 && s.regs.b == 1 && s.regs.Flag(FlagC)
    ensures SbcAsWrittenSpec(s, [Reg(A), Reg(B)]).state.regs.a == 1
    ensures SbcSpec(s, [Reg(A), Reg(B)]).state.regs.a == 3
  {
    SbcAsWrittenIgnoresOperand(s, [Reg(A), Reg(B)]);
    SbcByte(s, B);
  }

  /** INC (HL) stores one more than the byte HL points at and sets the flags from it. */
  lemma IncAtHLShape(s: Machine)
    ensures var hl := s.regs.GetHL();
      var x := Plus(s.mem(hl) as bv16, 1);
      IncSpec(s, [At(HL)]) == Step(Pass, s.(mem := Store(s.mem, hl, Lo(x)), regs := IncFlags(s.regs, x)))
  {
    ResolveWithoutFetch(s, RegisterSym(HL));
  }

  /** INC (HL) adds one to the byte HL points at and leaves every other byte, and every register but F, alone. */
  lemma {:induction false} IncAtHL(s: Machine, other: bv16)
    requires other != s.regs.GetHL()
    ensures IncSpec(s, [At(HL)]).outcome == Pass
    ensures IncSpec(s, [At(HL)]).state.mem(s.regs.GetHL()) == s.mem(s.regs.GetHL()) + 1
    ensures IncSpec(s, [At(HL)]).state.mem(other) == s.mem(other)
    ensures IncSpec(s, [At(HL)]).state.regs == s.regs.(f := IncSpec(s, [At(HL)]).state.regs.f)
  {
    IncAtHLShape(s);
    ByteIncrement(s.mem(s.regs.GetHL()));
    IncDecFlagsFrame(s.regs, Plus(s.mem(s.regs.GetHL()) as bv16, 1));
  }

  /** XOR r on a plain register combines A with r. */
  lemma XorShape(s: Machine, reg: Register)
    ensures XorSpec(s, [Reg(reg)]).state.regs == LogicFlags(s.regs.(a := s.regs.a ^ Lo(s.regs.Get(reg))), false)
  {
    GetRegister(s, reg);
  }

  /** AND r on a plain register combines A with r. */
  lemma AndShape(s: Machine, reg: Register)
    ensures AndSpec(s, [Reg(reg)]).state.regs == LogicFlags(s.regs.(a := s.regs.a & Lo(s.regs.Get(reg))), true)
  {
    GetRegister(s, reg);
  }

  /** OR r on a plain register combines A with r. */
  lemma OrShape(s: Machine, reg: Register)
    ensures OrSpec(s, [Reg(reg)]).state.regs == LogicFlags(s.regs.(a := s.regs.a | Lo(s.regs.Get(reg))), false)
  {
    GetRegister(s, reg);
  }

  /** LogicFlags keeps A, sets Z exactly when A is 0, clears N and C, sets H as asked, and changes F alone. */
  lemma LogicFlagsFields(r: Regs, halfCarry: bool)
    ensures LogicFlags(r, halfCarry).a == r.a
    ensures LogicFlags(r, halfCarry).Flag(FlagZ) <==> r.a == 0
    ensures !LogicFlags(r, halfCarry).Flag(FlagN) && !LogicFlags(r, halfCarry).Flag(FlagC)
    ensures LogicFlags(r, halfCarry).Flag(FlagH) == halfCarry
    ensures LogicFlags(r, halfCarry) == r.(f := LogicFlags(r, halfCarry).f)
  {
  }

  /** Changing A leaves every other 8-bit register as it was. */
  lemma AccumulatorKeepsRegister(r: Regs, v: bv8, reg: Register)
    requires IsSingle(reg) && reg != A
    ensures r.(a := v).Get(reg) == r.Get(reg)
  {
    match reg
    case B =>
    case C =>
    case D =>
    case E =>
    case F =>
    case H =>
    case L =>
  }

  /** Storing into A and setting the logic flags leaves every other 8-bit register alone. */
  lemma LogicFlagsKeep(r: Regs, v: bv8, halfCarry: bool, reg: Register)
    requires IsSingle(reg) && reg != A && reg != F
    ensures LogicFlags(r.(a := v), halfCarry).Get(reg) == r.Get(reg)
  {
    var t := LogicFlags(r.(a := v), halfCarry);
    LogicFlagsFields(r.(a := v), halfCarry);
    FlagsKeepRegister(r.(a := v), t.f, reg);
    AccumulatorKeepsRegister(r, v, reg);
  }


  /** XOR A clears A, sets Z and clears N, H and C. */
  lemma {:induction false} XorSelf(s: Machine)
    ensures XorSpec(s, [Reg(A)]).state.regs.a == 0
    ensures XorSpec(s, [Reg(A)]).state.regs.Flag(FlagZ)
    ensures !XorSpec(s, [Reg(A)]).state.regs.Flag(FlagN) && !XorSpec(s, [Reg(A)]).state.regs.Flag(FlagH)
    ensures !XorSpec(s, [Reg(A)]).state.regs.Flag(FlagC)
  {
    XorShape(s, A);
    OwnByte(s.regs.a);
    assert s.regs.a ^ Lo(s.regs.Get(A)) == 0;
    LogicFlagsFields(s.regs.(a := 0), false);
  }

  /** XOR r with a register other than A and F XORs A with r and leaves r as it was. */
  lemma XorStep(s: Machine, reg: Register)
    requires IsSingle(reg) && reg != A && reg != F
    ensures XorSpec(s, [Reg(reg)]).state.regs.a == s.regs.a ^ Lo(s.regs.Get(reg))
    ensures XorSpec(s, [Reg(reg)]).state.regs.Get(reg) == s.regs.Get(reg)
  {
    var x := s.regs.a ^ Lo(s.regs.Get(reg));
    XorShape(s, reg);
    LogicFlagsKeep(s.regs, x, false, reg);
    LogicFlagsFields(s.regs.(a := x), false);
  }

  /** XOR r twice with a register other than A and F gives A back. */
  lemma XorTwice(s: Machine, reg: Register)
    requires IsSingle(reg) && reg != A && reg != F
    ensures XorSpec(XorSpec(s, [Reg(reg)]).state, [Reg(reg)]).state.regs.a == s.regs.a
  {
    XorStep(s, reg);
    XorStep(XorSpec(s, [Reg(reg)]).state, reg);
    XorTwiceByte(s.regs.a, Lo(s.regs.Get(reg)));
  }

  /** The byte fact behind XorTwice. */
  lemma XorTwiceByte(a: bv8, v: bv8)
    ensures (a ^ v) ^ v == a
  {
  }

  /** AND A leaves A as it is, sets Z exactly when A is 0, and sets H. */
  lemma {:induction false} AndTestsA(s: Machine)
    ensures AndSpec(s, [Reg(A)]).state.regs.a == s.regs.a
    ensures AndSpec(s, [Reg(A)]).state.regs.Flag(FlagZ) <==> s.regs.a == 0
    ensures AndSpec(s, [Reg(A)]).state.regs.Flag(FlagH)
  {
    AndShape(s, A);
    OwnByte(s.regs.a);
    assert s.regs.a & Lo(s.regs.Get(A)) == s.regs.a;
    assert s.regs.(a := s.regs.a) == s.regs;
    LogicFlagsFields(s.regs, true);
  }

  /** OR A leaves A as it is, sets Z exactly when A is 0, and clears H. */
  lemma {:induction false} OrTestsA(s: Machine)
    ensures OrSpec(s, [Reg(A)]).state.regs.a == s.regs.a
    ensures OrSpec(s, [Reg(A)]).state.regs.Flag(FlagZ) <==> s.regs.a == 0
    ensures !OrSpec(s, [Reg(A)]).state.regs.Flag(FlagH)
  {
    OrShape(s, A);
    OwnByte(s.regs.a);
    assert s.regs.a | Lo(s.regs.Get(A)) == s.regs.a;
    assert s.regs.(a := s.regs.a) == s.regs;
    LogicFlagsFields(s.regs, false);
  }

  /** AND r with a register other than A and F ANDs A with r and leaves r as it was. */
  lemma AndStep(s: Machine, reg: Register)
    requires IsSingle(reg) && reg != A && reg != F
    ensures AndSpec(s, [Reg(reg)]).state.regs.a == s.regs.a & Lo(s.regs.Get(reg))
    ensures AndSpec(s, [Reg(reg)]).state.regs.Get(reg) == s.regs.Get(reg)
  {
    var x := s.regs.a & Lo(s.regs.Get(reg));
    AndShape(s, reg);
    LogicFlagsKeep(s.regs, x, true, reg);
    LogicFlagsFields(s.regs.(a := x), true);
  }

  /** AND r is idempotent on A: doing it twice leaves A as doing it once does. */
  lemma AndTwice(s: Machine, reg: Register)
    requires IsSingle(reg) && reg != A && reg != F
    ensures AndSpec(AndSpec(s, [Reg(reg)]).state, [Reg(reg)]).state.regs.a == AndSpec(s, [Reg(reg)]).state.regs.a
  {
    AndStep(s, reg);
    AndStep(AndSpec(s, [Reg(reg)]).state, reg);
    AndTwiceByte(s.regs.a, Lo(s.regs.Get(reg)));
  }

  /** The byte fact behind AndTwice. */
  lemma AndTwiceByte(a: bv8, v: bv8)
    ensures (a & v) & v == a & v
  {
  }

  /** OR r with a register other than A and F ORs A with r and leaves r as it was. */
  lemma OrStep(s: Machine, reg: Register)
    requires IsSingle(reg) && reg != A && reg != F
    ensures OrSpec(s, [Reg(reg)]).state.regs.a == s.regs.a | Lo(s.regs.Get(reg))
    ensures OrSpec(s, [Reg(reg)]).state.regs.Get(reg) == s.regs.Get(reg)
  {
    var x := s.regs.a | Lo(s.regs.Get(reg));
    OrShape(s, reg);
    LogicFlagsKeep(s.regs, x, false, reg);
    LogicFlagsFields(s.regs.(a := x), false);
  }

  /** OR r is idempotent on A: doing it twice leaves A as doing it once does. */
  lemma OrTwice(s: Machine, reg: Register)
    requires IsSingle(reg) && reg != A && reg != F
    ensures OrSpec(OrSpec(s, [Reg(reg)]).state, [Reg(reg)]).state.regs.a == OrSpec(s, [Reg(reg)]).state.regs.a
  {
    OrStep(s, reg);
    OrStep(OrSpec(s, [Reg(reg)]).state, reg);
    OrTwiceByte(s.regs.a, Lo(s.regs.Get(reg)));
  }

  /** The byte fact behind OrTwice. */
  lemma OrTwiceByte(a: bv8, v: bv8)
    ensures (a | v) | v == a | v
  {
  }

}
