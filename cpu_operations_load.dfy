/**
 * The load and stack handlers of pkg/cpu/operations.go: LD (including the
 * three-operand LD HL,SP+r8 and the HL+ / HL- post-adjustment), LDH, POP
 * and PUSH.
 */
module CpuOperationsLoad {
  import opened Errors
  import opened BitsBitwise
  import opened Operands
  import opened CpuRegisters
  import opened CpuMemory
  import opened Cpu
  import opened CpuOperand
  import opened CpuSymbol
  import opened CpuStack
  import opened CpuAccess
  import opened CpuArith

  /** One turn of LD's closing loop: an operand naming HL moves it up (Inc) and/or down (Dec) from its old value. */
  function AdjustOne(r: Regs, op: Operand): Regs
  {
    if op.symbol != RegisterSym(HL) then r
    else
      var hl := r.GetHL();
      var r1 := if op.inc then r.WithHL(Plus(hl, 1)) else r;
      if op.dec then r1.WithHL(Minus(hl, 1)) else r1
  }

  /** The registers after LD's loop has visited the operands in order. */
  function AdjustHL(r: Regs, ops: seq<Operand>): Regs
  {
    if |ops| == 0 then r else AdjustOne(AdjustHL(r, ops[..|ops| - 1]), ops[|ops| - 1])
  }

  /** The loop's turn for operand i extends the adjustment over ops[..i] to ops[..i + 1]. */
  lemma AdjustHLStep(r: Regs, ops: seq<Operand>, i: nat)
    requires i < |ops|
    ensures AdjustHL(r, ops[..i + 1]) == AdjustOne(AdjustHL(r, ops[..i]), ops[i])
  {
    assert ops[..i + 1][..i] == ops[..i];
  }

  /** LD's loop over a two-operand list visits the destination, then the source. */
  lemma AdjustHLPair(r: Regs, dst: Operand, src: Operand)
    ensures AdjustHL(r, [dst, src]) == AdjustOne(AdjustOne(r, dst), src)
  {
    assert [dst, src][..1] == [dst];
    assert [dst][..0] == [];
    assert AdjustHL(r, [dst]) == AdjustOne(r, dst);
  }

  /**
   * An operand list that does not name HL leaves the registers as they
   * are after LD's loop.
   */
  lemma {:induction false} AdjustHLWithoutHL(r: Regs, ops: seq<Operand>)
    requires forall i :: 0 <= i < |ops| ==> ops[i].symbol != RegisterSym(HL)
    ensures AdjustHL(r, ops) == r
  {
    if |ops| > 0 {
      AdjustHLWithoutHL(r, ops[..|ops| - 1]);
    }
  }

  function LdSpec(s: Machine, ops: seq<Operand>): Step
  {
    if |ops| == 3 then Step(Pass, LdOffsetSpec(s, ops[2]))
    else if |ops| < 2 then Step(Fail(IndexOutOfRange), s)
    else LdMoveSpec(s, ops)
  }

  /** LD HL,SP+r8 (opcode 0xF8), the only three-operand load. */
  function LdOffsetSpec(s: Machine, offset: Operand): Machine
  {
    var f := ResolveSpec(s, offset.symbol);
    var sp := f.state.regs.sp;
    var r8 := f.value;
    var regs := f.state.regs
      .WithFlag(FlagH, CarryFromBit3(sp, r8, 0))
      .WithFlag(FlagC, CarryFromBit7(sp, r8, 0))
      .WithFlag(FlagZ, false)
      .WithFlag(FlagN, false);
    f.state.(regs := regs.WithHL(Plus(sp, r8)))
  }

  /** The two-operand loads: store the source into the destination, then adjust HL. */
  function LdMoveSpec(s: Machine, ops: seq<Operand>): Step
    requires |ops| >= 2
  {
    var g := LdSourceSpec(s, ops[1]);
    var t := SetSpec(g.state, ops[0], g.value);
    if t.outcome.Fail? then t
    else Step(Pass, t.state.(regs := AdjustHL(t.state.regs, ops)))
  }

  /** The value a two-operand LD stores: the source operand, read through memory once more for (a16). */
  function LdSourceSpec(s: Machine, src: Operand): Fetched<bv16>
  {
    var g := GetSpec(s, src);
    if src.symbol.AddressSym? && src.deref then Fetched(g.state.mem(g.value) as bv16, g.state) else g
  }

  function LdhSpec(s: Machine, ops: seq<Operand>): Step
  {
    if |ops| == 0 then Step(Fail(IndexOutOfRange), s)
    else if ops[0].symbol == RegisterSym(A) then
      if |ops| < 2 then Step(Fail(IndexOutOfRange), s)
      else
        var g := GetSpec(s, ops[1]);
        Step(Pass, g.state.(regs := g.state.regs.Set(A, g.state.mem(g.value) as bv16)))
    else
      var g := GetSpec(s, ops[0]);
      if |ops| < 2 then Step(Fail(IndexOutOfRange), g.state)
      else
        var v := GetSpec(g.state, ops[1]);
        Step(Pass, v.state.(mem := Store(v.state.mem, g.value, Lo(v.value))))
  }

  function PopSpec(s: Machine, ops: seq<Operand>): Step
  {
    if |ops| == 0 then Step(Fail(IndexOutOfRange), s)
    else if !ops[0].symbol.RegisterSym? then Step(Fail(FailedTypeAssertion), s)
    else
      var p := Pop16Spec(s);
      Step(Pass, p.state.(regs := p.state.regs.Set(ops[0].symbol.reg, p.value)))
  }

  function PushSpec(s: Machine, ops: seq<Operand>): Step
  {
    if |ops| == 0 then Step(Fail(IndexOutOfRange), s)
    else
      var g := GetSpec(s, ops[0]);
      Step(Pass, Push16Spec(g.state, g.value))
  }

  /** Operand shapes for the lemmas below. */
  function Imm8(): Operand { Operand(DataSym(CpuData.D8), false, false, false) }
  function High8(): Operand { Operand(AddressSym(Address.A8), true, false, false) }
  function HLInc(): Operand { Operand(RegisterSym(HL), true, true, false) }
  function HLDec(): Operand { Operand(RegisterSym(HL), true, false, true) }
  function SPPlus(): seq<Operand>
  {
    [Reg(HL), Reg(SP), Operand(DataSym(CpuData.R8), false, false, false)]
  }

  /** LD r,d8 loads the byte after the opcode into r and moves PC past it; nothing else changes. */
  lemma LdImmediate(s: Machine, r: Register)
    requires IsSingle(r)
    ensures LdSpec(s, [Reg(r), Imm8()]).outcome == Pass
    ensures LdSpec(s, [Reg(r), Imm8()]).state == s.(regs := s.regs.(pc := s.regs.pc + 1).Set(r, s.mem(s.regs.pc) as bv16))
  {
    var ops := [Reg(r), Imm8()];
    var g := GetSpec(s, Imm8());
    var moved := s.(regs := s.regs.(pc := s.regs.pc + 1));
    assert g == Fetched(s.mem(s.regs.pc) as bv16, moved);
    var t := SetSpec(moved, Reg(r), g.value);
    assert t == Step(Pass, moved.(regs := moved.regs.Set(r, g.value)));
    AdjustHLWithoutHL(t.state.regs, ops);
  }

  /** LD (HL+),A stores A where HL pointed. */
  lemma LdHLIncrementStores(s: Machine)
    ensures LdSpec(s, [HLInc(), Reg(A)]).outcome == Pass
    ensures LdSpec(s, [HLInc(), Reg(A)]).state.mem(s.regs.GetHL()) == s.regs.a
  {
    var g := GetSpec(s, Reg(A));
    assert g == Fetched(s.regs.a as bv16, s);
    var t := SetSpec(s, HLInc(), g.value);
    assert t.outcome == Pass;
    assert t.state.mem(s.regs.GetHL()) == s.regs.a;
    assert LdSpec(s, [HLInc(), Reg(A)]).state.mem == t.state.mem;
  }

  /** LD (HL+),A then moves HL up by one, leaving every other register as it was. */
  lemma LdHLIncrementMoves(s: Machine)
    ensures LdSpec(s, [HLInc(), Reg(A)]).state.regs == s.regs.WithHL(Plus(s.regs.GetHL(), 1))
  {
    var ops := [HLInc(), Reg(A)];
    var g := GetSpec(s, Reg(A));
    assert g == Fetched(s.regs.a as bv16, s);
    var t := SetSpec(s, HLInc(), g.value);
    assert t.outcome == Pass && t.state.regs == s.regs;
    AdjustHLPair(s.regs, HLInc(), Reg(A));
  }

  /** LD A,(HL-) loads the byte HL pointed at into A and then moves HL down by one; nothing else changes. */
  lemma LdHLDecrement(s: Machine)
    ensures LdSpec(s, [Reg(A), HLDec()]).state.regs
         == s.regs.(a := s.mem(s.regs.GetHL())).WithHL(Minus(s.regs.GetHL(), 1))
  {
    var g := LdSourceSpec(s, HLDec());
    assert ResolveSpec(s, RegisterSym(HL)) == Fetched(s.regs.GetHL(), s);
    assert g == Fetched(s.mem(s.regs.GetHL()) as bv16, s);
    var loaded := s.regs.(a := s.mem(s.regs.GetHL()));
    assert SetSpec(s, Reg(A), g.value) == Step(Pass, s.(regs := loaded));
    AdjustHLPair(loaded, Reg(A), HLDec());
    assert loaded.GetHL() == s.regs.GetHL();
  }

  /** LD HL,SP+r8: HL is SP plus the sign-extended offset; Z and N are cleared. */
  lemma LdSPOffset(s: Machine)
    ensures LdOffsetSpec(s, SPPlus()[2]).regs.GetHL() == Plus(s.regs.sp, SignExtend(s.mem(s.regs.pc)))
    ensures !LdOffsetSpec(s, SPPlus()[2]).regs.Flag(FlagZ) && !LdOffsetSpec(s, SPPlus()[2]).regs.Flag(FlagN)
  {
    var f := ResolveSpec(s, DataSym(CpuData.R8));
    assert f.value == SignExtend(s.mem(s.regs.pc));
    assert f.state.regs.sp == s.regs.sp;
  }

  /** LD HL,SP+r8 sets C and H from the carries out of bits 7 and 3 of the low byte. */
  lemma LdSPOffsetCarries(s: Machine)
    ensures LdOffsetSpec(s, SPPlus()[2]).regs.Flag(FlagC) == CarryFromBit7(s.regs.sp, SignExtend(s.mem(s.regs.pc)), 0)
    ensures LdOffsetSpec(s, SPPlus()[2]).regs.Flag(FlagH) == CarryFromBit3(s.regs.sp, SignExtend(s.mem(s.regs.pc)), 0)
  {
    var f := ResolveSpec(s, DataSym(CpuData.R8));
    assert f.value == SignExtend(s.mem(s.regs.pc));
    assert f.state.regs.sp == s.regs.sp;
  }

  /** LD with fewer than two operands (and not three) is an index panic and changes nothing. */
  lemma LdNeedsTwo(s: Machine, ops: seq<Operand>)
    requires |ops| < 2
    ensures LdSpec(s, ops) == Step(Fail(IndexOutOfRange), s)
  {
  }

  /** LDH A,(a8) reads from the 0xFF00 page at the offset after the opcode. */
  lemma LdhLoad(s: Machine)
    ensures LdhSpec(s, [Reg(A), High8()]).state.regs.a == s.mem(0xFF00 | s.mem(s.regs.pc) as bv16)
    ensures LdhSpec(s, [Reg(A), High8()]).state.regs.pc == s.regs.pc + 1
  {
    ResolveMovesPC(s, AddressSym(Address.A8));
  }

  /** LDH (a8),A writes A into the 0xFF00 page at the offset after the opcode. */
  lemma LdhStore(s: Machine)
    ensures LdhSpec(s, [High8(), Reg(A)]).state.mem(0xFF00 | s.mem(s.regs.pc) as bv16) == s.regs.a
    ensures LdhSpec(s, [High8(), Reg(A)]).state.regs == s.regs.(pc := s.regs.pc + 1)
  {
    ResolveMovesPC(s, AddressSym(Address.A8));
    var g := GetSpec(s, High8());
    assert g.state.regs.a == s.regs.a;
  }

  /** POP of anything but a register fails the type assertion before touching the stack. */
  lemma PopNeedsRegister(s: Machine, ops: seq<Operand>)
    requires |ops| > 0 && !ops[0].symbol.RegisterSym?
    ensures PopSpec(s, ops) == Step(Fail(FailedTypeAssertion), s)
  {
  }

  /** PUSH rr then POP rr gives back every register as it was. */
  lemma PushThenPop(s: Machine, r: Register)
    requires r in {AF, BC, DE, HL}
    ensures PopSpec(PushSpec(s, [Reg(r)]).state, [Reg(r)]).outcome == Pass
    ensures PopSpec(PushSpec(s, [Reg(r)]).state, [Reg(r)]).state.regs == s.regs
  {
    ResolveWithoutFetch(s, RegisterSym(r));
    var v := s.regs.Get(r);
    PushPopRoundTrip(s, v);
    SetOwnValue(s.regs, r);
  }

  /** PUSH writes the register's value as a word at SP-2. */
  lemma PushWrites(s: Machine, r: Register)
    requires r in {AF, BC, DE, HL}
    ensures Load16(PushSpec(s, [Reg(r)]).state.mem, s.regs.sp - 2) == s.regs.Get(r)
    ensures PushSpec(s, [Reg(r)]).state.regs == s.regs.(sp := s.regs.sp - 2)
  {
    ResolveWithoutFetch(s, RegisterSym(r));
    PushedWord(s, s.regs.Get(r));
    Push16Layout(s, s.regs.Get(r));
  }

  method LD(cpu: CPU, ops: seq<Operand>) returns (r: Outcome)
    modifies cpu, cpu.registers
    ensures Step(r, cpu.State()) == LdSpec(old(cpu.State()), ops)
  {
    if |ops| == 3 {
      LoadSPOffset(cpu, ops[2]);
      return Pass;
    }
    if |ops| < 2 {
      return Fail(IndexOutOfRange);
    }
    r := LoadMove(cpu, ops);
  }

  /** The body of LD's two-operand case. */
  method LoadMove(cpu: CPU, ops: seq<Operand>) returns (r: Outcome)
    requires |ops| >= 2
    modifies cpu, cpu.registers
    ensures Step(r, cpu.State()) == LdMoveSpec(old(cpu.State()), ops)
  {
    var data := LoadSource(cpu, ops[1]);
    r := Set(cpu, ops[0], data);
    if r.Pass? {
      AdjustAfterLoad(cpu, ops);
    }
  }

  /** LD's read of its source operand. */
  method LoadSource(cpu: CPU, src: Operand) returns (data: bv16)
    modifies cpu.registers
    ensures Fetched(data, cpu.State()) == LdSourceSpec(old(cpu.State()), src)
  {
    data := Get(cpu, src);
    if src.symbol.AddressSym? && src.deref {
      data := cpu.Read8(data) as bv16;
    }
  }

  /** The body of LD's three-operand case. */
  method LoadSPOffset(cpu: CPU, offset: Operand)
    modifies cpu.registers
    ensures cpu.State() == LdOffsetSpec(old(cpu.State()), offset)
  {
    var r8 := Resolve(cpu, offset.symbol);
    var sp := cpu.registers.sp;
    cpu.registers.SetFlagTo(FlagH, CarryFromBit3(sp, r8, 0));
    cpu.registers.SetFlagTo(FlagC, CarryFromBit7(sp, r8, 0));
    cpu.registers.SetFlagTo(FlagZ, false);
    cpu.registers.SetFlagTo(FlagN, false);
    cpu.registers.SetHL(Plus(cpu.registers.sp, r8));
  }

  /** LD's closing loop over the operands, which moves HL for HL+ and HL-. */
  method AdjustAfterLoad(cpu: CPU, ops: seq<Operand>)
    modifies cpu.registers
    ensures cpu.registers.Value() == AdjustHL(old(cpu.registers.Value()), ops)
  {
    ghost var start := cpu.registers.Value();
    var i := 0;
    while i < |ops|
      invariant 0 <= i <= |ops|
      invariant cpu.registers.Value() == AdjustHL(start, ops[..i])
    {
      AdjustHLStep(start, ops, i);
      AdjustOperand(cpu.registers, ops[i]);
      i := i + 1;
    }
    assert ops[..|ops|] == ops;
  }

  /** One turn of LD's closing loop. */
  method AdjustOperand(registers: Registers, op: Operand)
    modifies registers
    ensures registers.Value() == AdjustOne(old(registers.Value()), op)
  {
    if op.symbol == RegisterSym(HL) {
      var hl := registers.Value().Get(HL);
      if op.inc {
        registers.Set(HL, Plus(hl, 1));
      }
      if op.dec {
        registers.Set(HL, Minus(hl, 1));
      }
    }
  }

  method LDH(cpu: CPU, ops: seq<Operand>) returns (r: Outcome)
    modifies cpu, cpu.registers
    ensures Step(r, cpu.State()) == LdhSpec(old(cpu.State()), ops)
  {
    if |ops| == 0 {
      return Fail(IndexOutOfRange);
    }
    if ops[0].symbol == RegisterSym(A) {
      if |ops| < 2 {
        return Fail(IndexOutOfRange);
      }
      var address := Get(cpu, ops[1]);
      var v := cpu.Read8(address);
      cpu.registers.Set(A, v as bv16);
    } else {
      var address := Get(cpu, ops[0]);
      if |ops| < 2 {
        return Fail(IndexOutOfRange);
      }
      var v := Get(cpu, ops[1]);
      cpu.Write8(address, Lo(v));
    }
    r := Pass;
  }

  method POP(cpu: CPU, ops: seq<Operand>) returns (r: Outcome)
    modifies cpu.registers
    ensures Step(r, cpu.State()) == PopSpec(old(cpu.State()), ops)
  {
    if |ops| == 0 {
      return Fail(IndexOutOfRange);
    }
    if !ops[0].symbol.RegisterSym? {
      return Fail(FailedTypeAssertion);
    }
    var v := StackPop16(cpu);
    cpu.registers.Set(ops[0].symbol.reg, v);
    r := Pass;
  }

  method PUSH(cpu: CPU, ops: seq<Operand>) returns (r: Outcome)
    modifies cpu, cpu.registers
    ensures Step(r, cpu.State()) == PushSpec(old(cpu.State()), ops)
  {
    if |ops| == 0 {
      return Fail(IndexOutOfRange);
    }
    var v := Get(cpu, ops[0]);
    StackPush16(cpu, v);
    r := Pass;
  }
}
