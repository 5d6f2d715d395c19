/**
 * The control-flow handlers of pkg/cpu/operations.go: NOP, STOP, HALT,
 * JP, JR, CALL, RST, RET, RETI, DI, EI, PREFIX and the ILLEGAL_xx
 * handlers. Each handler is a method on the CPU specified by a function
 * from the old machine and the operand list to the outcome and the new
 * machine; a Go panic (an index out of range, NewNotImplementedError,
 * NewIllegalInstructionError) is a `Fail` outcome.
 */
module CpuOperationsControl {
  import opened Errors
  import opened Operands
  import opened CpuRegisters
  import opened CpuMemory
  import opened CpuInterrupt
  import opened Cpu
  import opened CpuOperand
  import opened CpuSymbol
  import opened CpuStack
  import opened CpuAccess

  /** The jump is taken unless the first operand is a condition that does not hold. */
  predicate Taken(r: Regs, first: Operand)
  {
    !first.symbol.ConditionSym? || r.IsCondition(first.symbol.cond)
  }

  function HaltSpec(s: Machine): Machine
  {
    s.(halted := true)
  }

  function JpSpec(s: Machine, ops: seq<Operand>): Step
  {
    if |ops| == 0 then Step(Fail(IndexOutOfRange), s) else
    var g := GetSpec(s, ops[|ops| - 1]);
    if !Taken(g.state.regs, ops[0]) then Step(Pass, g.state)
    else Step(Pass, g.state.(regs := g.state.regs.(pc := g.value)))
  }

  function JrSpec(s: Machine, ops: seq<Operand>): Step
  {
    if |ops| == 0 then Step(Fail(IndexOutOfRange), s) else
    var g := GetSpec(s, ops[|ops| - 1]);
    if !Taken(g.state.regs, ops[0]) then Step(Pass, g.state)
    else Step(Pass, g.state.(regs := g.state.regs.(pc := Relative(g.state.regs.pc, g.value))))
  }

  /** The target of a relative jump: the offset added to PC, mod 2^16. */
  function Relative(pc: bv16, offset: bv16): bv16
  {
    pc + offset
  }

  function CallSpec(s: Machine, ops: seq<Operand>): Step
  {
    if |ops| == 0 then Step(Fail(IndexOutOfRange), s) else
    var g := GetSpec(s, ops[|ops| - 1]);
    if !Taken(g.state.regs, ops[0]) then Step(Pass, g.state)
    else
      var t := Push16Spec(g.state, g.state.regs.pc);
      Step(Pass, t.(regs := t.regs.(pc := g.value)))
  }

  function RstSpec(s: Machine, ops: seq<Operand>): Step
  {
    if |ops| == 0 then Step(Fail(IndexOutOfRange), s) else
    var g := GetSpec(s, ops[0]);
    var t := Push16Spec(g.state, g.state.regs.pc);
    Step(Pass, t.(regs := t.regs.(pc := g.value)))
  }

  /** RET tests its condition on the flags before popping anything. */
  function RetSpec(s: Machine, ops: seq<Operand>): Machine
  {
    if |ops| > 0 && !Taken(s.regs, ops[0]) then s
    else
      var p := Pop16Spec(s);
      p.state.(regs := p.state.regs.(pc := p.value))
  }

  function RetiSpec(s: Machine): Machine
  {
    var u := s.(interrupt := s.interrupt.(masterEnabled := true));
    var p := Pop16Spec(u);
    p.state.(regs := p.state.regs.(pc := p.value))
  }

  function DiSpec(s: Machine): Machine
  {
    s.(interrupt := s.interrupt.(di := MASTER_SET_NEXT))
  }

  function EiSpec(s: Machine): Machine
  {
    s.(interrupt := s.interrupt.(ei := MASTER_SET_NEXT))
  }

  /** Operand shapes as the instruction tables write them. */
  function Cond(c: Condition): Operand { Operand(ConditionSym(c), false, false, false) }
  function Imm16(): Operand { Operand(AddressSym(Address.A16), false, false, false) }
  function Rel8(): Operand { Operand(DataSym(CpuData.R8), false, false, false) }
  function Vector(n: bv8): Operand { Operand(ByteSym(n), false, false, false) }

  /**
   * JP cc,a16 reads the target first, so PC is past the operand when the
   * condition fails and at the target when it holds.
   */
  lemma JpConditional(s: Machine, c: Condition)
    ensures JpSpec(s, [Cond(c), Imm16()]).outcome == Pass
    ensures JpSpec(s, [Cond(c), Imm16()]).state.regs.pc ==
      if s.regs.IsCondition(c) then Load16(s.mem, s.regs.pc) else s.regs.pc + 2
  {
    ResolveWord(s, AddressSym(Address.A16));
    ResolveMovesPC(s, AddressSym(Address.A16));
  }

  /** JP a16 always jumps, and changes nothing but PC. */
  lemma JpAlways(s: Machine)
    ensures JpSpec(s, [Imm16()]).state == s.(regs := s.regs.(pc := Load16(s.mem, s.regs.pc)))
  {
    ResolveWord(s, AddressSym(Address.A16));
    ResolveMovesPC(s, AddressSym(Address.A16));
  }

  /** JR r8 adds the sign-extended offset to the address after the operand. */
  lemma JrRelative(s: Machine)
    ensures JrSpec(s, [Rel8()]).state.regs.pc == Relative(s.regs.pc + 1, SignExtend(s.mem(s.regs.pc)))
  {
    var g := GetSpec(s, Rel8());
    assert g == ResolveSpec(s, DataSym(CpuData.R8));
    assert g.value == SignExtend(s.mem(s.regs.pc));
    assert g.state.regs.pc == s.regs.pc + 1;
  }

  /** A taken CALL a16 pushes the address after the operand and jumps to the target. */
  lemma CallTaken(s: Machine, c: Condition)
    requires s.regs.IsCondition(c)
    ensures CallSpec(s, [Cond(c), Imm16()]).state.regs.pc == Load16(s.mem, s.regs.pc)
    ensures CallSpec(s, [Cond(c), Imm16()]).state.regs.sp == s.regs.sp - 2
  {
    ResolveWord(s, AddressSym(Address.A16));
    ResolveMovesPC(s, AddressSym(Address.A16));
    var g := GetSpec(s, Imm16());
    Push16Layout(g.state, g.state.regs.pc);
  }

  /** ... and the return address it pushes is the address after the operand. */
  lemma CallPushesReturn(s: Machine, c: Condition)
    requires s.regs.IsCondition(c)
    ensures Load16(CallSpec(s, [Cond(c), Imm16()]).state.mem, s.regs.sp - 2) == s.regs.pc + 2
  {
    ResolveMovesPC(s, AddressSym(Address.A16));
    var g := GetSpec(s, Imm16());
    var ret := g.state.regs.pc;
    assert ret == s.regs.pc + 2;
    assert g.state.regs.sp == s.regs.sp;
    var t := Push16Spec(g.state, ret);
    PushedWord(g.state, ret);
    assert CallSpec(s, [Cond(c), Imm16()]).state.mem == t.mem;
  }

  /** A CALL whose condition fails only steps over its operand: nothing is pushed. */
  lemma CallNotTaken(s: Machine, c: Condition)
    requires !s.regs.IsCondition(c)
    ensures CallSpec(s, [Cond(c), Imm16()]).state == s.(regs := s.regs.(pc := s.regs.pc + 2))
  {
    ResolveMovesPC(s, AddressSym(Address.A16));
  }

  /** RST n pushes the current PC and jumps to n. */
  lemma RstVector(s: Machine, n: bv8)
    ensures RstSpec(s, [Vector(n)]).state.regs.pc == n as bv16
    ensures RstSpec(s, [Vector(n)]).state.regs.sp == s.regs.sp - 2
    ensures Load16(RstSpec(s, [Vector(n)]).state.mem, s.regs.sp - 2) == s.regs.pc
  {
    ResolveWithoutFetch(s, ByteSym(n));
    Push16Layout(s, s.regs.pc);
    PushedWord(s, s.regs.pc);
  }

  /** A RET whose condition fails changes nothing; otherwise it pops PC. */
  lemma RetConditional(s: Machine, c: Condition)
    ensures !s.regs.IsCondition(c) ==> RetSpec(s, [Cond(c)]) == s
    ensures s.regs.IsCondition(c) ==> RetSpec(s, [Cond(c)]).regs.pc == Load16(s.mem, s.regs.sp)
    ensures s.regs.IsCondition(c) ==> RetSpec(s, [Cond(c)]).regs.sp == s.regs.sp + 2
  {
    Pop16Reads(s);
  }

  /** RET after a taken CALL returns to the instruction after the CALL, with SP restored. */
  lemma CallThenRet(s: Machine)
    ensures RetSpec(CallSpec(s, [Imm16()]).state, []).regs.pc == s.regs.pc + 2
    ensures RetSpec(CallSpec(s, [Imm16()]).state, []).regs.sp == s.regs.sp
  {
    ResolveMovesPC(s, AddressSym(Address.A16));
    var g := GetSpec(s, Imm16());
    var t := Push16Spec(g.state, g.state.regs.pc);
    var u := t.(regs := t.regs.(pc := g.value));
    PushPopRoundTrip(g.state, g.state.regs.pc);
    Pop16Reads(u);
    Pop16Reads(t);
  }

  /** RETI sets IME at once (unlike EI, which only schedules it) and pops PC. */
  lemma RetiEnables(s: Machine)
    ensures RetiSpec(s).interrupt.masterEnabled
    ensures RetiSpec(s).regs.pc == Load16(s.mem, s.regs.sp)
    ensures RetiSpec(s).regs.sp == s.regs.sp + 2
  {
    Pop16Reads(s.(interrupt := s.interrupt.(masterEnabled := true)));
  }

  /** EI and DI only schedule a change of IME for the next instruction. */
  lemma EiDiDeferred(s: Machine)
    ensures EiSpec(s).interrupt.masterEnabled == s.interrupt.masterEnabled
    ensures EiSpec(s).interrupt.ei == MASTER_SET_NEXT
    ensures DiSpec(s).interrupt.masterEnabled == s.interrupt.masterEnabled
    ensures DiSpec(s).interrupt.di == MASTER_SET_NEXT
  {
  }

  method NOP(cpu: CPU, ops: seq<Operand>)
    ensures cpu.State() == old(cpu.State())
  {
  }

  method STOP(cpu: CPU, ops: seq<Operand>) returns (r: Outcome)
    ensures r == Fail(NotImplemented)
    ensures cpu.State() == old(cpu.State())
  {
    r := Fail(NotImplemented);
  }

  method HALT(cpu: CPU, ops: seq<Operand>)
    modifies cpu
    ensures cpu.State() == HaltSpec(old(cpu.State()))
  {
    cpu.halted := true;
  }

  method JP(cpu: CPU, ops: seq<Operand>) returns (r: Outcome)
    modifies cpu.registers
    ensures Step(r, cpu.State()) == JpSpec(old(cpu.State()), ops)
  {
    if |ops| == 0 {
      return Fail(IndexOutOfRange);
    }
    var addr := Get(cpu, ops[|ops| - 1]);
    r := Pass;
    if ops[0].symbol.ConditionSym? && !cpu.registers.Value().IsCondition(ops[0].symbol.cond) {
      return;
    }
    cpu.registers.pc := addr;
  }

  method JR(cpu: CPU, ops: seq<Operand>) returns (r: Outcome)
    modifies cpu.registers
    ensures Step(r, cpu.State()) == JrSpec(old(cpu.State()), ops)
  {
    if |ops| == 0 {
      return Fail(IndexOutOfRange);
    }
    var addr := Get(cpu, ops[|ops| - 1]);
    r := Pass;
    if ops[0].symbol.ConditionSym? && !cpu.registers.Value().IsCondition(ops[0].symbol.cond) {
      return;
    }
    cpu.registers.pc := Relative(cpu.registers.pc, addr);
  }

  method CALL(cpu: CPU, ops: seq<Operand>) returns (r: Outcome)
    modifies cpu, cpu.registers
    ensures Step(r, cpu.State()) == CallSpec(old(cpu.State()), ops)
  {
    if |ops| == 0 {
      return Fail(IndexOutOfRange);
    }
    var addr := Get(cpu, ops[|ops| - 1]);
    r := Pass;
    if ops[0].symbol.ConditionSym? && !cpu.registers.Value().IsCondition(ops[0].symbol.cond) {
      return;
    }
    StackPush16(cpu, cpu.registers.pc);
    cpu.registers.pc := addr;
  }

  method RST(cpu: CPU, ops: seq<Operand>) returns (r: Outcome)
    modifies cpu, cpu.registers
    ensures Step(r, cpu.State()) == RstSpec(old(cpu.State()), ops)
  {
    if |ops| == 0 {
      return Fail(IndexOutOfRange);
    }
    var addr := Get(cpu, ops[0]);
    StackPush16(cpu, cpu.registers.pc);
    cpu.registers.pc := addr;
    r := Pass;
  }

  method RET(cpu: CPU, ops: seq<Operand>)
    modifies cpu.registers
    ensures cpu.State() == RetSpec(old(cpu.State()), ops)
  {
    if |ops| > 0 && ops[0].symbol.ConditionSym? && !cpu.registers.Value().IsCondition(ops[0].symbol.cond) {
      return;
    }
    var addr := StackPop16(cpu);
    cpu.registers.pc := addr;
  }

  method RETI(cpu: CPU, ops: seq<Operand>)
    modifies cpu, cpu.registers
    ensures cpu.State() == RetiSpec(old(cpu.State()))
  {
    cpu.interrupt := cpu.interrupt.(masterEnabled := true);
    var addr := StackPop16(cpu);
    cpu.registers.pc := addr;
  }

  method DI(cpu: CPU, ops: seq<Operand>)
    modifies cpu
    ensures cpu.State() == DiSpec(old(cpu.State()))
  {
    cpu.interrupt := cpu.interrupt.(di := MASTER_SET_NEXT);
  }

  method EI(cpu: CPU, ops: seq<Operand>)
    modifies cpu
    ensures cpu.State() == EiSpec(old(cpu.State()))
  {
    cpu.interrupt := cpu.interrupt.(ei := MASTER_SET_NEXT);
  }

  method PREFIX(cpu: CPU, ops: seq<Operand>)
    ensures cpu.State() == old(cpu.State())
  {
  }

  /** The opcodes the ILLEGAL_xx handlers stand for. */
  const IllegalOpcodes: seq<bv8> := [0xD3, 0xDB, 0xDD, 0xE3, 0xE4, 0xEB, 0xEC, 0xED, 0xF4, 0xFC, 0xFD]

  /** ILLEGAL_xx: fails with NewIllegalInstructionError(0xxx) and changes nothing. */
  method Illegal(cpu: CPU, code: bv8, ops: seq<Operand>) returns (r: Outcome)
    requires code in IllegalOpcodes
    ensures r == Fail(IllegalInstruction(code))
    ensures cpu.State() == old(cpu.State())
  {
    r := Fail(IllegalInstruction(code));
  }
}
