/**
 * cpu.Get and cpu.Set, which the handlers of pkg/cpu/operations.go use to
 * read and write an operand. Their bodies are not modelled; they get the
 * behaviour the handlers rely on:
 *  - Get resolves the symbol (fetching immediates, which moves PC) and, for
 *    a dereferenced register such as (HL), reads the byte it points at;
 *  - Set stores into a plain register (8-bit registers keep the low byte),
 *    or writes the low byte at the address a dereferenced register, data
 *    or address operand denotes; any other operand cannot be stored to.
 */
module CpuAccess {
  import opened Errors
  import opened BitsBitwise
  import opened Operands
  import opened CpuRegisters
  import opened CpuMemory
  import opened Cpu
  import opened CpuOperand
  import opened CpuSymbol

  function GetSpec(s: Machine, op: Operand): Fetched<bv16>
  {
    var f := ResolveSpec(s, op.symbol);
    if op.deref && op.symbol.RegisterSym? then Fetched(f.state.mem(f.value) as bv16, f.state) else f
  }

  function SetSpec(s: Machine, op: Operand, v: bv16): Step
  {
    match op.symbol
    case RegisterSym(reg) =>
      if op.deref then Step(Pass, s.(mem := Store(s.mem, s.regs.Get(reg), Lo(v))))
      else Step(Pass, s.(regs := s.regs.Set(reg, v)))
    case DataSym(_) =>
      if op.deref then
        var f := ResolveSpec(s, op.symbol);
        Step(Pass, f.state.(mem := Store(f.state.mem, f.value, Lo(v))))
      else Step(Fail(InvalidOperand), s)
    case AddressSym(_) =>
      if op.deref then
        var f := ResolveSpec(s, op.symbol);
        Step(Pass, f.state.(mem := Store(f.state.mem, f.value, Lo(v))))
      else Step(Fail(InvalidOperand), s)
    case _ => Step(Fail(InvalidOperand), s)
  }

  /** An operand of the form `r`, as the instruction tables write it. */
  function Reg(reg: Register): Operand { Operand(RegisterSym(reg), false, false, false) }

  /** An operand of the form `(r)`. */
  function At(reg: Register): Operand { Operand(RegisterSym(reg), true, false, false) }

  /** Set on a plain register stores the value (the low byte for an 8-bit register) and Get reads it back. */
  lemma SetGetRegister(s: Machine, reg: Register, v: bv16)
    ensures SetSpec(s, Reg(reg), v).outcome == Pass
    ensures GetSpec(SetSpec(s, Reg(reg), v).state, Reg(reg)).value == if IsSingle(reg) then v & 0xFF else v
  {
  }

  /** Set on (r) writes the low byte where r points, and Get on (r) reads it back. */
  lemma SetGetDeref(s: Machine, reg: Register, v: bv16)
    ensures SetSpec(s, At(reg), v).outcome == Pass
    ensures SetSpec(s, At(reg), v).state.regs == s.regs
    ensures GetSpec(SetSpec(s, At(reg), v).state, At(reg)).value == v & 0xFF
  {
    var t := SetSpec(s, At(reg), v).state;
    assert t.mem(s.regs.Get(reg)) == Lo(v);
  }

  /** Register, byte and condition operands are read without moving PC. */
  lemma GetWithoutFetch(s: Machine, op: Operand)
    requires op.symbol.RegisterSym? || op.symbol.ByteSym? || op.symbol.ConditionSym?
    ensures GetSpec(s, op).state == s
  {
    ResolveWithoutFetch(s, op.symbol);
  }

  /** Only dereferenced operands and plain registers can be stored to. */
  lemma SetFailsExactly(s: Machine, op: Operand, v: bv16)
    ensures SetSpec(s, op, v).outcome.Fail? <==>
      (op.symbol.ByteSym? || op.symbol.ConditionSym? || (!op.deref && !op.symbol.RegisterSym?))
  {
  }

  method Get(cpu: CPU, op: Operand) returns (r: bv16)
    modifies cpu.registers
    ensures Fetched(r, cpu.State()) == GetSpec(old(cpu.State()), op)
  {
    r := Resolve(cpu, op.symbol);
    if op.deref && op.symbol.RegisterSym? {
      r := cpu.Read8(r) as bv16;
    }
  }

  method Set(cpu: CPU, op: Operand, v: bv16) returns (r: Outcome)
    modifies cpu, cpu.registers
    ensures Step(r, cpu.State()) == SetSpec(old(cpu.State()), op, v)
  {
    match op.symbol
    case RegisterSym(reg) =>
      if op.deref {
        cpu.Write8(cpu.registers.Value().Get(reg), Lo(v));
      } else {
        cpu.registers.Set(reg, v);
      }
      r := Pass;
    case DataSym(_) =>
      if op.deref {
        var address := Resolve(cpu, op.symbol);
        cpu.Write8(address, Lo(v));
        r := Pass;
      } else {
        r := Fail(InvalidOperand);
      }
    case AddressSym(_) =>
      if op.deref {
        var address := Resolve(cpu, op.symbol);
        cpu.Write8(address, Lo(v));
        r := Pass;
      } else {
        r := Fail(InvalidOperand);
      }
    case _ =>
      r := Fail(InvalidOperand);
  }

  /** Reading a plain register yields its value and changes nothing. */
  lemma GetRegister(s: Machine, reg: Register)
    ensures GetSpec(s, Reg(reg)) == Fetched(s.regs.Get(reg), s)
  {
    ResolveWithoutFetch(s, RegisterSym(reg));
  }
}
