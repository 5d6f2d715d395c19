/**
 * The generic resolvers of pkg/cpu/resolve.go, over operands of
 * pkg/instructions. They are instantiated here at 16 bits (T = uint16).
 */
module CpuResolve {
  import opened Errors
  import opened Operands
  import opened CpuRegisters
  import opened CpuMemory
  import opened Cpu
  import IO = InstructionsOperand

  /** ResolveCondition: whether the condition holds on the current flags. */
  function ResolveCondition(r: Regs, cond: Condition): (b: bool)
    ensures cond == NZ ==> (b <==> !r.Flag(FlagZ))
    ensures cond == Z ==> (b <==> r.Flag(FlagZ))
    ensures cond == NC ==> (b <==> !r.Flag(FlagC))
    ensures cond == Ca ==> (b <==> r.Flag(FlagC))
  {
    match cond
    case NZ => !r.Flag(FlagZ)
    case Z => r.Flag(FlagZ)
    case NC => !r.Flag(FlagC)
    case Ca => r.Flag(FlagC)
  }

  /** ResolveCondition decides every condition the way Registers.IsCondition does. */
  lemma ResolveConditionAgrees(r: Regs, cond: Condition)
    ensures ResolveCondition(r, cond) == r.IsCondition(cond)
  {
  }

  /** resolveRegister: 8-bit registers zero-extended, SP, PC, and the pairs. */
  function ResolveRegister(r: Regs, reg: Register): (v: bv16)
    ensures IsSingle(reg) ==> v < 0x100
  {
    match reg
    case A => r.a as bv16
    case B => r.b as bv16
    case C => r.c as bv16
    case D => r.d as bv16
    case E => r.e as bv16
    case F => r.f as bv16
    case H => r.h as bv16
    case L => r.l as bv16
    case SP => r.sp
    case PC => r.pc
    case AF => r.GetAF()
    case BC => r.GetBC()
    case DE => r.GetDE()
    case HL => r.GetHL()
  }

  /** resolveRegister reads every register the way Registers.Get does. */
  lemma ResolveRegisterAgrees(r: Regs, reg: Register)
    ensures ResolveRegister(r, reg) == r.Get(reg)
  {
  }

  /** resolveData: d8 and a8 fetch a byte, d16 and a16 a word; r8 has no case and fails. */
  function ResolveDataSpec(s: Machine, data: Data): Eval<bv16>
  {
    match data
    case D8 => var f := Fetch8Spec(s); Eval(Success(f.value as bv16), f.state)
    case D16 => var f := Fetch16Spec(s); Eval(Success(f.value), f.state)
    case A8 => var f := Fetch8Spec(s); Eval(Success(0xFF00 | f.value as bv16), f.state)
    case A16 => var f := Fetch16Spec(s); Eval(Success(f.value), f.state)
    case R8 => Eval(Failure(InvalidOperand), s)
  }

  function ResolveValueSpec(s: Machine, op: IO.Operand): Eval<bv16>
  {
    match op.symbol
    case DataSym(data) => ResolveDataSpec(s, data)
    case RegisterSym(reg) => Eval(Success(ResolveRegister(s.regs, reg)), s)
    case ByteSym(b) => Eval(Success(b as bv16), s)
    case _ => Eval(Failure(InvalidOperand), s)
  }

  /** resolveData on a8: one byte fetched at PC, placed in the page 0xFF00-0xFFFF. */
  lemma ResolveDataHighPage(s: Machine)
    ensures ResolveDataSpec(s, A8).result.value >= 0xFF00
    ensures ResolveDataSpec(s, A8).result.value & 0xFF == s.mem(s.regs.pc) as bv16
    ensures ResolveDataSpec(s, A8).state.regs == s.regs.(pc := s.regs.pc + 1)
  {
  }

  /** resolveData on d16 and a16: the little-endian word at PC, and PC two higher. */
  lemma ResolveDataWord(s: Machine, data: Data)
    requires data in {D16, A16}
    ensures ResolveDataSpec(s, data).result == Success(Load16(s.mem, s.regs.pc))
    ensures ResolveDataSpec(s, data).state.regs == s.regs.(pc := s.regs.pc + 2)
  {
  }

  /** resolveData fails exactly on r8, which it has no case for, and then fetches nothing. */
  lemma ResolveDataRejectsR8(s: Machine, data: Data)
    ensures data == R8 <==> ResolveDataSpec(s, data).result.Failure?
    ensures data == R8 ==> ResolveDataSpec(s, data).state == s
  {
  }

  /** resolveData never writes memory. */
  lemma ResolveDataKeepsMemory(s: Machine, data: Data)
    ensures ResolveDataSpec(s, data).state.mem == s.mem
  {
  }

  /** ResolveValue returns a byte literal unchanged and fails on hex, bit and condition operands. */
  lemma ResolveValueCases(s: Machine, op: IO.Operand)
    ensures op.symbol.ByteSym? ==> ResolveValueSpec(s, op) == Eval(Success(op.symbol.value as bv16), s)
    ensures op.symbol.RegisterSym? ==> ResolveValueSpec(s, op) == Eval(Success(s.regs.Get(op.symbol.reg)), s)
    ensures (op.symbol.HexSym? || op.symbol.BitSym? || op.symbol.ConditionSym?) ==>
      ResolveValueSpec(s, op) == Eval(Failure(InvalidOperand), s)
  {
  }

  method ResolveData(cpu: CPU, data: Data) returns (r: Result<bv16>)
    modifies cpu.registers
    ensures Eval(r, cpu.State()) == ResolveDataSpec(old(cpu.State()), data)
  {
    match data
    case D8 =>
      var v := cpu.Fetch8();
      r := Success(v as bv16);
    case D16 =>
      var v := cpu.Fetch16();
      r := Success(v);
    case A8 =>
      var v := cpu.Fetch8();
      r := Success(0xFF00 | v as bv16);
    case A16 =>
      var v := cpu.Fetch16();
      r := Success(v);
    case R8 =>
      r := Failure(InvalidOperand);
  }

  method ResolveValue(cpu: CPU, op: IO.Operand) returns (r: Result<bv16>)
    modifies cpu.registers
    ensures Eval(r, cpu.State()) == ResolveValueSpec(old(cpu.State()), op)
  {
    match op.symbol
    case DataSym(data) =>
      r := ResolveData(cpu, data);
    case RegisterSym(reg) =>
      r := Success(ResolveRegister(cpu.registers.Value(), reg));
    case ByteSym(b) =>
      r := Success(b as bv16);
    case _ =>
      r := Failure(InvalidOperand);
  }
}
