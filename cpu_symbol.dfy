/**
 * Symbol resolution of pkg/cpu/symbol.go: how each kind of cpu operand
 * symbol turns into a 16-bit value. Registers, byte literals and
 * conditions are read without side effects; immediate data and addresses
 * are fetched, which moves PC. Resolve never dereferences.
 */
module CpuSymbol {
  import opened BitsBitwise
  import opened CpuRegisters
  import opened CpuMemory
  import opened Cpu
  import opened CpuOperand

  /** uint16(int8(v)): the byte read as a signed value and widened to 16 bits. */
  function SignExtend(v: bv8): (r: bv16)
    ensures Lo(r) == v
    ensures v < 0x80 ==> r == v as bv16
    ensures v >= 0x80 ==> r == 0 - (0x100 - v as bv16)
  {
    if v < 0x80 then v as bv16 else 0xFF00 | v as bv16
  }

  function ResolveSpec(s: Machine, sym: Symbol): Fetched<bv16>
  {
    match sym
    case RegisterSym(reg) => Fetched(s.regs.Get(reg), s)
    case DataSym(data) =>
      (match data
       case D8 => var f := Fetch8Spec(s); Fetched(f.value as bv16, f.state)
       case D16 => Fetch16Spec(s)
       case R8 => var f := Fetch8Spec(s); Fetched(SignExtend(f.value), f.state))
    case AddressSym(address) =>
      (match address
       case A8 => var f := Fetch8Spec(s); Fetched(0xFF00 | f.value as bv16, f.state)
       case A16 => Fetch16Spec(s))
    case ByteSym(b) => Fetched(b as bv16, s)
    case ConditionSym(cond) => Fetched(if s.regs.IsCondition(cond) then 1 else 0, s)
  }

  /** Register, Byte and Condition symbols are read without moving PC or changing anything. */
  lemma ResolveWithoutFetch(s: Machine, sym: Symbol)
    requires sym.RegisterSym? || sym.ByteSym? || sym.ConditionSym?
    ensures ResolveSpec(s, sym).state == s
    ensures sym.RegisterSym? ==> ResolveSpec(s, sym).value == s.regs.Get(sym.reg)
    ensures sym.ByteSym? ==> ResolveSpec(s, sym).value == sym.value as bv16
    ensures sym.ConditionSym? ==> ResolveSpec(s, sym).value <= 1
    ensures sym.ConditionSym? ==> (ResolveSpec(s, sym).value == 1 <==> s.regs.IsCondition(sym.cond))
  {
  }

  /** Data and Address symbols fetch their bytes at PC and move PC past them; nothing else changes. */
  lemma ResolveMovesPC(s: Machine, sym: Symbol)
    requires sym.DataSym? || sym.AddressSym?
    ensures IsWideSymbol(sym) ==> ResolveSpec(s, sym).state == s.(regs := s.regs.(pc := s.regs.pc + 2))
    ensures !IsWideSymbol(sym) ==> ResolveSpec(s, sym).state == s.(regs := s.regs.(pc := s.regs.pc + 1))
  {
    if IsWideSymbol(sym) {
      assert ResolveSpec(s, sym).state == Fetch16Spec(s).state;
    } else {
      assert ResolveSpec(s, sym).state == Fetch8Spec(s).state;
    }
  }

  /** d8 is zero-extended and r8 sign-extended, e.g. the byte 0xFE resolves to 0xFFFE. */
  lemma ResolveExtends(s: Machine)
    ensures ResolveSpec(s, DataSym(CpuData.D8)).value == s.mem(s.regs.pc) as bv16
    ensures ResolveSpec(s, DataSym(CpuData.R8)).value == SignExtend(s.mem(s.regs.pc))
    ensures s.mem(s.regs.pc) == 0xFE ==> ResolveSpec(s, DataSym(CpuData.R8)).value == 0xFFFE
  {
  }

  /** a8 is 0xFF00 | the fetched byte, so it always lands in 0xFF00-0xFFFF. */
  lemma ResolveHighPage(s: Machine)
    ensures ResolveSpec(s, AddressSym(Address.A8)).value >= 0xFF00
    ensures Lo(ResolveSpec(s, AddressSym(Address.A8)).value) == s.mem(s.regs.pc)
  {
  }

  /** d16 and a16 are the little-endian word at PC. */
  lemma ResolveWord(s: Machine, sym: Symbol)
    requires sym == DataSym(CpuData.D16) || sym == AddressSym(Address.A16)
    ensures ResolveSpec(s, sym).value == Load16(s.mem, s.regs.pc)
  {
  }

  /** Register.Resolve, Data.Resolve, Address.Resolve, Byte.Resolve and Condition.Resolve. */
  method Resolve(cpu: CPU, sym: Symbol) returns (r: bv16)
    modifies cpu.registers
    ensures Fetched(r, cpu.State()) == ResolveSpec(old(cpu.State()), sym)
  {
    match sym
    case RegisterSym(reg) =>
      r := cpu.registers.Value().Get(reg);
    case DataSym(data) =>
      match data {
        case D8 =>
          var v := cpu.Fetch8();
          r := v as bv16;
        case D16 =>
          r := cpu.Fetch16();
        case R8 =>
          var v := cpu.Fetch8();
          r := SignExtend(v);
      }
    case AddressSym(address) =>
      match address {
        case A8 =>
          var v := cpu.Fetch8();
          r := 0xFF00 | v as bv16;
        case A16 =>
          r := cpu.Fetch16();
      }
    case ByteSym(b) =>
      r := b as bv16;
    case ConditionSym(cond) =>
      r := if cpu.registers.Value().IsCondition(cond) then 1 else 0;
  }
}
