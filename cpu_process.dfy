/**
 * The older handler set of pkg/cpu/process.go. Process dispatches a decoded
 * instruction of pkg/instructions to NOP, JP, JR, CALL, RET, RETI, DI, EI,
 * XOR, LD or LDH and returns the handler's tick count; INC, DEC, POP and
 * PUSH are defined beside them but Process does not dispatch to them.
 * Operands are read through CPU.ValueOf, so immediate data is fetched at PC.
 *
 * Every handler returns 4 ticks. A Go panic (an index past the operands, an
 * operand ValueOf rejects, an unknown mnemonic) is a `Failure`, together
 * with the state reached when it happened.
 */
module CpuProcess {
  import opened Errors
  import opened BitsBitwise
  import opened Operands
  import opened CpuRegisters
  import opened CpuMemory
  import opened Cpu
  import opened CpuStack
  import opened CpuArith
  import opened InstructionsOperand
  import CpuSymbol
  import Op = InstructionsOpcodes
  import Control = CpuOperationsControl
  import Load = CpuOperationsLoad
  import Alu = CpuOperationsAlu
  import CpuAccess

  /** The tick count every handler returns. */
  const Ticks: bv8 := 4

  /**
   * Registers.IsCondition on the first operand of a conditional jump or
   * return. The source asserts the symbol to a Condition without checking;
   * an operand that is not a condition is refused here.
   */
  function ConditionOf(r: Regs, sym: Symbol): (c: Result<bool>)
    ensures c.Failure? <==> !sym.ConditionSym?
    ensures c.Failure? ==> c.error == InvalidOperand
    ensures sym.ConditionSym? ==> c == Success(r.IsCondition(sym.cond))
  {
    if sym.ConditionSym? then Success(r.IsCondition(sym.cond)) else Failure(InvalidOperand)
  }

  // Specifications of the handlers: the result and the state after it.

  function NopSpec(s: Machine): Eval<bv8>
  {
    Eval(Success(Ticks), s)
  }

  /**
   * jumper: with more than one operand the first is a condition, and a
   * condition that does not hold returns at once, before the target is
   * read; otherwise the target (the second operand, or the only one) is
   * read through ValueOf and JumpTo finishes the jump.
   */
  function JumperSpec(s: Machine, ops: seq<Operand>, relative: bool, pushPC: bool): Eval<bv8>
  {
    if |ops| == 0 then Eval(Failure(IndexOutOfRange), s)
    else if |ops| > 1 then
      var cond := ConditionOf(s.regs, ops[0].symbol);
      if cond.Failure? then Eval(Failure(cond.error), s)
      else if !cond.value then Eval(Success(Ticks), s)
      else JumpTo(ValueOfSpec(s, ops[1]), relative, pushPC)
    else JumpTo(ValueOfSpec(s, ops[0]), relative, pushPC)
  }

  /**
   * The end of jumper, given the target read: CALL pushes PC first; JR adds
   * the sign-extended low byte of the target to PC; then PC is set.
   */
  function JumpTo(v: Eval<bv16>, relative: bool, pushPC: bool): Eval<bv8>
  {
    if v.result.Failure? then Eval(Failure(v.result.error), v.state) else
    var t := PushedFor(v.state, pushPC);
    Eval(Success(Ticks), t.(regs := t.regs.(pc := Target(t.regs.pc, v.result.value, relative))))
  }

  /** The machine after CALL's push of PC, or unchanged for JP and JR. */
  function PushedFor(s: Machine, pushPC: bool): Machine
  {
    if pushPC then Push16Spec(s, s.regs.pc) else s
  }

  /** The new PC: the target read, or for JR the sign-extended low byte of it added to PC. */
  function Target(pc: bv16, value: bv16, relative: bool): bv16
  {
    if relative then Plus(pc, CpuSymbol.SignExtend(Lo(value))) else value
  }

  /** RET pops the return address first, then tests its condition; PC is set only when it holds. */
  function RetSpec(s: Machine, ops: seq<Operand>): Eval<bv8>
  {
    var p := Pop16Spec(s);
    if |ops| > 0 then
      var cond := ConditionOf(p.state.regs, ops[0].symbol);
      if cond.Failure? then Eval(Failure(cond.error), p.state)
      else if !cond.value then Eval(Success(Ticks), p.state)
      else Eval(Success(Ticks), p.state.(regs := p.state.regs.(pc := p.value)))
    else Eval(Success(Ticks), p.state.(regs := p.state.regs.(pc := p.value)))
  }

  /** RETI: RET, then IME set. */
  function RetiSpec(s: Machine, ops: seq<Operand>): Eval<bv8>
  {
    var t := RetSpec(s, ops);
    if t.result.Failure? then t else Eval(Success(Ticks), t.state.(ime := true))
  }

  /** DI clears IME at once. */
  function DiSpec(s: Machine): Eval<bv8>
  {
    Eval(Success(Ticks), s.(ime := false))
  }

  /** EI sets IME at once. */
  function EiSpec(s: Machine): Eval<bv8>
  {
    Eval(Success(Ticks), s.(ime := true))
  }

  /** XOR: A combined with the low byte of the operand's value. */
  function XorSpec(s: Machine, ops: seq<Operand>): Eval<bv8>
  {
    if |ops| == 0 then Eval(Failure(IndexOutOfRange), s) else
    var v := ValueOfSpec(s, ops[0]);
    if v.result.Failure? then Eval(Failure(v.result.error), v.state)
    else Eval(Success(Ticks), v.state.(regs := XorRegs(v.state.regs, Lo(v.result.value))))
  }

  /** The registers after XOR with v: Z is set when A becomes 0 and otherwise left as it was; N, H and C are cleared. */
  function XorRegs(r: Regs, v: bv8): Regs
  {
    var a := r.a ^ v;
    var t := if a == 0 then r.(a := a).WithFlag(FlagZ, true) else r.(a := a);
    t.WithFlag(FlagN, false).WithFlag(FlagH, false).WithFlag(FlagC, false)
  }

  /** INC: the register's value plus one, stored back (mod 2^16, then the low byte for an 8-bit register); no flags. */
  function IncSpec(s: Machine, ops: seq<Operand>): Eval<bv8>
  {
    if |ops| == 0 then Eval(Failure(IndexOutOfRange), s)
    else if !ops[0].symbol.RegisterSym? then Eval(Failure(InvalidOperand), s)
    else
      var reg := ops[0].symbol.reg;
      Eval(Success(Ticks), s.(regs := s.regs.Set(reg, Plus(s.regs.Get(reg), 1))))
  }

  /** DEC: the register's value minus one, stored back; no flags. */
  function DecSpec(s: Machine, ops: seq<Operand>): Eval<bv8>
  {
    if |ops| == 0 then Eval(Failure(IndexOutOfRange), s)
    else if !ops[0].symbol.RegisterSym? then Eval(Failure(InvalidOperand), s)
    else
      var reg := ops[0].symbol.reg;
      Eval(Success(Ticks), s.(regs := s.regs.Set(reg, Minus(s.regs.Get(reg), 1))))
  }

  /**
   * LD: three operands are LD HL,SP+r8. Otherwise the source is read, then
   * stored into the destination, and finally every HL operand marked
   * increment or decrement adjusts HL.
   */
  function LdSpec(s: Machine, ops: seq<Operand>): Eval<bv8>
  {
    if |ops| == 3 then LdOffsetSpec(s, ops[2])
    else if |ops| < 2 then Eval(Failure(IndexOutOfRange), s)
    else
      var src := ValueOfSpec(s, ops[1]);
      if src.result.Failure? then Eval(Failure(src.result.error), src.state) else
      var t := LdStore(src.state, ops[0], ops[1], src.result.value);
      if t.outcome.Fail? then Eval(Failure(t.outcome.error), t.state)
      else Eval(Success(Ticks), t.state.(regs := AdjustHL(t.state.regs, ops)))
  }

  /**
   * The store of LD: to memory when the destination is data or
   * dereferenced (16 bits when the source is 16 bits wide, otherwise its
   * low byte), to the register when it is a plain register, nowhere
   * otherwise.
   */
  function LdStore(s: Machine, dst: Operand, src: Operand, data: bv16): Step
  {
    if dst.IsData() || dst.deref then
      var addr := ValueOfSpec(s, dst);
      if addr.result.Failure? then Step(Fail(addr.result.error), addr.state)
      else if src.Is16() then Step(Pass, addr.state.(mem := Store16(addr.state.mem, addr.result.value, data)))
      else Step(Pass, addr.state.(mem := Store(addr.state.mem, addr.result.value, Lo(data))))
    else if dst.IsRegister() then Step(Pass, s.(regs := s.regs.Set(dst.symbol.reg, data)))
    else Step(Pass, s)
  }

  /** The HL adjustment at the end of LD: the operands visited in order. */
  function AdjustHL(r: Regs, ops: seq<Operand>): Regs
  {
    if |ops| == 0 then r else AdjustOne(AdjustHL(r, ops[..|ops| - 1]), ops[|ops| - 1])
  }

  /** One operand's turn: an HL operand marked Inc adds one and marked Dec subtracts one, both from the same old HL. */
  function AdjustOne(r: Regs, op: Operand): Regs
  {
    if op.symbol != RegisterSym(HL) then r else
    var hl := r.Get(HL);
    var t := if op.inc then r.Set(HL, Plus(hl, 1)) else r;
    if op.dec then t.Set(HL, Minus(hl, 1)) else t
  }

  /** LD HL,SP+r8, given the third operand. */
  function LdOffsetSpec(s: Machine, op: Operand): Eval<bv8>
  {
    var v := ValueOfSpec(s, op);
    if v.result.Failure? then Eval(Failure(v.result.error), v.state)
    else Eval(Success(Ticks), v.state.(regs := LdOffsetRegs(v.state.regs, v.result.value)))
  }

  /**
   * The registers after LD HL,SP+r8 with the offset as ValueOf read it: H
   * and C are set on a carry out of bit 3 and bit 7 and otherwise left as
   * they were, Z and N are cleared, and HL is SP plus the offset.
   */
  function LdOffsetRegs(r: Regs, r8: bv16): Regs
  {
    var t := if CarryFromBit3(r.sp, r8, 0) then r.WithFlag(FlagH, true) else r;
    var u := if CarryFromBit7(r.sp, r8, 0) then t.WithFlag(FlagC, true) else t;
    u.WithFlag(FlagZ, false).WithFlag(FlagN, false).WithHL(Plus(r.sp, r8))
  }

  /** The address LDH reaches: 0xFF00 | a8. */
  function HighPage(a8: bv16): bv16
  {
    0xFF00 | a8
  }

  /** LDH A,(a8) reads A from the high page; LDH (a8),A writes A there; any other pair of operands does nothing. */
  function LdhSpec(s: Machine, ops: seq<Operand>): Eval<bv8>
  {
    if |ops| < 2 then Eval(Failure(IndexOutOfRange), s)
    else if ops[0].symbol == RegisterSym(A) && ops[1].symbol == DataSym(A8) then
      var v := ValueOfSpec(s, ops[1]);
      if v.result.Failure? then Eval(Failure(v.result.error), v.state)
      else Eval(Success(Ticks), v.state.(regs := v.state.regs.(a := v.state.mem(HighPage(v.result.value)))))
    else if ops[0].symbol == DataSym(A8) && ops[1].symbol == RegisterSym(A) then
      var v := ValueOfSpec(s, ops[0]);
      if v.result.Failure? then Eval(Failure(v.result.error), v.state)
      else Eval(Success(Ticks), v.state.(mem := Store(v.state.mem, HighPage(v.result.value), v.state.regs.a)))
    else Eval(Success(Ticks), s)
  }

  /** POP pops first; AF gets the word with its low nibble cleared, any other register the word itself. */
  function PopSpec(s: Machine, ops: seq<Operand>): Eval<bv8>
  {
    var p := Pop16Spec(s);
    if |ops| == 0 then Eval(Failure(IndexOutOfRange), p.state)
    else if ops[0].symbol == RegisterSym(AF) then
      Eval(Success(Ticks), p.state.(regs := p.state.regs.WithAF(p.value & 0xFFF0)))
    else if ops[0].symbol.RegisterSym? then
      Eval(Success(Ticks), p.state.(regs := p.state.regs.Set(ops[0].symbol.reg, p.value)))
    else Eval(Failure(InvalidOperand), p.state)
  }

  /** PUSH: the operand's value pushed on the stack. */
  function PushSpec(s: Machine, ops: seq<Operand>): Eval<bv8>
  {
    if |ops| == 0 then Eval(Failure(IndexOutOfRange), s) else
    var v := ValueOfSpec(s, ops[0]);
    if v.result.Failure? then Eval(Failure(v.result.error), v.state)
    else Eval(Success(Ticks), Push16Spec(v.state, v.result.value))
  }

  /** The mnemonics Process handles. */
  predicate Dispatched(m: Op.Mnemonic)
  {
    m in {Op.NOP, Op.JP, Op.JR, Op.CALL, Op.RET, Op.RETI, Op.DI, Op.EI, Op.XOR, Op.LD, Op.LDH}
  }

  /** Process: the handler for the mnemonic, or a NotImplemented failure. */
  function ProcessSpec(s: Machine, instr: Op.Instruction): Eval<bv8>
  {
    var ops := instr.operands;
    match instr.mnemonic
    case NOP => NopSpec(s)
    case JP => JumperSpec(s, ops, false, false)
    case JR => JumperSpec(s, ops, true, false)
    case CALL => JumperSpec(s, ops, false, true)
    case RET => RetSpec(s, ops)
    case RETI => RetiSpec(s, ops)
    case DI => DiSpec(s)
    case EI => EiSpec(s)
    case XOR => XorSpec(s, ops)
    case LD => LdSpec(s, ops)
    case LDH => LdhSpec(s, ops)
    case _ => Eval(Failure(NotImplemented), s)
  }

  // The handlers.

  method Process(cpu: CPU, instr: Op.Instruction) returns (r: Result<bv8>)
    modifies cpu, cpu.registers
    ensures Eval(r, cpu.State()) == ProcessSpec(old(cpu.State()), instr)
  {
    var ops := instr.operands;
    match instr.mnemonic
    case NOP => r := NOP(cpu, ops);
    case JP => r := JP(cpu, ops);
    case JR => r := JR(cpu, ops);
    case CALL => r := CALL(cpu, ops);
    case RET => r := RET(cpu, ops);
    case RETI => r := RETI(cpu, ops);
    case DI => r := DI(cpu, ops);
    case EI => r := EI(cpu, ops);
    case XOR => r := XOR(cpu, ops);
    case LD => r := LD(cpu, ops);
    case LDH => r := LDH(cpu, ops);
    case _ => r := Failure(NotImplemented);
  }

  method Jumper(cpu: CPU, ops: seq<Operand>, relative: bool, pushPC: bool) returns (r: Result<bv8>)
    modifies cpu, cpu.registers
    ensures Eval(r, cpu.State()) == JumperSpec(old(cpu.State()), ops, relative, pushPC)
  {
    if |ops| == 0 {
      return Failure(IndexOutOfRange);
    }
    var addr: Result<bv16>;
    if |ops| > 1 {
      var cond := ConditionOf(cpu.registers.Value(), ops[0].symbol);
      if cond.Failure? {
        return Failure(cond.error);
      }
      if !cond.value {
        return Success(Ticks);
      }
      addr := cpu.ValueOf(ops[1]);
    } else {
      addr := cpu.ValueOf(ops[0]);
    }
    r := JumpTail(cpu, addr, relative, pushPC);
  }

  /** The push, the relative offset and the store into PC that end jumper. */
  method JumpTail(cpu: CPU, addr: Result<bv16>, relative: bool, pushPC: bool) returns (r: Result<bv8>)
    modifies cpu, cpu.registers
    ensures Eval(r, cpu.State()) == JumpTo(Eval(addr, old(cpu.State())), relative, pushPC)
  {
    if addr.Failure? {
      return Failure(addr.error);
    }
    if pushPC {
      StackPush16(cpu, cpu.registers.pc);
    }
    cpu.registers.pc := Target(cpu.registers.pc, addr.value, relative);
    r := Success(Ticks);
  }

  method NOP(cpu: CPU, ops: seq<Operand>) returns (r: Result<bv8>)
    ensures Eval(r, cpu.State()) == NopSpec(cpu.State())
  {
    r := Success(Ticks);
  }

  method INC(cpu: CPU, ops: seq<Operand>) returns (r: Result<bv8>)
    modifies cpu.registers
    ensures Eval(r, cpu.State()) == IncSpec(old(cpu.State()), ops)
  {
    if |ops| == 0 {
      return Failure(IndexOutOfRange);
    }
    if !ops[0].symbol.RegisterSym? {
      return Failure(InvalidOperand);
    }
    var reg := ops[0].symbol.reg;
    var val := cpu.registers.Value().Get(reg);
    cpu.registers.Set(reg, Plus(val, 1));
    r := Success(Ticks);
  }

  method DEC(cpu: CPU, ops: seq<Operand>) returns (r: Result<bv8>)
    modifies cpu.registers
    ensures Eval(r, cpu.State()) == DecSpec(old(cpu.State()), ops)
  {
    if |ops| == 0 {
      return Failure(IndexOutOfRange);
    }
    if !ops[0].symbol.RegisterSym? {
      return Failure(InvalidOperand);
    }
    var reg := ops[0].symbol.reg;
    var val := cpu.registers.Value().Get(reg);
    cpu.registers.Set(reg, Minus(val, 1));
    r := Success(Ticks);
  }

  method JP(cpu: CPU, ops: seq<Operand>) returns (r: Result<bv8>)
    modifies cpu, cpu.registers
    ensures Eval(r, cpu.State()) == JumperSpec(old(cpu.State()), ops, false, false)
  {
    r := Jumper(cpu, ops, false, false);
  }

  method JR(cpu: CPU, ops: seq<Operand>) returns (r: Result<bv8>)
    modifies cpu, cpu.registers
    ensures Eval(r, cpu.State()) == JumperSpec(old(cpu.State()), ops, true, false)
  {
    r := Jumper(cpu, ops, true, false);
  }

  method CALL(cpu: CPU, ops: seq<Operand>) returns (r: Result<bv8>)
    modifies cpu, cpu.registers
    ensures Eval(r, cpu.State()) == JumperSpec(old(cpu.State()), ops, false, true)
  {
    r := Jumper(cpu, ops, false, true);
  }

  method RET(cpu: CPU, ops: seq<Operand>) returns (r: Result<bv8>)
    modifies cpu.registers
    ensures Eval(r, cpu.State()) == RetSpec(old(cpu.State()), ops)
  {
    var addr := StackPop16(cpu);
    if |ops| > 0 {
      var cond := ConditionOf(cpu.registers.Value(), ops[0].symbol);
      if cond.Failure? {
        return Failure(cond.error);
      }
      if !cond.value {
        return Success(Ticks);
      }
    }
    cpu.registers.pc := addr;
    r := Success(Ticks);
  }

  method RETI(cpu: CPU, ops: seq<Operand>) returns (r: Result<bv8>)
    modifies cpu, cpu.registers
    ensures Eval(r, cpu.State()) == RetiSpec(old(cpu.State()), ops)
  {
    r := RET(cpu, ops);
    if r.Failure? {
      return;
    }
    cpu.ime := true;
    r := Success(Ticks);
  }

  method DI(cpu: CPU, ops: seq<Operand>) returns (r: Result<bv8>)
    modifies cpu
    ensures Eval(r, cpu.State()) == DiSpec(old(cpu.State()))
  {
    cpu.ime := false;
    r := Success(Ticks);
  }

  method EI(cpu: CPU, ops: seq<Operand>) returns (r: Result<bv8>)
    modifies cpu
    ensures Eval(r, cpu.State()) == EiSpec(old(cpu.State()))
  {
    cpu.ime := true;
    r := Success(Ticks);
  }

  method XOR(cpu: CPU, ops: seq<Operand>) returns (r: Result<bv8>)
    modifies cpu.registers
    ensures Eval(r, cpu.State()) == XorSpec(old(cpu.State()), ops)
  {
    if |ops| == 0 {
      return Failure(IndexOutOfRange);
    }
    var value := cpu.ValueOf(ops[0]);
    if value.Failure? {
      return Failure(value.error);
    }
    StoreXor(cpu.registers, Lo(value.value));
    r := Success(Ticks);
  }

  /** The update of A and the flag calls of XOR. */
  method StoreXor(registers: Registers, v: bv8)
    modifies registers
    ensures registers.Value() == XorRegs(old(registers.Value()), v)
  {
    registers.a := registers.a ^ v;
    if registers.a == 0 {
      registers.SetFlag(FlagZ);
    }
    registers.ClearFlag(FlagN);
    registers.ClearFlag(FlagH);
    registers.ClearFlag(FlagC);
  }

  method LD(cpu: CPU, ops: seq<Operand>) returns (r: Result<bv8>)
    modifies cpu, cpu.registers
    ensures Eval(r, cpu.State()) == LdSpec(old(cpu.State()), ops)
  {
    if |ops| == 3 {
      r := LdOffset(cpu, ops[2]);
      return;
    }
    if |ops| < 2 {
      return Failure(IndexOutOfRange);
    }
    var srcData := cpu.ValueOf(ops[1]);
    if srcData.Failure? {
      return Failure(srcData.error);
    }
    var stored := LdWrite(cpu, ops[0], ops[1], srcData.value);
    if stored.Fail? {
      return Failure(stored.error);
    }
    AdjustHLLoop(cpu.registers, ops);
    r := Success(Ticks);
  }

  /** The store of LD into memory or a register. */
  method LdWrite(cpu: CPU, dst: Operand, src: Operand, data: bv16) returns (r: Outcome)
    modifies cpu, cpu.registers
    ensures Step(r, cpu.State()) == LdStore(old(cpu.State()), dst, src, data)
  {
    r := Pass;
    if dst.IsData() || dst.deref {
      var addr := cpu.ValueOf(dst);
      if addr.Failure? {
        return Fail(addr.error);
      }
      if src.Is16() {
        cpu.Write16(addr.value, data);
      } else {
        cpu.Write8(addr.value, Lo(data));
      }
    } else if dst.IsRegister() {
      cpu.registers.Set(dst.symbol.reg, data);
    }
  }

  /** The loop over the operands at the end of LD that applies HL+ and HL-. */
  method AdjustHLLoop(registers: Registers, ops: seq<Operand>)
    modifies registers
    ensures registers.Value() == AdjustHL(old(registers.Value()), ops)
  {
    var i := 0;
    while i < |ops|
      invariant 0 <= i <= |ops|
      invariant registers.Value() == AdjustHL(old(registers.Value()), ops[..i])
    {
      assert ops[..i + 1][..i] == ops[..i];
      AdjustStep(registers, ops[i]);
      i := i + 1;
    }
    assert ops[..|ops|] == ops;
  }

  /** One pass of that loop. */
  method AdjustStep(registers: Registers, op: Operand)
    modifies registers
    ensures registers.Value() == AdjustOne(old(registers.Value()), op)
  {
    if op.symbol != RegisterSym(HL) {
      return;
    }
    var hl := registers.Value().Get(HL);
    if op.inc {
      registers.Set(HL, Plus(hl, 1));
    }
    if op.dec {
      registers.Set(HL, Minus(hl, 1));
    }
  }

  /** LD HL,SP+r8. */
  method LdOffset(cpu: CPU, op: Operand) returns (r: Result<bv8>)
    modifies cpu.registers
    ensures Eval(r, cpu.State()) == LdOffsetSpec(old(cpu.State()), op)
  {
    var r8 := cpu.ValueOf(op);
    if r8.Failure? {
      return Failure(r8.error);
    }
    StoreOffset(cpu.registers, r8.value);
    r := Success(Ticks);
  }

  /** The flag calls and the SetHL of LD HL,SP+r8. */
  method StoreOffset(registers: Registers, r8: bv16)
    modifies registers
    ensures registers.Value() == LdOffsetRegs(old(registers.Value()), r8)
  {
    var setH := CarryFromBit3(registers.sp, r8, 0);
    if setH {
      registers.SetFlag(FlagH);
    }
    var setC := CarryFromBit7(registers.sp, r8, 0);
    if setC {
      registers.SetFlag(FlagC);
    }
    registers.ClearFlag(FlagZ);
    registers.ClearFlag(FlagN);
    registers.SetHL(Plus(registers.sp, r8));
  }

  method LDH(cpu: CPU, ops: seq<Operand>) returns (r: Result<bv8>)
    modifies cpu, cpu.registers
    ensures Eval(r, cpu.State()) == LdhSpec(old(cpu.State()), ops)
  {
    if |ops| < 2 {
      return Failure(IndexOutOfRange);
    }
    var first := ops[0].symbol;
    var second := ops[1].symbol;
    r := Success(Ticks);
    if first == RegisterSym(A) && second == DataSym(A8) {
      var a8 := cpu.ValueOf(ops[1]);
      if a8.Failure? {
        return Failure(a8.error);
      }
      cpu.registers.a := cpu.Read8(HighPage(a8.value));
    } else if first == DataSym(A8) && second == RegisterSym(A) {
      var a8 := cpu.ValueOf(ops[0]);
      if a8.Failure? {
        return Failure(a8.error);
      }
      cpu.Write8(HighPage(a8.value), cpu.registers.a);
    }
  }

  method POP(cpu: CPU, ops: seq<Operand>) returns (r: Result<bv8>)
    modifies cpu.registers
    ensures Eval(r, cpu.State()) == PopSpec(old(cpu.State()), ops)
  {
    var val := StackPop16(cpu);
    if |ops| == 0 {
      return Failure(IndexOutOfRange);
    }
    if ops[0].symbol == RegisterSym(AF) {
      cpu.registers.SetAF(val & 0xFFF0);
    } else if ops[0].symbol.RegisterSym? {
      cpu.registers.Set(ops[0].symbol.reg, val);
    } else {
      return Failure(InvalidOperand);
    }
    r := Success(Ticks);
  }

  method PUSH(cpu: CPU, ops: seq<Operand>) returns (r: Result<bv8>)
    modifies cpu, cpu.registers
    ensures Eval(r, cpu.State()) == PushSpec(old(cpu.State()), ops)
  {
    if |ops| == 0 {
      return Failure(IndexOutOfRange);
    }
    var val := cpu.ValueOf(ops[0]);
    if val.Failure? {
      return Failure(val.error);
    }
    StackPush16(cpu, val.value);
    r := Success(Ticks);
  }

  // What the handlers promise.

  /** ValueOf fails only on an operand it cannot read. */
  lemma ValueOfError(s: Machine, op: Operand)
    ensures ValueOfSpec(s, op).result.Failure? ==> ValueOfSpec(s, op).result.error == InvalidOperand
    ensures ValueOfSpec(s, op).result.Failure? <==> !(op.symbol.DataSym? || op.symbol.RegisterSym? || op.symbol.ByteSym?)
  {
  }

  /** A handler's result: 4 ticks on success, and on failure one of the two panics the handlers can raise. */
  predicate Handled(e: Eval<bv8>)
  {
    (e.result.Success? ==> e.result.value == Ticks) &&
    (e.result.Failure? ==> e.result.error == IndexOutOfRange || e.result.error == InvalidOperand)
  }

  /**
   * Process reports NotImplemented exactly for the mnemonics it does not
   * dispatch, and then changes nothing; every dispatched handler returns 4
   * ticks or fails with an index or operand panic.
   */
  lemma ProcessDispatch(s: Machine, instr: Op.Instruction)
    ensures ProcessSpec(s, instr).result == Failure(NotImplemented) <==> !Dispatched(instr.mnemonic)
    ensures !Dispatched(instr.mnemonic) ==> ProcessSpec(s, instr).state == s
    ensures Dispatched(instr.mnemonic) ==> Handled(ProcessSpec(s, instr))
  {
    var ops := instr.operands;
    match instr.mnemonic
    case JP => JumperHandled(s, ops, false, false);
    case JR => JumperHandled(s, ops, true, false);
    case CALL => JumperHandled(s, ops, false, true);
    case RET => RetHandled(s, ops);
    case RETI => RetHandled(s, ops);
    case XOR => XorHandled(s, ops);
    case LD => LdHandled(s, ops);
    case LDH => LdhHandled(s, ops);
    case _ =>
  }

  lemma JumperHandled(s: Machine, ops: seq<Operand>, relative: bool, pushPC: bool)
    ensures Handled(JumperSpec(s, ops, relative, pushPC))
  {
    if |ops| > 1 {
      ValueOfError(s, ops[1]);
    } else if |ops| == 1 {
      ValueOfError(s, ops[0]);
    }
  }

  lemma RetHandled(s: Machine, ops: seq<Operand>)
    ensures Handled(RetSpec(s, ops))
    ensures Handled(RetiSpec(s, ops))
  {
  }

  lemma XorHandled(s: Machine, ops: seq<Operand>)
    ensures Handled(XorSpec(s, ops))
  {
    if |ops| > 0 {
      ValueOfError(s, ops[0]);
    }
  }

  lemma LdHandled(s: Machine, ops: seq<Operand>)
    ensures Handled(LdSpec(s, ops))
  {
    if |ops| == 3 {
      ValueOfError(s, ops[2]);
    } else if |ops| >= 2 {
      ValueOfError(s, ops[1]);
      var src := ValueOfSpec(s, ops[1]);
      if src.result.Success? {
        ValueOfError(src.state, ops[0]);
      }
    }
  }

  lemma LdhHandled(s: Machine, ops: seq<Operand>)
    ensures Handled(LdhSpec(s, ops))
  {
    if |ops| >= 2 {
      ValueOfError(s, ops[0]);
      ValueOfError(s, ops[1]);
    }
  }

  /**
   * A conditional JP, JR or CALL whose condition fails returns before its
   * operand is read: the machine is left exactly as it was, PC included,
   * so PC still points at the operand bytes.
   */
  lemma JumpNotTaken(s: Machine, c: Condition, target: Operand, relative: bool, pushPC: bool)
    requires !s.regs.IsCondition(c)
    ensures JumperSpec(s, [Cond(c), target], relative, pushPC) == Eval(Success(Ticks), s)
  {
  }

  /**
   * JP cc,a16 not taken: PC has not moved past the two operand bytes,
   * where JP of pkg/cpu/operations.go moves it by two.
   */
  lemma JpNotTakenStaysOnOperand(s: Machine)
    requires s.regs.Flag(FlagZ)
    ensures JumperSpec(s, [Cond(NZ), Dat(A16)], false, false).state.regs.pc == s.regs.pc
    ensures Control.JpSpec(s, [Control.Cond(NZ), Control.Imm16()]).state.regs.pc
         == s.regs.pc + 2
  {
    JumpNotTaken(s, NZ, Dat(A16), false, false);
    Control.JpConditional(s, NZ);
  }

  /** JP a16 and a taken JP cc,a16 set PC to the word after the opcode; nothing else changes. */
  lemma JpTaken(s: Machine, ops: seq<Operand>)
    requires ops == [Dat(A16)] || (|ops| == 2 && ops[0].symbol.ConditionSym? &&
      s.regs.IsCondition(ops[0].symbol.cond) && ops[1] == Dat(A16))
    ensures JumperSpec(s, ops, false, false) == Eval(Success(Ticks), s.(regs := s.regs.(pc := Load16(s.mem, s.regs.pc))))
  {
    ValueOfData(s, Dat(A16));
  }

  /** JR r8 adds the sign-extended offset byte to the address after it. */
  lemma JrRelativeTarget(s: Machine)
    ensures JumperSpec(s, [Dat(R8)], true, false).result == Success(Ticks)
    ensures JumperSpec(s, [Dat(R8)], true, false).state.regs.pc
         == Plus(s.regs.pc + 1, CpuSymbol.SignExtend(s.mem(s.regs.pc)))
  {
    ValueOfData(s, Dat(R8));
  }

  /** CALL a16 fetches its operand, pushes the address after it and jumps to the operand. */
  lemma CallShape(s: Machine)
    ensures JumperSpec(s, [Dat(A16)], false, true) == Eval(Success(Ticks),
      var t := Push16Spec(s.(regs := s.regs.(pc := s.regs.pc + 2)), s.regs.pc + 2);
      t.(regs := t.regs.(pc := Load16(s.mem, s.regs.pc))))
  {
    ValueOfData(s, Dat(A16));
  }

  /** CALL a16 pushes the address after its operand and jumps to the operand. */
  lemma CallPushes(s: Machine)
    ensures JumperSpec(s, [Dat(A16)], false, true).state.regs.pc == Load16(s.mem, s.regs.pc)
    ensures JumperSpec(s, [Dat(A16)], false, true).state.regs.sp == s.regs.sp - 2
    ensures Load16(JumperSpec(s, [Dat(A16)], false, true).state.mem, s.regs.sp - 2) == s.regs.pc + 2
  {
    CallShape(s);
    var f := s.(regs := s.regs.(pc := s.regs.pc + 2));
    Push16Layout(f, f.regs.pc);
    PushedWord(f, f.regs.pc);
  }

  /** RET after CALL a16 comes back to the instruction after the CALL with SP restored. */
  lemma CallThenRet(s: Machine)
    ensures RetSpec(JumperSpec(s, [Dat(A16)], false, true).state, []).state.regs.pc == s.regs.pc + 2
    ensures RetSpec(JumperSpec(s, [Dat(A16)], false, true).state, []).state.regs.sp == s.regs.sp
  {
    CallShape(s);
    var f := s.(regs := s.regs.(pc := s.regs.pc + 2));
    var t := Push16Spec(f, f.regs.pc);
    PushPopRoundTrip(f, f.regs.pc);
    Pop16Reads(t);
    Pop16Reads(t.(regs := t.regs.(pc := Load16(s.mem, s.regs.pc))));
  }

  /**
   * RET cc pops before it tests the condition: when the condition fails
   * PC stays but SP has still moved up by two, where RET of
   * pkg/cpu/operations.go leaves the machine as it was.
   */
  lemma RetNotTaken(s: Machine, c: Condition)
    requires !s.regs.IsCondition(c)
    ensures RetSpec(s, [Cond(c)]) == Eval(Success(Ticks), s.(regs := s.regs.(sp := s.regs.sp + 2)))
    ensures Control.RetSpec(s, [Control.Cond(c)]) == s
  {
    Pop16Reads(s);
    Control.RetConditional(s, c);
  }

  /** RET, and RET cc when the condition holds, pop PC from the stack. */
  lemma RetTaken(s: Machine, ops: seq<Operand>)
    requires ops == [] || (|ops| == 1 && ops[0].symbol.ConditionSym? && s.regs.IsCondition(ops[0].symbol.cond))
    ensures RetSpec(s, ops) == Eval(Success(Ticks),
      s.(regs := s.regs.(sp := s.regs.sp + 2, pc := Load16(s.mem, s.regs.sp))))
  {
    Pop16Reads(s);
  }

  /** RETI is RET that also sets IME. */
  lemma RetiEnables(s: Machine)
    ensures RetiSpec(s, []) == Eval(Success(Ticks),
      s.(regs := s.regs.(sp := s.regs.sp + 2, pc := Load16(s.mem, s.regs.sp)), ime := true))
  {
    RetTaken(s, []);
  }

  /** DI and EI change IME at once and nothing else; each undoes the other. */
  lemma DiEiImmediate(s: Machine)
    ensures !DiSpec(s).state.ime && EiSpec(s).state.ime
    ensures EiSpec(DiSpec(s).state).state == s.(ime := true)
    ensures DiSpec(EiSpec(s).state).state == s.(ime := false)
  {
  }

  /**
   * The registers after XOR: A is A xor v, N, H and C are clear, and Z is
   * set when A became 0 but otherwise keeps its old value; B to L, SP and
   * PC are untouched.
   */
  lemma XorRegsFields(r: Regs, v: bv8)
    ensures XorRegs(r, v).a == r.a ^ v
    ensures XorRegs(r, v).Flag(FlagZ) == (r.Flag(FlagZ) || r.a ^ v == 0)
    ensures !XorRegs(r, v).Flag(FlagN) && !XorRegs(r, v).Flag(FlagH) && !XorRegs(r, v).Flag(FlagC)
    ensures XorRegs(r, v) == r.(a := r.a ^ v, f := XorRegs(r, v).f)
  {
    var a := r.a ^ v;
    var u := r.(a := a);
    var t := if a == 0 then u.WithFlag(FlagZ, true) else u;
    assert t.Flag(FlagZ) == (r.Flag(FlagZ) || a == 0);
    var n := t.WithFlag(FlagN, false);
    var h := n.WithFlag(FlagH, false);
    assert XorRegs(r, v) == h.WithFlag(FlagC, false);
  }

  /** XOR A clears A and sets Z. */
  lemma XorSelf(s: Machine)
    ensures XorSpec(s, [Reg(A)]).state.regs.a == 0
    ensures XorSpec(s, [Reg(A)]).state.regs.Flag(FlagZ)
    ensures XorSpec(s, [Reg(A)]).state.mem == s.mem
  {
    XorRegsFields(s.regs, s.regs.a);
  }

  /**
   * XOR with a non-zero result leaves Z set when it was set: with A = 1, Z
   * set and B = 0, XOR B gives A = 1 with Z still set, where XOR of
   * pkg/cpu/operations.go clears it.
   */
  lemma XorKeepsStaleZero(s: Machine)
    requires s.regs.a == 1 && s.regs.b == 0 && s.regs.Flag(FlagZ)
    ensures XorSpec(s, [Reg(B)]).state.regs.a == 1
    ensures XorSpec(s, [Reg(B)]).state.regs.Flag(FlagZ)
  {
    XorRegsFields(s.regs, 0);
  }

  /** INC and DEC on a register other than F leave the flags as they were. */
  lemma IncDecKeepFlags(s: Machine, reg: Register)
    requires reg !in {F, AF}
    ensures IncSpec(s, [Reg(reg)]).state.regs.f == s.regs.f
    ensures DecSpec(s, [Reg(reg)]).state.regs.f == s.regs.f
  {
    SetFields(s.regs, reg, Plus(s.regs.Get(reg), 1));
    SetFields(s.regs, reg, Minus(s.regs.Get(reg), 1));
  }

  /** DEC undoes INC on a 16-bit register other than AF: the whole machine is as before. */
  lemma IncThenDecWide(s: Machine, reg: Register)
    requires reg in {BC, DE, HL, SP}
    ensures DecSpec(IncSpec(s, [Reg(reg)]).state, [Reg(reg)]) == Eval(Success(Ticks), s)
  {
    Alu.PairStepBack(s.regs, reg);
  }

  /** DEC undoes INC on an 8-bit register other than F: the whole machine is as before. */
  lemma {:induction false} IncThenDecByte(s: Machine, reg: Register)
    requires IsSingle(reg) && reg != F
    ensures DecSpec(IncSpec(s, [Reg(reg)]).state, [Reg(reg)]) == Eval(Success(Ticks), s)
  {
    var v := s.regs.Get(reg);
    var r1 := s.regs.Set(reg, Plus(v, 1));
    var w := Minus(r1.Get(reg), 1);
    ByteStepBack(v);
    assert Lo(w) == Lo(v);
    SetByteTwice(s.regs, reg, Plus(v, 1), w);
    SetSameLow(s.regs, reg, w, v);
    SetOwnValue(s.regs, reg);
  }

  /** A byte value plus one, cut to a byte, minus one has the value as its low byte. */
  lemma ByteStepBack(v: bv16)
    requires v < 0x100
    ensures Lo(Minus(Plus(v, 1) & 0xFF, 1)) == Lo(v)
  {
  }

  /** A second Set of an 8-bit register overrides the first. */
  lemma SetByteTwice(r: Regs, reg: Register, v: bv16, w: bv16)
    requires IsSingle(reg) && reg != F
    ensures r.Set(reg, v).Set(reg, w) == r.Set(reg, w)
  {
    match reg
    case A =>
    case B =>
    case C =>
    case D =>
    case E =>
    case H =>
    case L =>
  }

  /** Set on an 8-bit register keeps only the low byte of the value. */
  lemma SetSameLow(r: Regs, reg: Register, w: bv16, v: bv16)
    requires IsSingle(reg) && reg != F && Lo(w) == Lo(v)
    ensures r.Set(reg, w) == r.Set(reg, v)
  {
  }

  /** The loop over a two-operand list visits the destination, then the source. */
  lemma AdjustHLPair(r: Regs, dst: Operand, src: Operand)
    ensures AdjustHL(r, [dst, src]) == AdjustOne(AdjustOne(r, dst), src)
  {
    assert [dst, src][..1] == [dst];
    assert [dst][..0] == [];
    assert AdjustHL(r, [dst]) == AdjustOne(r, dst);
  }

  /** LD A,(HL-): A gets the byte HL points at, then HL moves down by one. */
  lemma LdHLDecrement(s: Machine)
    ensures LdSpec(s, [Reg(A), Deref(Dec(Reg(HL)))]) == Eval(Success(Ticks),
      s.(regs := s.regs.(a := s.mem(s.regs.GetHL())).WithHL(Minus(s.regs.GetHL(), 1))))
  {
    var loaded := s.regs.(a := s.mem(s.regs.GetHL()));
    AdjustHLPair(loaded, Reg(A), Deref(Dec(Reg(HL))));
  }

  /**
   * LD (HL+),A: the destination is read through ValueOf like a source, so
   * A is stored at the address named by the byte HL points at, not at HL;
   * then HL moves up by one.
   */
  lemma LdHLIncrement(s: Machine)
    ensures LdSpec(s, [Deref(Inc(Reg(HL))), Reg(A)]) == Eval(Success(Ticks),
      s.(mem := Store(s.mem, s.mem(s.regs.GetHL()) as bv16, s.regs.a), regs := s.regs.WithHL(Plus(s.regs.GetHL(), 1))))
  {
    var dst, src := Deref(Inc(Reg(HL))), Reg(A);
    assert ValueOfSpec(s, src) == Eval(Success(s.regs.Get(A)), s);
    StoreThroughHL(s);
    AdjustHLPair(s.regs, dst, src);
  }

  /** The store of LD (HL+),A: the destination's value, the byte HL points at, is the address. */
  lemma StoreThroughHL(s: Machine)
    ensures LdStore(s, Deref(Inc(Reg(HL))), Reg(A), s.regs.Get(A))
         == Step(Pass, s.(mem := Store(s.mem, s.mem(s.regs.GetHL()) as bv16, s.regs.a)))
  {
    assert Lo(s.regs.Get(A)) == s.regs.a;
    assert ValueOfSpec(s, Deref(Inc(Reg(HL)))) == Eval(Success(s.mem(s.regs.GetHL()) as bv16), s);
  }

  /**
   * With HL = 0xC000 holding 0x12, LD (HL+),A writes A to 0x0012 and leaves
   * 0xC000 as it was, where LD of pkg/cpu/operations.go writes A to 0xC000.
   */
  lemma LdDerefMissesAddress(s: Machine)
    requires s.regs.GetHL() == 0xC000 && s.mem(0xC000) == 0x12
    ensures LdSpec(s, [Deref(Inc(Reg(HL))), Reg(A)]).state.mem(0x0012) == s.regs.a
    ensures LdSpec(s, [Deref(Inc(Reg(HL))), Reg(A)]).state.mem(0xC000) == 0x12
    ensures Load.LdSpec(s, [Load.HLInc(), CpuAccess.Reg(A)]).state.mem(0xC000) == s.regs.a
  {
    LdHLIncrement(s);
    Load.LdHLIncrementStores(s);
  }

  /**
   * The registers after LD HL,SP+r8: HL is SP plus the offset as given, Z
   * and N are clear, and H and C are set on a carry out of bit 3 and 7 but
   * never cleared.
   */
  lemma LdOffsetRegsFields(r: Regs, r8: bv16)
    ensures LdOffsetRegs(r, r8).GetHL() == Plus(r.sp, r8)
    ensures !LdOffsetRegs(r, r8).Flag(FlagZ) && !LdOffsetRegs(r, r8).Flag(FlagN)
    ensures LdOffsetRegs(r, r8).Flag(FlagH) == (r.Flag(FlagH) || CarryFromBit3(r.sp, r8, 0))
    ensures LdOffsetRegs(r, r8).Flag(FlagC) == (r.Flag(FlagC) || CarryFromBit7(r.sp, r8, 0))
  {
  }

  /** LD HL,SP+r8 adds the offset byte zero-extended, not sign-extended. */
  lemma LdOffsetZeroExtends(s: Machine)
    ensures LdSpec(s, [Reg(HL), Reg(SP), Dat(R8)]).state.regs.GetHL() == Plus(s.regs.sp, s.mem(s.regs.pc) as bv16)
  {
    ValueOfData(s, Dat(R8));
    LdOffsetRegsFields(s.regs.(pc := s.regs.pc + 1), s.mem(s.regs.pc) as bv16);
  }

  /**
   * With SP = 0xFFFE and offset byte 0xFF (that is, -1) HL becomes 0x00FD,
   * where LD HL,SP+r8 of pkg/cpu/operations.go gives 0xFFFD.
   */
  lemma LdOffsetMissesNegative(s: Machine)
    requires s.regs.sp == 0xFFFE && s.mem(s.regs.pc) == 0xFF
    ensures LdSpec(s, [Reg(HL), Reg(SP), Dat(R8)]).state.regs.GetHL() == 0x00FD
    ensures Load.LdOffsetSpec(s, Load.SPPlus()[2]).regs.GetHL() == 0xFFFD
  {
    LdOffsetZeroExtends(s);
    Load.LdSPOffset(s);
  }

  /** The high page: 0xFF00 plus the byte, always at or above 0xFF00. */
  lemma HighPageOffset(b: bv8)
    ensures HighPage(b as bv16) == 0xFF00 + b as bv16
    ensures HighPage(b as bv16) >= 0xFF00
  {
  }

  /** LDH A,(a8) loads A from 0xFF00 + a8 and moves PC past a8. */
  lemma LdhRead(s: Machine)
    ensures LdhSpec(s, [Reg(A), Dat(A8)]) == Eval(Success(Ticks),
      s.(regs := s.regs.(pc := s.regs.pc + 1, a := s.mem(HighPage(s.mem(s.regs.pc) as bv16)))))
  {
    ValueOfData(s, Dat(A8));
  }

  /** LDH (a8),A stores A at 0xFF00 + a8 and moves PC past a8. */
  lemma LdhWrite(s: Machine)
    ensures LdhSpec(s, [Dat(A8), Reg(A)]) == Eval(Success(Ticks),
      s.(regs := s.regs.(pc := s.regs.pc + 1), mem := Store(s.mem, HighPage(s.mem(s.regs.pc) as bv16), s.regs.a)))
  {
    ValueOfData(s, Dat(A8));
  }

  /** POP AF clears the low nibble of F, whatever was on the stack. */
  lemma PopAFClearsLowNibble(s: Machine)
    ensures PopSpec(s, [Reg(AF)]).result == Success(Ticks)
    ensures PopSpec(s, [Reg(AF)]).state.regs.f & 0x0F == 0
    ensures PopSpec(s, [Reg(AF)]).state.regs.a == Hi(Load16(s.mem, s.regs.sp))
  {
    Pop16Reads(s);
  }

  /** PUSH rr then POP rr gives BC, DE or HL back, and AF with the low nibble of F cleared. */
  lemma PushThenPop(s: Machine, reg: Register)
    requires reg in {AF, BC, DE, HL}
    ensures PopSpec(PushSpec(s, [Reg(reg)]).state, [Reg(reg)]).result == Success(Ticks)
    ensures reg != AF ==> PopSpec(PushSpec(s, [Reg(reg)]).state, [Reg(reg)]).state.regs == s.regs
    ensures reg == AF ==>
      PopSpec(PushSpec(s, [Reg(reg)]).state, [Reg(reg)]).state.regs == s.regs.WithAF(s.regs.GetAF() & 0xFFF0)
  {
    var v := s.regs.Get(reg);
    PushPopRoundTrip(s, v);
    if reg != AF {
      SetOwnValue(s.regs, reg);
    }
  }
}
