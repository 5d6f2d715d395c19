/**
 * The CPU of pkg/cpu/cpu.go: its register file, the memory it reads and
 * writes, IME and IE, plus the Halted flag and the Interrupt master state
 * that the handlers of pkg/cpu/operations.go update.
 *
 * `Machine` is the value of the whole CPU state; each method is specified
 * by a function from the old `Machine` to the new one, so the handlers of
 * the other modules can be specified by composing those functions.
 */
module Cpu {
  import opened Errors
  import opened BitsBitwise
  import opened CpuRegisters
  import opened CpuMemory
  import opened CpuInterrupt
  import IO = InstructionsOperand

  datatype Machine = Machine(
    regs: Regs,
    mem: Memory,
    ime: bool,
    ie: bv8,
    halted: bool,
    interrupt: Interrupt)

  /** A value read from the machine together with the state after reading it. */
  datatype Fetched<T> = Fetched(value: T, state: Machine)

  /** The same for a read that may fail (a Go panic). */
  datatype Eval<T> = Eval(result: Result<T>, state: Machine)

  /** The outcome of a handler and the state it leaves, also when it panics part-way. */
  datatype Step = Step(outcome: Outcome, state: Machine)

  /** Fetch8: the byte at PC, and PC one higher (mod 2^16). */
  function Fetch8Spec(s: Machine): Fetched<bv8>
  {
    Fetched(s.mem(s.regs.pc), s.(regs := s.regs.(pc := s.regs.pc + 1)))
  }

  /** Fetch16: the little-endian word at PC, and PC two higher (mod 2^16). */
  function Fetch16Spec(s: Machine): Fetched<bv16>
  {
    Fetched(Load16(s.mem, s.regs.pc), s.(regs := s.regs.(pc := s.regs.pc + 2)))
  }

  /**
   * Fetch16 is two Fetch8 calls, low byte first: the word is the two
   * fetched bytes joined, and PC ends where the second fetch leaves it.
   */
  lemma Fetch16IsTwoFetch8(s: Machine)
    ensures var lo := Fetch8Spec(s); var hi := Fetch8Spec(lo.state);
      Fetch16Spec(s).value == To16(hi.value, lo.value)
    ensures Fetch16Spec(s).state == Fetch8Spec(Fetch8Spec(s).state).state
  {
  }

  /**
   * ValueOf for an operand of pkg/instructions: immediate data is fetched
   * (16 bits when the operand is 16 bits wide, otherwise one byte
   * zero-extended, so r8 is not sign-extended here); a register gives its
   * value, or the byte it points at when dereferenced; a byte literal gives
   * itself; anything else fails.
   */
  function ValueOfSpec(s: Machine, op: IO.Operand): Eval<bv16>
  {
    match op.symbol
    case DataSym(_) =>
      if op.Is16() then
        var f := Fetch16Spec(s); Eval(Success(f.value), f.state)
      else
        var f := Fetch8Spec(s); Eval(Success(f.value as bv16), f.state)
    case RegisterSym(reg) =>
      var v := s.regs.Get(reg);
      Eval(Success(if op.deref then s.mem(v) as bv16 else v), s)
    case ByteSym(b) => Eval(Success(b as bv16), s)
    case _ => Eval(Failure(InvalidOperand), s)
  }

  /** ValueOf on immediate data: a fetch of the operand's width. */
  lemma ValueOfData(s: Machine, op: IO.Operand)
    requires op.symbol.DataSym?
    ensures op.Is16() ==> ValueOfSpec(s, op).result == Success(Load16(s.mem, s.regs.pc))
    ensures op.Is16() ==> ValueOfSpec(s, op).state.regs.pc == s.regs.pc + 2
    ensures op.Is8() ==> ValueOfSpec(s, op).result == Success(s.mem(s.regs.pc) as bv16)
    ensures op.Is8() ==> ValueOfSpec(s, op).state.regs.pc == s.regs.pc + 1
    ensures ValueOfSpec(s, op).state.mem == s.mem
  {
  }

  /** ValueOf on any other operand reads without moving PC, and fails on hex, bit and condition operands. */
  lemma ValueOfNoFetch(s: Machine, op: IO.Operand)
    requires !op.symbol.DataSym?
    ensures ValueOfSpec(s, op).state == s
    ensures op.symbol.RegisterSym? && !op.deref ==>
      ValueOfSpec(s, op).result == Success(s.regs.Get(op.symbol.reg))
    ensures op.symbol.RegisterSym? && op.deref ==>
      ValueOfSpec(s, op).result == Success(s.mem(s.regs.Get(op.symbol.reg)) as bv16)
    ensures (op.symbol.HexSym? || op.symbol.BitSym? || op.symbol.ConditionSym?) ==>
      ValueOfSpec(s, op).result == Failure(InvalidOperand)
  {
  }

  class CPU {
    const registers: Registers
    var memory: Memory
    var ime: bool
    var ie: bv8
    var halted: bool
    var interrupt: Interrupt

    function State(): Machine
      reads this, registers
    {
      Machine(registers.Value(), memory, ime, ie, halted, interrupt)
    }

    /**
     * New: IME starts true. RegistersForDMG, which picks the power-up
     * register values from the cartridge, is not part of this model; its
     * result is the parameter `init`, and `mem` is the memory the CPU sees.
     */
    constructor New(init: Regs, mem: Memory)
      ensures State() == Machine(init, mem, true, 0, false, Interrupt(false, MASTER_SET_NONE, MASTER_SET_NONE))
      ensures fresh(registers)
    {
      registers := new Registers(init);
      memory := mem;
      ime := true;
      ie := 0;
      halted := false;
      interrupt := Interrupt(false, MASTER_SET_NONE, MASTER_SET_NONE);
    }

    function Read8(address: bv16): bv8
      reads this
    {
      memory(address)
    }

    function Read16(address: bv16): (r: bv16)
      reads this
      ensures Lo(r) == Read8(address) && Hi(r) == Read8(address + 1)
    {
      Load16(memory, address)
    }

    method Write8(address: bv16, value: bv8)
      modifies this
      ensures State() == old(State()).(mem := Store(old(memory), address, value))
    {
      memory := Store(memory, address, value);
    }

    method Write16(address: bv16, value: bv16)
      modifies this
      ensures State() == old(State()).(mem := Store16(old(memory), address, value))
    {
      memory := Store16(memory, address, value);
    }

    method Fetch8() returns (r: bv8)
      modifies registers
      ensures Fetched(r, State()) == Fetch8Spec(old(State()))
    {
      r := Read8(registers.pc);
      registers.pc := registers.pc + 1;
    }

    method Fetch16() returns (r: bv16)
      modifies registers
      ensures Fetched(r, State()) == Fetch16Spec(old(State()))
    {
      r := Read16(registers.pc);
      registers.pc := registers.pc + 2;
    }

    method ValueOf(op: IO.Operand) returns (r: Result<bv16>)
      modifies registers
      ensures Eval(r, State()) == ValueOfSpec(old(State()), op)
    {
      match op.symbol
      case DataSym(_) =>
        if op.Is16() {
          var v := Fetch16();
          r := Success(v);
        } else {
          var v := Fetch8();
          r := Success(v as bv16);
        }
      case RegisterSym(reg) =>
        var v := registers.Value().Get(reg);
        if op.deref {
          v := Read8(v) as bv16;
        }
        r := Success(v);
      case ByteSym(b) =>
        r := Success(b as bv16);
      case _ =>
        r := Failure(InvalidOperand);
    }
  }
}
