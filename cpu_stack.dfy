/**
 * The stack of pkg/cpu/stack.go: pushes pre-decrement SP and write, pops
 * read and then post-increment SP, and 16-bit values go high byte first so
 * the low byte ends at the lower address. SP wraps mod 2^16.
 */
module CpuStack {
  import opened BitsBitwise
  import opened CpuMemory
  import opened Cpu

  function Push8Spec(s: Machine, data: bv8): Machine
  {
    var sp := s.regs.sp - 1;
    s.(regs := s.regs.(sp := sp), mem := Store(s.mem, sp, data))
  }

  function Push16Spec(s: Machine, data: bv16): Machine
  {
    Push8Spec(Push8Spec(s, Hi(data)), Lo(data))
  }

  function Pop8Spec(s: Machine): Fetched<bv8>
  {
    Fetched(s.mem(s.regs.sp), s.(regs := s.regs.(sp := s.regs.sp + 1)))
  }

  function Pop16Spec(s: Machine): Fetched<bv16>
  {
    var lo := Pop8Spec(s);
    var hi := Pop8Spec(lo.state);
    Fetched(To16(hi.value, lo.value), hi.state)
  }

  /** After StackPush16, SP is two lower, the low byte is at SP and the high byte above it. */
  lemma Push16Layout(s: Machine, data: bv16)
    ensures var t := Push16Spec(s, data);
      t.regs == s.regs.(sp := s.regs.sp - 2) &&
      t.mem(s.regs.sp - 2) == Lo(data) && t.mem(s.regs.sp - 1) == Hi(data)
  {
    var u := Push8Spec(s, Hi(data));
    var t := Push8Spec(u, Lo(data));
    assert u.regs.sp == s.regs.sp - 1;
    assert t.regs.sp == s.regs.sp - 2;
    assert u.mem(s.regs.sp - 1) == Hi(data);
    assert t.mem(s.regs.sp - 1) == u.mem(s.regs.sp - 1);
  }

  /** After Push16, the word at the new SP is the pushed value. */
  lemma PushedWord(s: Machine, data: bv16)
    ensures Load16(Push16Spec(s, data).mem, s.regs.sp - 2) == data
  {
    Push16Layout(s, data);
    Load16Bytes(Push16Spec(s, data).mem, s.regs.sp - 2, data);
  }

  /** StackPush16 writes no other byte and changes nothing but SP and memory. */
  lemma Push16Frame(s: Machine, data: bv16, b: bv16)
    requires b != s.regs.sp - 2 && b != s.regs.sp - 1
    ensures Push16Spec(s, data).mem(b) == s.mem(b)
  {
    var u := Push8Spec(s, Hi(data));
    var t := Push8Spec(u, Lo(data));
    assert u.mem(b) == s.mem(b);
    assert t.mem(b) == u.mem(b);
  }

  /** StackPop16 reads the little-endian word at SP and raises SP by two, touching nothing else. */
  lemma Pop16Reads(s: Machine)
    ensures Pop16Spec(s).value == Load16(s.mem, s.regs.sp)
    ensures Pop16Spec(s).state == s.(regs := s.regs.(sp := s.regs.sp + 2))
  {
    var lo := Pop8Spec(s);
    var hi := Pop8Spec(lo.state);
    assert hi.state.regs == s.regs.(sp := s.regs.sp + 2);
  }

  /** StackPop16 after StackPush16 gives back the pushed value and the old SP. */
  lemma PushPopRoundTrip(s: Machine, data: bv16)
    ensures Pop16Spec(Push16Spec(s, data)).value == data
    ensures Pop16Spec(Push16Spec(s, data)).state.regs == s.regs
  {
    var t := Push16Spec(s, data);
    Push16Layout(s, data);
    Pop16Reads(t);
    SplitJoin(data);
  }

  method StackPush8(cpu: CPU, data: bv8)
    modifies cpu, cpu.registers
    ensures cpu.State() == Push8Spec(old(cpu.State()), data)
  {
    cpu.registers.sp := cpu.registers.sp - 1;
    cpu.Write8(cpu.registers.sp, data);
  }

  method StackPush16(cpu: CPU, data: bv16)
    modifies cpu, cpu.registers
    ensures cpu.State() == Push16Spec(old(cpu.State()), data)
  {
    StackPush8(cpu, Hi(data));
    StackPush8(cpu, Lo(data));
  }

  method StackPop8(cpu: CPU) returns (r: bv8)
    modifies cpu.registers
    ensures Fetched(r, cpu.State()) == Pop8Spec(old(cpu.State()))
  {
    r := cpu.Read8(cpu.registers.sp);
    cpu.registers.sp := cpu.registers.sp + 1;
  }

  method StackPop16(cpu: CPU) returns (r: bv16)
    modifies cpu.registers
    ensures Fetched(r, cpu.State()) == Pop16Spec(old(cpu.State()))
  {
    var lo := StackPop8(cpu);
    var hi := StackPop8(cpu);
    r := To16(hi, lo);
  }
}
