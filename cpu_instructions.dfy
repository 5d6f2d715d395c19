/**
 * The opcode table of pkg/cpu/instructions.go: an array of instruction
 * entries indexed by opcode, of which only 0x00 (NOP) is filled in, and
 * InstructionForOPCode, which looks an opcode up behind a bounds guard.
 *
 * An entry's handler is a Go closure; the only one there is returns 4
 * ticks and touches nothing, so an entry here carries its mnemonic and a
 * handler kind whose effect `Run` states.
 */
module CpuInstructions {
  import opened Errors
  import opened Cpu
  import Op = InstructionsOpcodes

  /** The handlers the table holds. */
  datatype Handler = NopHandler

  datatype Instruction = Instruction(mnemonic: Op.Mnemonic, handle: Handler)

  /** What a handler does to the machine, and the ticks it returns. */
  function Run(h: Handler, s: Machine): (r: Fetched<bv8>)
    ensures h == NopHandler ==> r.state == s && r.value == 4
  {
    match h
    case NopHandler => Fetched(4, s)
  }

  /** The table: one entry, NOP at index 0x00. */
  const Unprefixed: seq<Instruction> := [Instruction(Op.NOP, NopHandler)]

  /**
   * InstructionForOPCode as written: the guard rejects an opcode greater
   * than the table's length, so an opcode equal to the length gets past it
   * and the index into the table panics.
   */
  function InstructionForOpcodeAsWritten(opcode: bv8): (r: Result<Option<Instruction>>)
    ensures r.Failure? <==> opcode as int == |Unprefixed|
    ensures r.Failure? ==> r.error == IndexOutOfRange
    ensures r.Success? && r.value.Some? ==> opcode as int < |Unprefixed| && r.value.value == Unprefixed[opcode]
  {
    if opcode as int > |Unprefixed| then Success(None)
    else if opcode as int < |Unprefixed| then Success(Some(Unprefixed[opcode]))
    else Failure(IndexOutOfRange)
  }

  /** InstructionForOPCode with the guard at the table's length: nil for every opcode past the table. */
  function InstructionForOpcode(opcode: bv8): (r: Option<Instruction>)
    ensures r.None? <==> opcode as int >= |Unprefixed|
    ensures r.Some? ==> r.value == Unprefixed[opcode]
  {
    if opcode as int >= |Unprefixed| then None else Some(Unprefixed[opcode])
  }

  /** Only opcode 0x00 has an entry, and it is the NOP that returns 4 ticks and leaves the machine as it was. */
  lemma LookupFindsOnlyNop(opcode: bv8, s: Machine)
    ensures InstructionForOpcode(opcode).Some? <==> opcode == 0
    ensures InstructionForOpcode(opcode).Some? ==> InstructionForOpcode(opcode).value.mnemonic == Op.NOP
    ensures InstructionForOpcode(opcode).Some? ==> Run(InstructionForOpcode(opcode).value.handle, s) == Fetched(4, s)
  {
  }

  /** The lookup returns exactly the table's entry wherever the table has one. */
  lemma LookupAgreesWithTable(opcode: bv8)
    ensures opcode as int < |Unprefixed| ==> InstructionForOpcode(opcode) == Some(Unprefixed[opcode])
    ensures opcode as int >= |Unprefixed| ==> InstructionForOpcode(opcode) == None
  {
  }

  /**
   * The guard as written agrees with the corrected lookup on every opcode
   * but 0x01, the table's length, where it panics instead of returning nil.
   */
  lemma AsWrittenOffByOne(opcode: bv8)
    ensures opcode != 1 ==> InstructionForOpcodeAsWritten(opcode) == Success(InstructionForOpcode(opcode))
    ensures InstructionForOpcodeAsWritten(1) == Failure(IndexOutOfRange)
    ensures InstructionForOpcode(1) == None
  {
  }
}
