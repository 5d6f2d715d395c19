/**
 * The operand vocabulary of pkg/instructions/operands.go: register names,
 * immediate-data kinds and jump conditions. pkg/instructions/operand.go
 * and pkg/cpu/symbol.go declare the same register and condition names;
 * both packages use these datatypes.
 */
module Operands {

  datatype Register = A | B | C | D | E | F | H | L | AF | BC | DE | HL | PC | SP

  /** Immediate data that follows an opcode. */
  datatype Data =
    | D8   // immediate 8-bit data
    | D16  // immediate little-endian 16-bit data
    | A8   // 8-bit unsigned data, added to $FF00
    | A16  // little-endian 16-bit address
    | R8   // 8-bit signed data

  /** Jump conditions. `Ca` is the carry condition, written "C" in the source. */
  datatype Condition = NZ | Z | NC | Ca

  /** The 8-bit registers. */
  predicate IsSingle(r: Register)
  {
    r in {A, B, C, D, E, F, H, L}
  }

  /** The registers that hold 16 bits: the pairs, PC and SP. */
  predicate IsWide(r: Register)
  {
    r in {AF, BC, DE, HL, PC, SP}
  }

  lemma SingleOrWide(r: Register)
    ensures IsSingle(r) != IsWide(r)
  {
  }
}
