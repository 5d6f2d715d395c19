/**
 * The instruction tables of pkg/instructions/opcodes.go: `unprefixed` maps
 * every plain opcode byte, and `cbprefixed` every byte after the 0xCB
 * prefix, to a mnemonic and its operand descriptors. The Go tables are map
 * literals; here each is a function with one case per key, so a missing key
 * would be a `None` exactly as a missing map key gives `nil`.
 *
 * The table writes `Deref(x)`, `Inc(x)` and `Dec(x)` around an operand;
 * they are read as the Deref, Inc and Dec flags of the operand descriptor.
 */
module InstructionsOpcodes {
  import opened Errors
  import opened Operands
  import opened InstructionsOperand

  datatype Mnemonic =
    | NOP | LD | INC | DEC | RLCA | ADD | RRCA | STOP | RLA | JR | RRA | DAA | CPL | SCF
    | CCF | HALT | ADC | SUB | SBC | AND | XOR | OR | CP | RET | POP | JP | CALL | PUSH
    | RST | PREFIX | ILLEGAL_D3 | RETI | ILLEGAL_DB | ILLEGAL_DD | LDH | ILLEGAL_E3
    | ILLEGAL_E4 | ILLEGAL_EB | ILLEGAL_EC | ILLEGAL_ED | DI | ILLEGAL_F4 | EI
    | ILLEGAL_FC | ILLEGAL_FD | RLC | RRC | RL | RR | SLA | SRA | SWAP | SRL | BIT | RES
    | SET

  datatype Instruction = Instruction(mnemonic: Mnemonic, operands: seq<Operand>)

  /**
   * Looks a byte up in the CB-prefixed table when cbprefix holds, in the
   * plain one otherwise. The plain table is the one with the carry
   * condition of 0x38, 0xD8 and 0xDC written as a condition
   * (UnprefixedCorrected); Unprefixed is the table as written.
   */
  function FromOPCode(code: bv8, cbprefix: bool): (r: Option<Instruction>)
    ensures r.Some?
    ensures cbprefix ==> r.value == Cbprefixed(code)
    ensures !cbprefix && code !in {0x38, 0xD8, 0xDC} ==> r.value == Unprefixed(code)
    ensures !cbprefix ==> r.value.mnemonic == Unprefixed(code).mnemonic
  {
    if cbprefix then Some(Cbprefixed(code)) else Some(UnprefixedCorrected(code))
  }

  /** The `unprefixed` table, row by high nibble and column by low nibble. */
  function Unprefixed(code: bv8): Instruction
  {
    match code >> 4
    case 0x0 =>
      (match code & 0xF
      case 0x0 => Instruction(NOP, [])
      case 0x1 => Instruction(LD, [Reg(BC), Dat(D16)])
      case 0x2 => Instruction(LD, [Deref(Reg(BC)), Reg(A)])
      case 0x3 => Instruction(INC, [Reg(BC)])
      case 0x4 => Instruction(INC, [Reg(B)])
      case 0x5 => Instruction(DEC, [Reg(B)])
      case 0x6 => Instruction(LD, [Reg(B), Dat(D8)])
      case 0x7 => Instruction(RLCA, [])
      case 0x8 => Instruction(LD, [Deref(Dat(A16)), Reg(SP)])
      case 0x9 => Instruction(ADD, [Reg(HL), Reg(BC)])
      case 0xA => Instruction(LD, [Reg(A), Deref(Reg(BC))])
      case 0xB => Instruction(DEC, [Reg(BC)])
      case 0xC => Instruction(INC, [Reg(C)])
      case 0xD => Instruction(DEC, [Reg(C)])
      case 0xE => Instruction(LD, [Reg(C), Dat(D8)])
      case _ => Instruction(RRCA, []))  // 0x0F
    case 0x1 =>
      (match code & 0xF
      case 0x0 => Instruction(STOP, [Dat(D8)])
      case 0x1 => Instruction(LD, [Reg(DE), Dat(D16)])
      case 0x2 => Instruction(LD, [Deref(Reg(DE)), Reg(A)])
      case 0x3 => Instruction(INC, [Reg(DE)])
      case 0x4 => Instruction(INC, [Reg(D)])
      case 0x5 => Instruction(DEC, [Reg(D)])
      case 0x6 => Instruction(LD, [Reg(D), Dat(D8)])
      case 0x7 => Instruction(RLA, [])
      case 0x8 => Instruction(JR, [Dat(R8)])
      case 0x9 => Instruction(ADD, [Reg(HL), Reg(DE)])
      case 0xA => Instruction(LD, [Reg(A), Deref(Reg(DE))])
      case 0xB => Instruction(DEC, [Reg(DE)])
      case 0xC => Instruction(INC, [Reg(E)])
      case 0xD => Instruction(DEC, [Reg(E)])
      case 0xE => Instruction(LD, [Reg(E), Dat(D8)])
      case _ => Instruction(RRA, []))  // 0x1F
    case 0x2 =>
      (match code & 0xF
      case 0x0 => Instruction(JR, [Cond(NZ), Dat(R8)])
      case 0x1 => Instruction(LD, [Reg(HL), Dat(D16)])
      case 0x2 => Instruction(LD, [Deref(Inc(Reg(HL))), Reg(A)])
      case 0x3 => Instruction(INC, [Reg(HL)])
      case 0x4 => Instruction(INC, [Reg(H)])
      case 0x5 => Instruction(DEC, [Reg(H)])
      case 0x6 => Instruction(LD, [Reg(H), Dat(D8)])
      case 0x7 => Instruction(DAA, [])
      case 0x8 => Instruction(JR, [Cond(Z), Dat(R8)])
      case 0x9 => Instruction(ADD, [Reg(HL), Reg(HL)])
      case 0xA => Instruction(LD, [Reg(A), Deref(Inc(Reg(HL)))])
      case 0xB => Instruction(DEC, [Reg(HL)])
      case 0xC => Instruction(INC, [Reg(L)])
      case 0xD => Instruction(DEC, [Reg(L)])
      case 0xE => Instruction(LD, [Reg(L), Dat(D8)])
      case _ => Instruction(CPL, []))  // 0x2F
    case 0x3 =>
      (match code & 0xF
      case 0x0 => Instruction(JR, [Cond(NC), Dat(R8)])
      case 0x1 => Instruction(LD, [Reg(SP), Dat(D16)])
      case 0x2 => Instruction(LD, [Deref(Dec(Reg(HL))), Reg(A)])
      case 0x3 => Instruction(INC, [Reg(SP)])
      case 0x4 => Instruction(INC, [Deref(Reg(HL))])
      case 0x5 => Instruction(DEC, [Deref(Reg(HL))])
      case 0x6 => Instruction(LD, [Deref(Reg(HL)), Dat(D8)])
      case 0x7 => Instruction(SCF, [])
      case 0x8 => Instruction(JR, [Reg(C), Dat(R8)])
      case 0x9 => Instruction(ADD, [Reg(HL), Reg(SP)])
      case 0xA => Instruction(LD, [Reg(A), Deref(Dec(Reg(HL)))])
      case 0xB => Instruction(DEC, [Reg(SP)])
      case 0xC => Instruction(INC, [Reg(A)])
      case 0xD => Instruction(DEC, [Reg(A)])
      case 0xE => Instruction(LD, [Reg(A), Dat(D8)])
      case _ => Instruction(CCF, []))  // 0x3F
    case 0x4 =>
      (match code & 0xF
      case 0x0 => Instruction(LD, [Reg(B), Reg(B)])
      case 0x1 => Instruction(LD, [Reg(B), Reg(C)])
      case 0x2 => Instruction(LD, [Reg(B), Reg(D)])
      case 0x3 => Instruction(LD, [Reg(B), Reg(E)])
      case 0x4 => Instruction(LD, [Reg(B), Reg(H)])
      case 0x5 => Instruction(LD, [Reg(B), Reg(L)])
      case 0x6 => Instruction(LD, [Reg(B), Deref(Reg(HL))])
      case 0x7 => Instruction(LD, [Reg(B), Reg(A)])
      case 0x8 => Instruction(LD, [Reg(C), Reg(B)])
      case 0x9 => Instruction(LD, [Reg(C), Reg(C)])
      case 0xA => Instruction(LD, [Reg(C), Reg(D)])
      case 0xB => Instruction(LD, [Reg(C), Reg(E)])
      case 0xC => Instruction(LD, [Reg(C), Reg(H)])
      case 0xD => Instruction(LD, [Reg(C), Reg(L)])
      case 0xE => Instruction(LD, [Reg(C), Deref(Reg(HL))])
      case _ => Instruction(LD, [Reg(C), Reg(A)]))  // 0x4F
    case 0x5 =>
      (match code & 0xF
      case 0x0 => Instruction(LD, [Reg(D), Reg(B)])
      case 0x1 => Instruction(LD, [Reg(D), Reg(C)])
      case 0x2 => Instruction(LD, [Reg(D), Reg(D)])
      case 0x3 => Instruction(LD, [Reg(D), Reg(E)])
      case 0x4 => Instruction(LD, [Reg(D), Reg(H)])
      case 0x5 => Instruction(LD, [Reg(D), Reg(L)])
      case 0x6 => Instruction(LD, [Reg(D), Deref(Reg(HL))])
      case 0x7 => Instruction(LD, [Reg(D), Reg(A)])
      case 0x8 => Instruction(LD, [Reg(E), Reg(B)])
      case 0x9 => Instruction(LD, [Reg(E), Reg(C)])
      case 0xA => Instruction(LD, [Reg(E), Reg(D)])
      case 0xB => Instruction(LD, [Reg(E), Reg(E)])
      case 0xC => Instruction(LD, [Reg(E), Reg(H)])
      case 0xD => Instruction(LD, [Reg(E), Reg(L)])
      case 0xE => Instruction(LD, [Reg(E), Deref(Reg(HL))])
      case _ => Instruction(LD, [Reg(E), Reg(A)]))  // 0x5F
    case 0x6 =>
      (match code & 0xF
      case 0x0 => Instruction(LD, [Reg(H), Reg(B)])
      case 0x1 => Instruction(LD, [Reg(H), Reg(C)])
      case 0x2 => Instruction(LD, [Reg(H), Reg(D)])
      case 0x3 => Instruction(LD, [Reg(H), Reg(E)])
      case 0x4 => Instruction(LD, [Reg(H), Reg(H)])
      case 0x5 => Instruction(LD, [Reg(H), Reg(L)])
      case 0x6 => Instruction(LD, [Reg(H), Deref(Reg(HL))])
      case 0x7 => Instruction(LD, [Reg(H), Reg(A)])
      case 0x8 => Instruction(LD, [Reg(L), Reg(B)])
      case 0x9 => Instruction(LD, [Reg(L), Reg(C)])
      case 0xA => Instruction(LD, [Reg(L), Reg(D)])
      case 0xB => Instruction(LD, [Reg(L), Reg(E)])
      case 0xC => Instruction(LD, [Reg(L), Reg(H)])
      case 0xD => Instruction(LD, [Reg(L), Reg(L)])
      case 0xE => Instruction(LD, [Reg(L), Deref(Reg(HL))])
      case _ => Instruction(LD, [Reg(L), Reg(A)]))  // 0x6F
    case 0x7 =>
      (match code & 0xF
      case 0x0 => Instruction(LD, [Deref(Reg(HL)), Reg(B)])
      case 0x1 => Instruction(LD, [Deref(Reg(HL)), Reg(C)])
      case 0x2 => Instruction(LD, [Deref(Reg(HL)), Reg(D)])
      case 0x3 => Instruction(LD, [Deref(Reg(HL)), Reg(E)])
      case 0x4 => Instruction(LD, [Deref(Reg(HL)), Reg(H)])
      case 0x5 => Instruction(LD, [Deref(Reg(HL)), Reg(L)])
      case 0x6 => Instruction(HALT, [])
      case 0x7 => Instruction(LD, [Deref(Reg(HL)), Reg(A)])
      case 0x8 => Instruction(LD, [Reg(A), Reg(B)])
      case 0x9 => Instruction(LD, [Reg(A), Reg(C)])
      case 0xA => Instruction(LD, [Reg(A), Reg(D)])
      case 0xB => Instruction(LD, [Reg(A), Reg(E)])
      case 0xC => Instruction(LD, [Reg(A), Reg(H)])
      case 0xD => Instruction(LD, [Reg(A), Reg(L)])
      case 0xE => Instruction(LD, [Reg(A), Deref(Reg(HL))])
      case _ => Instruction(LD, [Reg(A), Reg(A)]))  // 0x7F
    case 0x8 =>
      (match code & 0xF
      case 0x0 => Instruction(ADD, [Reg(A), Reg(B)])
      case 0x1 => Instruction(ADD, [Reg(A), Reg(C)])
      case 0x2 => Instruction(ADD, [Reg(A), Reg(D)])
      case 0x3 => Instruction(ADD, [Reg(A), Reg(E)])
      case 0x4 => Instruction(ADD, [Reg(A), Reg(H)])
      case 0x5 => Instruction(ADD, [Reg(A), Reg(L)])
      case 0x6 => Instruction(ADD, [Reg(A), Deref(Reg(HL))])
      case 0x7 => Instruction(ADD, [Reg(A), Reg(A)])
      case 0x8 => Instruction(ADC, [Reg(A), Reg(B)])
      case 0x9 => Instruction(ADC, [Reg(A), Reg(C)])
      case 0xA => Instruction(ADC, [Reg(A), Reg(D)])
      case 0xB => Instruction(ADC, [Reg(A), Reg(E)])
      case 0xC => Instruction(ADC, [Reg(A), Reg(H)])
      case 0xD => Instruction(ADC, [Reg(A), Reg(L)])
      case 0xE => Instruction(ADC, [Reg(A), Deref(Reg(HL))])
      case _ => Instruction(ADC, [Reg(A), Reg(A)]))  // 0x8F
    case 0x9 =>
      (match code & 0xF
      case 0x0 => Instruction(SUB, [Reg(B)])
      case 0x1 => Instruction(SUB, [Reg(C)])
      case 0x2 => Instruction(SUB, [Reg(D)])
      case 0x3 => Instruction(SUB, [Reg(E)])
      case 0x4 => Instruction(SUB, [Reg(H)])
      case 0x5 => Instruction(SUB, [Reg(L)])
      case 0x6 => Instruction(SUB, [Deref(Reg(HL))])
      case 0x7 => Instruction(SUB, [Reg(A)])
      case 0x8 => Instruction(SBC, [Reg(A), Reg(B)])
      case 0x9 => Instruction(SBC, [Reg(A), Reg(C)])
      case 0xA => Instruction(SBC, [Reg(A), Reg(D)])
      case 0xB => Instruction(SBC, [Reg(A), Reg(E)])
      case 0xC => Instruction(SBC, [Reg(A), Reg(H)])
      case 0xD => Instruction(SBC, [Reg(A), Reg(L)])
      case 0xE => Instruction(SBC, [Reg(A), Deref(Reg(HL))])
      case _ => Instruction(SBC, [Reg(A), Reg(A)]))  // 0x9F
    case 0xA =>
      (match code & 0xF
      case 0x0 => Instruction(AND, [Reg(B)])
      case 0x1 => Instruction(AND, [Reg(C)])
      case 0x2 => Instruction(AND, [Reg(D)])
      case 0x3 => Instruction(AND, [Reg(E)])
      case 0x4 => Instruction(AND, [Reg(H)])
      case 0x5 => Instruction(AND, [Reg(L)])
      case 0x6 => Instruction(AND, [Deref(Reg(HL))])
      case 0x7 => Instruction(AND, [Reg(A)])
      case 0x8 => Instruction(XOR, [Reg(B)])
      case 0x9 => Instruction(XOR, [Reg(C)])
      case 0xA => Instruction(XOR, [Reg(D)])
      case 0xB => Instruction(XOR, [Reg(E)])
      case 0xC => Instruction(XOR, [Reg(H)])
      case 0xD => Instruction(XOR, [Reg(L)])
      case 0xE => Instruction(XOR, [Deref(Reg(HL))])
      case _ => Instruction(XOR, [Reg(A)]))  // 0xAF
    case 0xB =>
      (match code & 0xF
      case 0x0 => Instruction(OR, [Reg(B)])
      case 0x1 => Instruction(OR, [Reg(C)])
      case 0x2 => Instruction(OR, [Reg(D)])
      case 0x3 => Instruction(OR, [Reg(E)])
      case 0x4 => Instruction(OR, [Reg(H)])
      case 0x5 => Instruction(OR, [Reg(L)])
      case 0x6 => Instruction(OR, [Deref(Reg(HL))])
      case 0x7 => Instruction(OR, [Reg(A)])
      case 0x8 => Instruction(CP, [Reg(B)])
      case 0x9 => Instruction(CP, [Reg(C)])
      case 0xA => Instruction(CP, [Reg(D)])
      case 0xB => Instruction(CP, [Reg(E)])
      case 0xC => Instruction(CP, [Reg(H)])
      case 0xD => Instruction(CP, [Reg(L)])
      case 0xE => Instruction(CP, [Deref(Reg(HL))])
      case _ => Instruction(CP, [Reg(A)]))  // 0xBF
    case 0xC =>
      (match code & 0xF
      case 0x0 => Instruction(RET, [Cond(NZ)])
      case 0x1 => Instruction(POP, [Reg(BC)])
      case 0x2 => Instruction(JP, [Cond(NZ), Dat(A16)])
      case 0x3 => Instruction(JP, [Dat(A16)])
      case 0x4 => Instruction(CALL, [Cond(NZ), Dat(A16)])
      case 0x5 => Instruction(PUSH, [Reg(BC)])
      case 0x6 => Instruction(ADD, [Reg(A), Dat(D8)])
      case 0x7 => Instruction(RST, [Hex(0x00)])
      case 0x8 => Instruction(RET, [Cond(Z)])
      case 0x9 => Instruction(RET, [])
      case 0xA => Instruction(JP, [Cond(Z), Dat(A16)])
      case 0xB => Instruction(PREFIX, [])
      case 0xC => Instruction(CALL, [Cond(Z), Dat(A16)])
      case 0xD => Instruction(CALL, [Dat(A16)])
      case 0xE => Instruction(ADC, [Reg(A), Dat(D8)])
      case _ => Instruction(RST, [Hex(0x08)]))  // 0xCF
    case 0xD =>
      (match code & 0xF
      case 0x0 => Instruction(RET, [Cond(NC)])
      case 0x1 => Instruction(POP, [Reg(DE)])
      case 0x2 => Instruction(JP, [Cond(NC), Dat(A16)])
      case 0x3 => Instruction(ILLEGAL_D3, [])
      case 0x4 => Instruction(CALL, [Cond(NC), Dat(A16)])
      case 0x5 => Instruction(PUSH, [Reg(DE)])
      case 0x6 => Instruction(SUB, [Dat(D8)])
      case 0x7 => Instruction(RST, [Hex(0x10)])
      case 0x8 => Instruction(RET, [Reg(C)])
      case 0x9 => Instruction(RETI, [])
      case 0xA => Instruction(JP, [Cond(Ca), Dat(A16)])
      case 0xB => Instruction(ILLEGAL_DB, [])
      case 0xC => Instruction(CALL, [Reg(C), Dat(A16)])
      case 0xD => Instruction(ILLEGAL_DD, [])
      case 0xE => Instruction(SBC, [Reg(A), Dat(D8)])
      case _ => Instruction(RST, [Hex(0x18)]))  // 0xDF
    case 0xE =>
      (match code & 0xF
      case 0x0 => Instruction(LDH, [Deref(Dat(A8)), Reg(A)])
      case 0x1 => Instruction(POP, [Reg(HL)])
      case 0x2 => Instruction(LD, [Deref(Reg(C)), Reg(A)])
      case 0x3 => Instruction(ILLEGAL_E3, [])
      case 0x4 => Instruction(ILLEGAL_E4, [])
      case 0x5 => Instruction(PUSH, [Reg(HL)])
      case 0x6 => Instruction(AND, [Dat(D8)])
      case 0x7 => Instruction(RST, [Hex(0x20)])
      case 0x8 => Instruction(ADD, [Reg(SP), Dat(R8)])
      case 0x9 => Instruction(JP, [Reg(HL)])
      case 0xA => Instruction(LD, [Deref(Dat(A16)), Reg(A)])
      case 0xB => Instruction(ILLEGAL_EB, [])
      case 0xC => Instruction(ILLEGAL_EC, [])
      case 0xD => Instruction(ILLEGAL_ED, [])
      case 0xE => Instruction(XOR, [Dat(D8)])
      case _ => Instruction(RST, [Hex(0x28)]))  // 0xEF
    case _ => // 0xF_
      (match code & 0xF
      case 0x0 => Instruction(LDH, [Reg(A), Deref(Dat(A8))])
      case 0x1 => Instruction(POP, [Reg(AF)])
      case 0x2 => Instruction(LD, [Reg(A), Deref(Reg(C))])
      case 0x3 => Instruction(DI, [])
      case 0x4 => Instruction(ILLEGAL_F4, [])
      case 0x5 => Instruction(PUSH, [Reg(AF)])
      case 0x6 => Instruction(OR, [Dat(D8)])
      case 0x7 => Instruction(RST, [Hex(0x30)])
      case 0x8 => Instruction(LD, [Reg(HL), Inc(Reg(SP)), Dat(R8)])
      case 0x9 => Instruction(LD, [Reg(SP), Reg(HL)])
      case 0xA => Instruction(LD, [Reg(A), Deref(Dat(A16))])
      case 0xB => Instruction(EI, [])
      case 0xC => Instruction(ILLEGAL_FC, [])
      case 0xD => Instruction(ILLEGAL_FD, [])
      case 0xE => Instruction(CP, [Dat(D8)])
      case _ => Instruction(RST, [Hex(0x38)]))  // 0xFF
  }

  /** The `cbprefixed` table: the byte that follows 0xCB, laid out the same way. */
  function Cbprefixed(code: bv8): (r: Instruction)
    ensures r.mnemonic in {RLC, RRC, RL, RR, SLA, SRA, SWAP, SRL, BIT, RES, SET}
  {
    match code >> 4
    case 0x0 =>
      (match code & 0xF
      case 0x0 => Instruction(RLC, [Reg(B)])
      case 0x1 => Instruction(RLC, [Reg(C)])
      case 0x2 => Instruction(RLC, [Reg(D)])
      case 0x3 => Instruction(RLC, [Reg(E)])
      case 0x4 => Instruction(RLC, [Reg(H)])
      case 0x5 => Instruction(RLC, [Reg(L)])
      case 0x6 => Instruction(RLC, [Deref(Reg(HL))])
      case 0x7 => Instruction(RLC, [Reg(A)])
      case 0x8 => Instruction(RRC, [Reg(B)])
      case 0x9 => Instruction(RRC, [Reg(C)])
      case 0xA => Instruction(RRC, [Reg(D)])
      case 0xB => Instruction(RRC, [Reg(E)])
      case 0xC => Instruction(RRC, [Reg(H)])
      case 0xD => Instruction(RRC, [Reg(L)])
      case 0xE => Instruction(RRC, [Deref(Reg(HL))])
      case _ => Instruction(RRC, [Reg(A)]))  // 0x0F
    case 0x1 =>
      (match code & 0xF
      case 0x0 => Instruction(RL, [Reg(B)])
      case 0x1 => Instruction(RL, [Reg(C)])
      case 0x2 => Instruction(RL, [Reg(D)])
      case 0x3 => Instruction(RL, [Reg(E)])
      case 0x4 => Instruction(RL, [Reg(H)])
      case 0x5 => Instruction(RL, [Reg(L)])
      case 0x6 => Instruction(RL, [Deref(Reg(HL))])
      case 0x7 => Instruction(RL, [Reg(A)])
      case 0x8 => Instruction(RR, [Reg(B)])
      case 0x9 => Instruction(RR, [Reg(C)])
      case 0xA => Instruction(RR, [Reg(D)])
      case 0xB => Instruction(RR, [Reg(E)])
      case 0xC => Instruction(RR, [Reg(H)])
      case 0xD => Instruction(RR, [Reg(L)])
      case 0xE => Instruction(RR, [Deref(Reg(HL))])
      case _ => Instruction(RR, [Reg(A)]))  // 0x1F
    case 0x2 =>
      (match code & 0xF
      case 0x0 => Instruction(SLA, [Reg(B)])
      case 0x1 => Instruction(SLA, [Reg(C)])
      case 0x2 => Instruction(SLA, [Reg(D)])
      case 0x3 => Instruction(SLA, [Reg(E)])
      case 0x4 => Instruction(SLA, [Reg(H)])
      case 0x5 => Instruction(SLA, [Reg(L)])
      case 0x6 => Instruction(SLA, [Deref(Reg(HL))])
      case 0x7 => Instruction(SLA, [Reg(A)])
      case 0x8 => Instruction(SRA, [Reg(B)])
      case 0x9 => Instruction(SRA, [Reg(C)])
      case 0xA => Instruction(SRA, [Reg(D)])
      case 0xB => Instruction(SRA, [Reg(E)])
      case 0xC => Instruction(SRA, [Reg(H)])
      case 0xD => Instruction(SRA, [Reg(L)])
      case 0xE => Instruction(SRA, [Deref(Reg(HL))])
      case _ => Instruction(SRA, [Reg(A)]))  // 0x2F
    case 0x3 =>
      (match code & 0xF
      case 0x0 => Instruction(SWAP, [Reg(B)])
      case 0x1 => Instruction(SWAP, [Reg(C)])
      case 0x2 => Instruction(SWAP, [Reg(D)])
      case 0x3 => Instruction(SWAP, [Reg(E)])
      case 0x4 => Instruction(SWAP, [Reg(H)])
      case 0x5 => Instruction(SWAP, [Reg(L)])
      case 0x6 => Instruction(SWAP, [Deref(Reg(HL))])
      case 0x7 => Instruction(SWAP, [Reg(A)])
      case 0x8 => Instruction(SRL, [Reg(B)])
      case 0x9 => Instruction(SRL, [Reg(C)])
      case 0xA => Instruction(SRL, [Reg(D)])
      case 0xB => Instruction(SRL, [Reg(E)])
      case 0xC => Instruction(SRL, [Reg(H)])
      case 0xD => Instruction(SRL, [Reg(L)])
      case 0xE => Instruction(SRL, [Deref(Reg(HL))])
      case _ => Instruction(SRL, [Reg(A)]))  // 0x3F
    case 0x4 =>
      (match code & 0xF
      case 0x0 => Instruction(BIT, [Bit(0), Reg(B)])
      case 0x1 => Instruction(BIT, [Bit(0), Reg(C)])
      case 0x2 => Instruction(BIT, [Bit(0), Reg(D)])
      case 0x3 => Instruction(BIT, [Bit(0), Reg(E)])
      case 0x4 => Instruction(BIT, [Bit(0), Reg(H)])
      case 0x5 => Instruction(BIT, [Bit(0), Reg(L)])
      case 0x6 => Instruction(BIT, [Bit(0), Deref(Reg(HL))])
      case 0x7 => Instruction(BIT, [Bit(0), Reg(A)])
      case 0x8 => Instruction(BIT, [Bit(1), Reg(B)])
      case 0x9 => Instruction(BIT, [Bit(1), Reg(C)])
      case 0xA => Instruction(BIT, [Bit(1), Reg(D)])
      case 0xB => Instruction(BIT, [Bit(1), Reg(E)])
      case 0xC => Instruction(BIT, [Bit(1), Reg(H)])
      case 0xD => Instruction(BIT, [Bit(1), Reg(L)])
      case 0xE => Instruction(BIT, [Bit(1), Deref(Reg(HL))])
      case _ => Instruction(BIT, [Bit(1), Reg(A)]))  // 0x4F
    case 0x5 =>
      (match code & 0xF
      case 0x0 => Instruction(BIT, [Bit(2), Reg(B)])
      case 0x1 => Instruction(BIT, [Bit(2), Reg(C)])
      case 0x2 => Instruction(BIT, [Bit(2), Reg(D)])
      case 0x3 => Instruction(BIT, [Bit(2), Reg(E)])
      case 0x4 => Instruction(BIT, [Bit(2), Reg(H)])
      case 0x5 => Instruction(BIT, [Bit(2), Reg(L)])
      case 0x6 => Instruction(BIT, [Bit(2), Deref(Reg(HL))])
      case 0x7 => Instruction(BIT, [Bit(2), Reg(A)])
      case 0x8 => Instruction(BIT, [Bit(3), Reg(B)])
      case 0x9 => Instruction(BIT, [Bit(3), Reg(C)])
      case 0xA => Instruction(BIT, [Bit(3), Reg(D)])
      case 0xB => Instruction(BIT, [Bit(3), Reg(E)])
      case 0xC => Instruction(BIT, [Bit(3), Reg(H)])
      case 0xD => Instruction(BIT, [Bit(3), Reg(L)])
      case 0xE => Instruction(BIT, [Bit(3), Deref(Reg(HL))])
      case _ => Instruction(BIT, [Bit(3), Reg(A)]))  // 0x5F
    case 0x6 =>
      (match code & 0xF
      case 0x0 => Instruction(BIT, [Bit(4), Reg(B)])
      case 0x1 => Instruction(BIT, [Bit(4), Reg(C)])
      case 0x2 => Instruction(BIT, [Bit(4), Reg(D)])
      case 0x3 => Instruction(BIT, [Bit(4), Reg(E)])
      case 0x4 => Instruction(BIT, [Bit(4), Reg(H)])
      case 0x5 => Instruction(BIT, [Bit(4), Reg(L)])
      case 0x6 => Instruction(BIT, [Bit(4), Deref(Reg(HL))])
      case 0x7 => Instruction(BIT, [Bit(4), Reg(A)])
      case 0x8 => Instruction(BIT, [Bit(5), Reg(B)])
      case 0x9 => Instruction(BIT, [Bit(5), Reg(C)])
      case 0xA => Instruction(BIT, [Bit(5), Reg(D)])
      case 0xB => Instruction(BIT, [Bit(5), Reg(E)])
      case 0xC => Instruction(BIT, [Bit(5), Reg(H)])
      case 0xD => Instruction(BIT, [Bit(5), Reg(L)])
      case 0xE => Instruction(BIT, [Bit(5), Deref(Reg(HL))])
      case _ => Instruction(BIT, [Bit(5), Reg(A)]))  // 0x6F
    case 0x7 =>
      (match code & 0xF
      case 0x0 => Instruction(BIT, [Bit(6), Reg(B)])
      case 0x1 => Instruction(BIT, [Bit(6), Reg(C)])
      case 0x2 => Instruction(BIT, [Bit(6), Reg(D)])
      case 0x3 => Instruction(BIT, [Bit(6), Reg(E)])
      case 0x4 => Instruction(BIT, [Bit(6), Reg(H)])
      case 0x5 => Instruction(BIT, [Bit(6), Reg(L)])
      case 0x6 => Instruction(BIT, [Bit(6), Deref(Reg(HL))])
      case 0x7 => Instruction(BIT, [Bit(6), Reg(A)])
      case 0x8 => Instruction(BIT, [Bit(7), Reg(B)])
      case 0x9 => Instruction(BIT, [Bit(7), Reg(C)])
      case 0xA => Instruction(BIT, [Bit(7), Reg(D)])
      case 0xB => Instruction(BIT, [Bit(7), Reg(E)])
      case 0xC => Instruction(BIT, [Bit(7), Reg(H)])
      case 0xD => Instruction(BIT, [Bit(7), Reg(L)])
      case 0xE => Instruction(BIT, [Bit(7), Deref(Reg(HL))])
      case _ => Instruction(BIT, [Bit(7), Reg(A)]))  // 0x7F
    case 0x8 =>
      (match code & 0xF
      case 0x0 => Instruction(RES, [Bit(0), Reg(B)])
      case 0x1 => Instruction(RES, [Bit(0), Reg(C)])
      case 0x2 => Instruction(RES, [Bit(0), Reg(D)])
      case 0x3 => Instruction(RES, [Bit(0), Reg(E)])
      case 0x4 => Instruction(RES, [Bit(0), Reg(H)])
      case 0x5 => Instruction(RES, [Bit(0), Reg(L)])
      case 0x6 => Instruction(RES, [Bit(0), Deref(Reg(HL))])
      case 0x7 => Instruction(RES, [Bit(0), Reg(A)])
      case 0x8 => Instruction(RES, [Bit(1), Reg(B)])
      case 0x9 => Instruction(RES, [Bit(1), Reg(C)])
      case 0xA => Instruction(RES, [Bit(1), Reg(D)])
      case 0xB => Instruction(RES, [Bit(1), Reg(E)])
      case 0xC => Instruction(RES, [Bit(1), Reg(H)])
      case 0xD => Instruction(RES, [Bit(1), Reg(L)])
      case 0xE => Instruction(RES, [Bit(1), Deref(Reg(HL))])
      case _ => Instruction(RES, [Bit(1), Reg(A)]))  // 0x8F
    case 0x9 =>
      (match code & 0xF
      case 0x0 => Instruction(RES, [Bit(2), Reg(B)])
      case 0x1 => Instruction(RES, [Bit(2), Reg(C)])
      case 0x2 => Instruction(RES, [Bit(2), Reg(D)])
      case 0x3 => Instruction(RES, [Bit(2), Reg(E)])
      case 0x4 => Instruction(RES, [Bit(2), Reg(H)])
      case 0x5 => Instruction(RES, [Bit(2), Reg(L)])
      case 0x6 => Instruction(RES, [Bit(2), Deref(Reg(HL))])
      case 0x7 => Instruction(RES, [Bit(2), Reg(A)])
      case 0x8 => Instruction(RES, [Bit(3), Reg(B)])
      case 0x9 => Instruction(RES, [Bit(3), Reg(C)])
      case 0xA => Instruction(RES, [Bit(3), Reg(D)])
      case 0xB => Instruction(RES, [Bit(3), Reg(E)])
      case 0xC => Instruction(RES, [Bit(3), Reg(H)])
      case 0xD => Instruction(RES, [Bit(3), Reg(L)])
      case 0xE => Instruction(RES, [Bit(3), Deref(Reg(HL))])
      case _ => Instruction(RES, [Bit(3), Reg(A)]))  // 0x9F
    case 0xA =>
      (match code & 0xF
      case 0x0 => Instruction(RES, [Bit(4), Reg(B)])
      case 0x1 => Instruction(RES, [Bit(4), Reg(C)])
      case 0x2 => Instruction(RES, [Bit(4), Reg(D)])
      case 0x3 => Instruction(RES, [Bit(4), Reg(E)])
      case 0x4 => Instruction(RES, [Bit(4), Reg(H)])
      case 0x5 => Instruction(RES, [Bit(4), Reg(L)])
      case 0x6 => Instruction(RES, [Bit(4), Deref(Reg(HL))])
      case 0x7 => Instruction(RES, [Bit(4), Reg(A)])
      case 0x8 => Instruction(RES, [Bit(5), Reg(B)])
      case 0x9 => Instruction(RES, [Bit(5), Reg(C)])
      case 0xA => Instruction(RES, [Bit(5), Reg(D)])
      case 0xB => Instruction(RES, [Bit(5), Reg(E)])
      case 0xC => Instruction(RES, [Bit(5), Reg(H)])
      case 0xD => Instruction(RES, [Bit(5), Reg(L)])
      case 0xE => Instruction(RES, [Bit(5), Deref(Reg(HL))])
      case _ => Instruction(RES, [Bit(5), Reg(A)]))  // 0xAF
    case 0xB =>
      (match code & 0xF
      case 0x0 => Instruction(RES, [Bit(6), Reg(B)])
      case 0x1 => Instruction(RES, [Bit(6), Reg(C)])
      case 0x2 => Instruction(RES, [Bit(6), Reg(D)])
      case 0x3 => Instruction(RES, [Bit(6), Reg(E)])
      case 0x4 => Instruction(RES, [Bit(6), Reg(H)])
      case 0x5 => Instruction(RES, [Bit(6), Reg(L)])
      case 0x6 => Instruction(RES, [Bit(6), Deref(Reg(HL))])
      case 0x7 => Instruction(RES, [Bit(6), Reg(A)])
      case 0x8 => Instruction(RES, [Bit(7), Reg(B)])
      case 0x9 => Instruction(RES, [Bit(7), Reg(C)])
      case 0xA => Instruction(RES, [Bit(7), Reg(D)])
      case 0xB => Instruction(RES, [Bit(7), Reg(E)])
      case 0xC => Instruction(RES, [Bit(7), Reg(H)])
      case 0xD => Instruction(RES, [Bit(7), Reg(L)])
      case 0xE => Instruction(RES, [Bit(7), Deref(Reg(HL))])
      case _ => Instruction(RES, [Bit(7), Reg(A)]))  // 0xBF
    case 0xC =>
      (match code & 0xF
      case 0x0 => Instruction(SET, [Bit(0), Reg(B)])
      case 0x1 => Instruction(SET, [Bit(0), Reg(C)])
      case 0x2 => Instruction(SET, [Bit(0), Reg(D)])
      case 0x3 => Instruction(SET, [Bit(0), Reg(E)])
      case 0x4 => Instruction(SET, [Bit(0), Reg(H)])
      case 0x5 => Instruction(SET, [Bit(0), Reg(L)])
      case 0x6 => Instruction(SET, [Bit(0), Deref(Reg(HL))])
      case 0x7 => Instruction(SET, [Bit(0), Reg(A)])
      case 0x8 => Instruction(SET, [Bit(1), Reg(B)])
      case 0x9 => Instruction(SET, [Bit(1), Reg(C)])
      case 0xA => Instruction(SET, [Bit(1), Reg(D)])
      case 0xB => Instruction(SET, [Bit(1), Reg(E)])
      case 0xC => Instruction(SET, [Bit(1), Reg(H)])
      case 0xD => Instruction(SET, [Bit(1), Reg(L)])
      case 0xE => Instruction(SET, [Bit(1), Deref(Reg(HL))])
      case _ => Instruction(SET, [Bit(1), Reg(A)]))  // 0xCF
    case 0xD =>
      (match code & 0xF
      case 0x0 => Instruction(SET, [Bit(2), Reg(B)])
      case 0x1 => Instruction(SET, [Bit(2), Reg(C)])
      case 0x2 => Instruction(SET, [Bit(2), Reg(D)])
      case 0x3 => Instruction(SET, [Bit(2), Reg(E)])
      case 0x4 => Instruction(SET, [Bit(2), Reg(H)])
      case 0x5 => Instruction(SET, [Bit(2), Reg(L)])
      case 0x6 => Instruction(SET, [Bit(2), Deref(Reg(HL))])
      case 0x7 => Instruction(SET, [Bit(2), Reg(A)])
      case 0x8 => Instruction(SET, [Bit(3), Reg(B)])
      case 0x9 => Instruction(SET, [Bit(3), Reg(C)])
      case 0xA => Instruction(SET, [Bit(3), Reg(D)])
      case 0xB => Instruction(SET, [Bit(3), Reg(E)])
      case 0xC => Instruction(SET, [Bit(3), Reg(H)])
      case 0xD => Instruction(SET, [Bit(3), Reg(L)])
      case 0xE => Instruction(SET, [Bit(3), Deref(Reg(HL))])
      case _ => Instruction(SET, [Bit(3), Reg(A)]))  // 0xDF
    case 0xE =>
      (match code & 0xF
      case 0x0 => Instruction(SET, [Bit(4), Reg(B)])
      case 0x1 => Instruction(SET, [Bit(4), Reg(C)])
      case 0x2 => Instruction(SET, [Bit(4), Reg(D)])
      case 0x3 => Instruction(SET, [Bit(4), Reg(E)])
      case 0x4 => Instruction(SET, [Bit(4), Reg(H)])
      case 0x5 => Instruction(SET, [Bit(4), Reg(L)])
      case 0x6 => Instruction(SET, [Bit(4), Deref(Reg(HL))])
      case 0x7 => Instruction(SET, [Bit(4), Reg(A)])
      case 0x8 => Instruction(SET, [Bit(5), Reg(B)])
      case 0x9 => Instruction(SET, [Bit(5), Reg(C)])
      case 0xA => Instruction(SET, [Bit(5), Reg(D)])
      case 0xB => Instruction(SET, [Bit(5), Reg(E)])
      case 0xC => Instruction(SET, [Bit(5), Reg(H)])
      case 0xD => Instruction(SET, [Bit(5), Reg(L)])
      case 0xE => Instruction(SET, [Bit(5), Deref(Reg(HL))])
      case _ => Instruction(SET, [Bit(5), Reg(A)]))  // 0xEF
    case _ => // 0xF_
      (match code & 0xF
      case 0x0 => Instruction(SET, [Bit(6), Reg(B)])
      case 0x1 => Instruction(SET, [Bit(6), Reg(C)])
      case 0x2 => Instruction(SET, [Bit(6), Reg(D)])
      case 0x3 => Instruction(SET, [Bit(6), Reg(E)])
      case 0x4 => Instruction(SET, [Bit(6), Reg(H)])
      case 0x5 => Instruction(SET, [Bit(6), Reg(L)])
      case 0x6 => Instruction(SET, [Bit(6), Deref(Reg(HL))])
      case 0x7 => Instruction(SET, [Bit(6), Reg(A)])
      case 0x8 => Instruction(SET, [Bit(7), Reg(B)])
      case 0x9 => Instruction(SET, [Bit(7), Reg(C)])
      case 0xA => Instruction(SET, [Bit(7), Reg(D)])
      case 0xB => Instruction(SET, [Bit(7), Reg(E)])
      case 0xC => Instruction(SET, [Bit(7), Reg(H)])
      case 0xD => Instruction(SET, [Bit(7), Reg(L)])
      case 0xE => Instruction(SET, [Bit(7), Deref(Reg(HL))])
      case _ => Instruction(SET, [Bit(7), Reg(A)]))  // 0xFF
  }

  /** The operand that register index i (0..7) selects: B, C, D, E, H, L, (HL), A. */
  function RegisterOperand(i: bv8): Operand
  {
    match i
    case 0 => Reg(B)
    case 1 => Reg(C)
    case 2 => Reg(D)
    case 3 => Reg(E)
    case 4 => Reg(H)
    case 5 => Reg(L)
    case 6 => Deref(Reg(HL))
    case _ => Reg(A)
  }

  /** The rotate or shift of CB block i (0..7). */
  function RotateMnemonic(i: bv8): Mnemonic
  {
    match i
    case 0 => RLC
    case 1 => RRC
    case 2 => RL
    case 3 => RR
    case 4 => SLA
    case 5 => SRA
    case 6 => SWAP
    case _ => SRL
  }

  /** The bit operation of CB quarter i (1..3). */
  function BitMnemonic(i: bv8): Mnemonic
  {
    match i
    case 1 => BIT
    case 2 => RES
    case _ => SET
  }

  /** The opcode an ILLEGAL_xx mnemonic names. */
  function IllegalOpcode(m: Mnemonic): Option<bv8>
  {
    match m
    case ILLEGAL_D3 => Some(0xD3)
    case ILLEGAL_DB => Some(0xDB)
    case ILLEGAL_DD => Some(0xDD)
    case ILLEGAL_E3 => Some(0xE3)
    case ILLEGAL_E4 => Some(0xE4)
    case ILLEGAL_EB => Some(0xEB)
    case ILLEGAL_EC => Some(0xEC)
    case ILLEGAL_ED => Some(0xED)
    case ILLEGAL_F4 => Some(0xF4)
    case ILLEGAL_FC => Some(0xFC)
    case ILLEGAL_FD => Some(0xFD)
    case _ => None
  }

  lemma NoIllegalBelowC0()
    ensures forall code: bv8 :: code < 0xC0 ==> IllegalOpcode(Unprefixed(code).mnemonic).None?
  {
  }

  lemma IllegalC0ToDF()
    ensures forall code: bv8 :: 0xC0 <= code < 0xE0 ==>
      (IllegalOpcode(Unprefixed(code).mnemonic).Some? <==> code in {0xD3, 0xDB, 0xDD})
  {
  }

  lemma IllegalE0ToEF()
    ensures forall code: bv8 :: 0xE0 <= code < 0xF0 ==>
      (IllegalOpcode(Unprefixed(code).mnemonic).Some? <==> code in {0xE3, 0xE4, 0xEB, 0xEC, 0xED})
  {
  }

  lemma IllegalFromF0()
    ensures forall code: bv8 :: 0xF0 <= code ==>
      (IllegalOpcode(Unprefixed(code).mnemonic).Some? <==> code in {0xF4, 0xFC, 0xFD})
  {
  }

  lemma IllegalFromC0()
    ensures forall code: bv8 :: 0xC0 <= code ==>
      (IllegalOpcode(Unprefixed(code).mnemonic).Some? <==>
       code in {0xD3, 0xDB, 0xDD, 0xE3, 0xE4, 0xEB, 0xEC, 0xED, 0xF4, 0xFC, 0xFD})
  {
    IllegalC0ToDF();
    IllegalE0ToEF();
    IllegalFromF0();
  }

  lemma IllegalNamesItsOpcodeD()
    ensures forall code: bv8 :: 0xC0 <= code < 0xE0 && IllegalOpcode(Unprefixed(code).mnemonic).Some? ==>
      IllegalOpcode(Unprefixed(code).mnemonic) == Some(code) && Unprefixed(code).operands == []
  {
  }

  lemma IllegalNamesItsOpcodeEF()
    ensures forall code: bv8 :: 0xE0 <= code && IllegalOpcode(Unprefixed(code).mnemonic).Some? ==>
      IllegalOpcode(Unprefixed(code).mnemonic) == Some(code) && Unprefixed(code).operands == []
  {
  }

  lemma NoIllegalPrefixed()
    ensures forall code: bv8 :: IllegalOpcode(Cbprefixed(code).mnemonic).None?
  {
    CbRotates();
    CbBits();
  }

  /**
   * FromOPCode finds an entry for every byte of both tables, so it never
   * returns nil; the entry is an ILLEGAL_xx naming its own opcode exactly
   * for the eleven illegal bytes of the plain table, and then has no operands.
   */
  lemma {:induction false} FromOPCodeIllegal(code: bv8, cbprefix: bool)
    ensures FromOPCode(code, cbprefix).Some?
    ensures IllegalOpcode(FromOPCode(code, cbprefix).value.mnemonic).Some? <==>
      !cbprefix && code in {0xD3, 0xDB, 0xDD, 0xE3, 0xE4, 0xEB, 0xEC, 0xED, 0xF4, 0xFC, 0xFD}
    ensures IllegalOpcode(FromOPCode(code, cbprefix).value.mnemonic).Some? ==>
      IllegalOpcode(FromOPCode(code, cbprefix).value.mnemonic) == Some(code) &&
      FromOPCode(code, cbprefix).value.operands == []
  {
    if cbprefix {
      NoIllegalPrefixed();
    } else if code < 0xC0 {
      NoIllegalBelowC0();
    } else {
      IllegalFromC0();
      IllegalNamesItsOpcodeD();
      IllegalNamesItsOpcodeEF();
    }
  }

  lemma NoPrefixBelow80()
    ensures forall code: bv8 :: code < 0x80 ==> Unprefixed(code).mnemonic != PREFIX
  {
  }

  lemma PrefixFrom80()
    ensures forall code: bv8 :: 0x80 <= code ==> (Unprefixed(code).mnemonic == PREFIX <==> code == 0xCB)
  {
  }

  /** 0xCB is the only PREFIX entry. */
  lemma PrefixOpcode()
    ensures forall code: bv8 :: Unprefixed(code).mnemonic == PREFIX <==> code == 0xCB
  {
    NoPrefixBelow80();
    PrefixFrom80();
  }

  /** 0x40-0x7F, except 0x76 (HALT), load register index (code>>3)&7 from register index code&7. */
  lemma LdBlock()
    ensures forall code: bv8 :: 0x40 <= code < 0x80 && code != 0x76 ==>
      Unprefixed(code) == Instruction(LD, [RegisterOperand((code >> 3) & 7), RegisterOperand(code & 7)])
    ensures Unprefixed(0x76) == Instruction(HALT, [])
  {
  }

  /** CB 0x00-0x3F: eight rotate and shift blocks of eight registers each. */
  lemma CbRotates()
    ensures forall code: bv8 :: code < 0x40 ==>
      Cbprefixed(code) == Instruction(RotateMnemonic(code >> 3), [RegisterOperand(code & 7)])
  {
  }

  /** CB 0x40-0xFF: BIT, RES and SET, bit index (code>>3)&7, register index code&7. */
  lemma CbBits()
    ensures forall code: bv8 :: 0x40 <= code ==>
      Cbprefixed(code) == Instruction(BitMnemonic(code >> 6), [Bit((code >> 3) & 7), RegisterOperand(code & 7)])
  {
  }

  /** RST at 0xC7 + 8k carries the vector 8k. */
  lemma Restarts()
    ensures forall code: bv8 :: 0xC0 <= code && code & 7 == 7 ==>
      Unprefixed(code) == Instruction(RST, [Hex(code - 0xC7)])
  {
  }

  lemma NoRestartBelowC0()
    ensures forall code: bv8 :: code < 0xC0 ==> Unprefixed(code).mnemonic != RST
  {
  }

  lemma RestartsOnlyThere()
    ensures forall code: bv8 :: Unprefixed(code).mnemonic == RST ==> 0xC0 <= code && code & 7 == 7
  {
    NoRestartBelowC0();
  }

  lemma AtMostTwoOperandsBelow80()
    ensures forall code: bv8 :: code < 0x80 ==> |Unprefixed(code).operands| <= 2
  {
  }

  lemma ThreeOperandsFrom80()
    ensures forall code: bv8 :: 0x80 <= code ==> (|Unprefixed(code).operands| == 3 <==> code == 0xF8)
  {
  }

  /** 0xF8, LD HL,SP+r8, is the only entry with three operands. */
  lemma OnlyF8HasThreeOperands()
    ensures forall code: bv8 :: |Unprefixed(code).operands| == 3 <==> code == 0xF8
    ensures Unprefixed(0xF8) == Instruction(LD, [Reg(HL), Inc(Reg(SP)), Dat(R8)])
  {
    AtMostTwoOperandsBelow80();
    ThreeOperandsFrom80();
  }

  lemma CbHaveAtMostTwoOperands()
    ensures forall code: bv8 :: |Cbprefixed(code).operands| <= 2
  {
  }

  /** A jump, call or return whose first operand selects whether it is taken. */
  predicate IsConditional(i: Instruction)
  {
    (i.mnemonic in {JP, JR, CALL} && |i.operands| == 2) || (i.mnemonic == RET && |i.operands| == 1)
  }

  /**
   * The table writes the carry condition of 0x38, 0xD8 and 0xDC as
   * register C, where 0xDA writes the condition Ca.
   */
  lemma CarryConditionWrittenAsRegister()
    ensures Unprefixed(0x38) == Instruction(JR, [Reg(C), Dat(R8)])
    ensures Unprefixed(0xD8) == Instruction(RET, [Reg(C)])
    ensures Unprefixed(0xDC) == Instruction(CALL, [Reg(C), Dat(A16)])
    ensures Unprefixed(0xDA) == Instruction(JP, [Cond(Ca), Dat(A16)])
    ensures IsConditional(Unprefixed(0x38)) && !Unprefixed(0x38).operands[0].IsCondition()
  {
  }

  /** The table with the carry condition written as a condition in 0x38, 0xD8 and 0xDC. */
  function UnprefixedCorrected(code: bv8): (r: Instruction)
    ensures code !in {0x38, 0xD8, 0xDC} ==> r == Unprefixed(code)
    ensures r.mnemonic == Unprefixed(code).mnemonic && |r.operands| == |Unprefixed(code).operands|
  {
    var i := Unprefixed(code);
    if code in {0x38, 0xD8, 0xDC} then i.(operands := [Cond(Ca)] + i.operands[1..]) else i
  }

  lemma CorrectedConditionsBelow40()
    ensures forall code: bv8 :: code < 0x40 && IsConditional(UnprefixedCorrected(code)) ==>
      UnprefixedCorrected(code).operands[0].IsCondition()
  {
  }

  lemma NoConditionals40To7F()
    ensures forall code: bv8 :: 0x40 <= code < 0x80 ==> !IsConditional(UnprefixedCorrected(code))
  {
  }

  lemma CorrectedConditionsFrom80()
    ensures forall code: bv8 :: 0x80 <= code && IsConditional(UnprefixedCorrected(code)) ==>
      UnprefixedCorrected(code).operands[0].IsCondition()
  {
  }

  /** In the corrected table every conditional jump, call and return starts with a condition. */
  lemma CorrectedConditionsAreConditions()
    ensures forall code: bv8 :: IsConditional(UnprefixedCorrected(code)) ==>
      UnprefixedCorrected(code).operands[0].IsCondition()
  {
    CorrectedConditionsBelow40();
    NoConditionals40To7F();
    CorrectedConditionsFrom80();
  }
}
