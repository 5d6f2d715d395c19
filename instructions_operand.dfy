/**
 * The operand descriptor of pkg/instructions/operand.go. In Go the symbol
 * is an `any`; here it is a closed sum of the kinds the instruction table
 * and the cpu package use. `Hex` and `Bit` are their own Go types, distinct
 * from a plain `byte`, so they are distinct cases here too.
 */
module InstructionsOperand {
  import opened Errors
  import opened Operands

  datatype Symbol =
    | RegisterSym(reg: Register)
    | DataSym(data: Data)
    | ConditionSym(cond: Condition)
    | HexSym(hex: bv8)    // RST vector
    | BitSym(bit: bv8)    // bit index of BIT, RES and SET
    | ByteSym(value: bv8) // a plain byte literal

  /** The symbols whose value is 16 bits wide. */
  predicate IsWideSymbol(s: Symbol)
  {
    (s.RegisterSym? && IsWide(s.reg)) || s == DataSym(D16) || s == DataSym(A16)
  }

  datatype Operand = Operand(symbol: Symbol, deref: bool, inc: bool, dec: bool)
  {
    /** The size in bytes of the symbol's value; Deref, Inc and Dec play no part. */
    function Size(): (r: bv8)
      ensures r == 1 || r == 2
      ensures r == 2 <==> IsWideSymbol(symbol)
    {
      match symbol
      case RegisterSym(reg) => if reg in {AF, BC, DE, HL, PC, SP} then 2 else 1
      case DataSym(data) => if data in {D16, A16} then 2 else 1
      case _ => 1
    }

    /** Is8: a one-byte value, so not one of the wide symbols. */
    predicate Is8()
      ensures Is8() <==> !IsWideSymbol(symbol)
    {
      Size() == 1
    }

    /** Is16: a two-byte value, exactly the wide symbols. */
    predicate Is16()
      ensures Is16() <==> IsWideSymbol(symbol)
    {
      Size() == 2
    }

    /** IsRegister: the symbol is a Register; it is then neither data nor a condition. */
    predicate IsRegister()
      ensures IsRegister() ==> !IsData() && !IsCondition()
    {
      symbol.RegisterSym?
    }

    function AsRegister(): (r: Result<Register>)
      ensures r.Success? <==> IsRegister()
      ensures r.Success? ==> symbol == RegisterSym(r.value)
      ensures r.Failure? ==> r.error == InvalidOperand
    {
      if symbol.RegisterSym? then Success(symbol.reg) else Failure(InvalidOperand)
    }

    /** IsData: the symbol is a Data kind; it is then not a condition. */
    predicate IsData()
      ensures IsData() ==> !IsCondition()
    {
      symbol.DataSym?
    }

    function AsData(): (r: Result<Data>)
      ensures r.Success? <==> IsData()
      ensures r.Success? ==> symbol == DataSym(r.value)
      ensures r.Failure? ==> r.error == InvalidOperand
    {
      if symbol.DataSym? then Success(symbol.data) else Failure(InvalidOperand)
    }

    /** IsConditon in the source: the symbol is a Condition, a one-byte operand. */
    predicate IsCondition()
      ensures IsCondition() ==> Is8()
    {
      symbol.ConditionSym?
    }

    function AsCondition(): (r: Result<Condition>)
      ensures r.Success? <==> IsCondition()
      ensures r.Success? ==> symbol == ConditionSym(r.value)
      ensures r.Failure? ==> r.error == InvalidOperand
    {
      if symbol.ConditionSym? then Success(symbol.cond) else Failure(InvalidOperand)
    }
  }

  /** Exactly one of Is8 and Is16 holds, whatever the flags. */
  lemma SizeIsByteOrWord(o: Operand)
    ensures o.Is8() != o.Is16()
    ensures o.Is16() == Operand(o.symbol, false, false, false).Is16()
  {
  }

  /** A register, in operand form with no flags. */
  function Reg(r: Register): Operand { Operand(RegisterSym(r), false, false, false) }
  function Dat(d: Data): Operand { Operand(DataSym(d), false, false, false) }
  function Cond(c: Condition): Operand { Operand(ConditionSym(c), false, false, false) }
  function Hex(h: bv8): Operand { Operand(HexSym(h), false, false, false) }
  function Bit(b: bv8): Operand { Operand(BitSym(b), false, false, false) }

  /** The table's `Deref(x)`, `Inc(x)` and `Dec(x)` wrappers: (x), x+ and x-. */
  function Deref(o: Operand): Operand { o.(deref := true) }
  function Inc(o: Operand): Operand { o.(inc := true) }
  function Dec(o: Operand): Operand { o.(dec := true) }
}
