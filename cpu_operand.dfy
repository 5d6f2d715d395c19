/**
 * The operand descriptor of the cpu package (pkg/cpu/operand.go) and the
 * symbol kinds pkg/cpu/symbol.go declares for it: registers, immediate
 * data (d8, d16, r8), addresses (a8, a16), byte literals and conditions.
 * Unlike the instructions package, a8 and a16 are a separate Address type.
 */
module CpuOperand {
  import opened Errors
  import opened Operands

  /** Immediate data kinds of the cpu package. */
  datatype CpuData = D8 | D16 | R8

  /** Address kinds of the cpu package. */
  datatype Address = A8 | A16

  datatype Symbol =
    | RegisterSym(reg: Register)
    | DataSym(data: CpuData)
    | AddressSym(address: Address)
    | ByteSym(value: bv8)
    | ConditionSym(cond: Condition)

  predicate IsWideSymbol(s: Symbol)
  {
    (s.RegisterSym? && IsWide(s.reg)) || s == DataSym(CpuData.D16) || s == AddressSym(Address.A16)
  }

  datatype Operand = Operand(symbol: Symbol, deref: bool, inc: bool, dec: bool)
  {
    /** The size in bytes of the symbol's value; Deref, Inc and Dec play no part. */
    function Size(): (r: bv8)
      ensures r == 1 || r == 2
      ensures r == 2 <==> IsWideSymbol(symbol)
    {
      match symbol
      case RegisterSym(reg) => if reg in {AF, BC, DE, HL, PC, SP} then 2 else 1
      case DataSym(data) => if data == CpuData.D16 then 2 else 1
      case AddressSym(address) => if address == Address.A16 then 2 else 1
      case _ => 1
    }

    /** Is8: a one-byte value, so not one of the wide symbols. */
    predicate Is8()
      ensures Is8() <==> !IsWideSymbol(symbol)
    {
      Size() == 1
    }

    /** Is16: a two-byte value, exactly the wide symbols. */
    predicate Is16()
      ensures Is16() <==> IsWideSymbol(symbol)
    {
      Size() == 2
    }

    /** IsRegister: the symbol is a Register; it is then neither data nor a condition. */
    predicate IsRegister()
      ensures IsRegister() ==> !IsData() && !IsCondition()
    {
      symbol.RegisterSym?
    }

    function AsRegister(): (r: Result<Register>)
      ensures r.Success? <==> IsRegister()
      ensures r.Success? ==> symbol == RegisterSym(r.value)
      ensures r.Failure? ==> r.error == InvalidOperand
    {
      if symbol.RegisterSym? then Success(symbol.reg) else Failure(InvalidOperand)
    }

    /** IsData: the symbol is a Data kind; it is then not a condition. */
    predicate IsData()
      ensures IsData() ==> !IsCondition()
    {
      symbol.DataSym?
    }

    function AsData(): (r: Result<CpuData>)
      ensures r.Success? <==> IsData()
      ensures r.Success? ==> symbol == DataSym(r.value)
      ensures r.Failure? ==> r.error == InvalidOperand
    {
      if symbol.DataSym? then Success(symbol.data) else Failure(InvalidOperand)
    }

    /** IsConditon in the source: the symbol is a Condition, a one-byte operand. */
    predicate IsCondition()
      ensures IsCondition() ==> Is8()
    {
      symbol.ConditionSym?
    }

    function AsCondition(): (r: Result<Condition>)
      ensures r.Success? <==> IsCondition()
      ensures r.Success? ==> symbol == ConditionSym(r.value)
      ensures r.Failure? ==> r.error == InvalidOperand
    {
      if symbol.ConditionSym? then Success(symbol.cond) else Failure(InvalidOperand)
    }
  }

  lemma SizeIsByteOrWord(o: Operand)
    ensures o.Is8() != o.Is16()
    ensures o.Is16() == Operand(o.symbol, false, false, false).Is16()
  {
  }

  function Plain(s: Symbol): Operand { Operand(s, false, false, false) }
}
