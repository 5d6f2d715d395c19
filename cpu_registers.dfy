/**
 * The register file of pkg/cpu/registers.go: eight 8-bit registers, SP and
 * PC, the 16-bit pair views AF, BC, DE and HL, and the Z/N/H/C flags in F.
 *
 * `Regs` is the value of the register file and carries the pure getters;
 * the class `Registers` is the struct that the setters update in place,
 * each specified by the matching `Regs` function. `Get`, `Set`,
 * `SetFlagTo`, `IsCondition` and `SetRotateAndShiftFlags` are called by
 * the cpu package and are not modelled from a body here; they get the
 * contract their callers rely on.
 */
module CpuRegisters {
  import opened BitsBitwise
  import opened Operands

  /** Bit positions of the flags in F: |Z|N|H|C|0|0|0|0|. */
  const FlagZ: bv8 := 7
  const FlagN: bv8 := 6
  const FlagH: bv8 := 5
  const FlagC: bv8 := 4

  /** The 8-bit registers a register name occupies. */
  function Parts(reg: Register): (r: set<Register>)
    ensures r != {} && forall q :: q in r ==> !IsWide(q) || q in {PC, SP}
  {
    match reg
    case AF => {A, F}
    case BC => {B, C}
    case DE => {D, E}
    case HL => {H, L}
    case _ => {reg}
  }

  datatype Regs = Regs(a: bv8, b: bv8, c: bv8, d: bv8, e: bv8, f: bv8, h: bv8, l: bv8, sp: bv16, pc: bv16)
  {
    function GetAF(): (r: bv16)
      ensures Hi(r) == a && Lo(r) == f
    {
      To16(a, f)
    }

    function GetBC(): (r: bv16)
      ensures Hi(r) == b && Lo(r) == c
    {
      To16(b, c)
    }

    function GetDE(): (r: bv16)
      ensures Hi(r) == d && Lo(r) == e
    {
      To16(d, e)
    }

    function GetHL(): (r: bv16)
      ensures Hi(r) == h && Lo(r) == l
    {
      To16(h, l)
    }

    /** SetAF: no masking of the low nibble of F. */
    function WithAF(v: bv16): (r: Regs)
      ensures r.GetAF() == v
      ensures r == this.(a := r.a, f := r.f)
    {
      this.(a := Hi(v), f := Lo(v))
    }

    function WithBC(v: bv16): (r: Regs)
      ensures r.GetBC() == v
      ensures r == this.(b := r.b, c := r.c)
    {
      this.(b := Hi(v), c := Lo(v))
    }

    function WithDE(v: bv16): (r: Regs)
      ensures r.GetDE() == v
      ensures r == this.(d := r.d, e := r.e)
    {
      this.(d := Hi(v), e := Lo(v))
    }

    function WithHL(v: bv16): (r: Regs)
      ensures r.GetHL() == v
      ensures r == this.(h := r.h, l := r.l)
    {
      this.(h := Hi(v), l := Lo(v))
    }

    /** GetFlag: the flag's bit of F; a bit number of 8 or more reads false. */
    function Flag(fl: bv8): bool
      ensures fl >= 8 ==> !Flag(fl)
      ensures fl < 8 ==> (Flag(fl) <==> (f >> fl) & 1 == 1)
    {
      GetNBit(f, fl)
    }

    /** F after SetFlag (on) or ClearFlag (off): only the named bit changes. */
    function WithFlag(fl: bv8, on: bool): (r: Regs)
      ensures fl < 8 ==> r.Flag(fl) == on
      ensures forall g: bv8 {:trigger Flag(g)} :: g != fl ==> r.Flag(g) == Flag(g)
      ensures r == this.(f := r.f)
    {
      this.(f := if on then SetNBit(f, fl) else ClearNBit(f, fl))
    }

    /** Registers.Get: 8-bit registers zero-extended, pairs, SP and PC. */
    function Get(reg: Register): (r: bv16)
      ensures IsSingle(reg) ==> r < 0x100
      ensures reg == AF ==> r == GetAF()
      ensures reg == BC ==> r == GetBC()
      ensures reg == DE ==> r == GetDE()
      ensures reg == HL ==> r == GetHL()
    {
      match reg
      case A => a as bv16
      case B => b as bv16
      case C => c as bv16
      case D => d as bv16
      case E => e as bv16
      case F => f as bv16
      case H => h as bv16
      case L => l as bv16
      case AF => GetAF()
      case BC => GetBC()
      case DE => GetDE()
      case HL => GetHL()
      case PC => pc
      case SP => sp
    }

    /**
     * Registers.Set: an 8-bit register stores the low byte, a pair is set
     * through its Set function, SP and PC store the whole value.
     */
    function Set(reg: Register, v: bv16): (r: Regs)
      ensures r.Get(reg) == if IsSingle(reg) then v & 0xFF else v
    {
      match reg
      case A => this.(a := Lo(v))
      case B => this.(b := Lo(v))
      case C => this.(c := Lo(v))
      case D => this.(d := Lo(v))
      case E => this.(e := Lo(v))
      case F => this.(f := Lo(v))
      case H => this.(h := Lo(v))
      case L => this.(l := Lo(v))
      case AF => WithAF(v)
      case BC => WithBC(v)
      case DE => WithDE(v)
      case HL => WithHL(v)
      case PC => this.(pc := v)
      case SP => this.(sp := v)
    }

    /** Registers.IsCondition: each condition tests one flag. */
    predicate IsCondition(cond: Condition)
    {
      match cond
      case NZ => !Flag(FlagZ)
      case Z => Flag(FlagZ)
      case NC => !Flag(FlagC)
      case Ca => Flag(FlagC)
    }

    /** Registers.SetRotateAndShiftFlags: Z from the result, N and H cleared, C from the carry. */
    function RotateShiftFlags(result: bv8, carry: bool): (r: Regs)
      ensures r.Flag(FlagZ) == (result == 0)
      ensures !r.Flag(FlagN) && !r.Flag(FlagH)
      ensures r.Flag(FlagC) == carry
      ensures r == this.(f := r.f)
    {
      WithFlag(FlagZ, result == 0).WithFlag(FlagN, false).WithFlag(FlagH, false).WithFlag(FlagC, carry)
    }
  }

  /** Set changes no 8-bit register outside its target. */
  lemma SetFields(r: Regs, reg: Register, v: bv16)
    ensures var s := r.Set(reg, v);
      (A !in Parts(reg) ==> s.a == r.a) && (B !in Parts(reg) ==> s.b == r.b) &&
      (C !in Parts(reg) ==> s.c == r.c) && (D !in Parts(reg) ==> s.d == r.d) &&
      (E !in Parts(reg) ==> s.e == r.e) && (F !in Parts(reg) ==> s.f == r.f) &&
      (H !in Parts(reg) ==> s.h == r.h) && (L !in Parts(reg) ==> s.l == r.l) &&
      (SP !in Parts(reg) ==> s.sp == r.sp) && (PC !in Parts(reg) ==> s.pc == r.pc)
  {
    var s := r.Set(reg, v);
    match reg
    case A => assert s == r.(a := Lo(v));
    case B => assert s == r.(b := Lo(v));
    case C => assert s == r.(c := Lo(v));
    case D => assert s == r.(d := Lo(v));
    case E => assert s == r.(e := Lo(v));
    case F => assert s == r.(f := Lo(v));
    case H => assert s == r.(h := Lo(v));
    case L => assert s == r.(l := Lo(v));
    case AF => assert s == r.(a := Hi(v), f := Lo(v));
    case BC => assert s == r.(b := Hi(v), c := Lo(v));
    case DE => assert s == r.(d := Hi(v), e := Lo(v));
    case HL => assert s == r.(h := Hi(v), l := Lo(v));
    case PC => assert s == r.(pc := v);
    case SP => assert s == r.(sp := v);
  }

  /** Set leaves every 8-bit register, SP and PC outside its target as it was. */
  lemma SetFrame(r: Regs, reg: Register, v: bv16, q: Register)
    requires q !in {AF, BC, DE, HL} && q !in Parts(reg)
    ensures r.Set(reg, v).Get(q) == r.Get(q)
  {
    SetFields(r, reg, v);
  }

  /** Setting a pair and reading it back gives the value, for every pair. */
  lemma PairRoundTrip(r: Regs, v: bv16)
    ensures r.WithAF(v).Get(AF) == v
    ensures r.WithBC(v).Get(BC) == v
    ensures r.WithDE(v).Get(DE) == v
    ensures r.WithHL(v).Get(HL) == v
  {
  }

  /** Storing a register's own value back changes nothing. */
  lemma SetOwnValue(r: Regs, reg: Register)
    ensures r.Set(reg, r.Get(reg)) == r
  {
    match reg
    case AF => SplitJoin(r.GetAF());
    case BC => SplitJoin(r.GetBC());
    case DE => SplitJoin(r.GetDE());
    case HL => SplitJoin(r.GetHL());
    case _ =>
  }

  /** The four flags are the top four bits of F. */
  lemma FlagLayout(r: Regs)
    ensures r.Flag(FlagZ) == ((r.f >> 7) & 1 == 1)
    ensures r.Flag(FlagN) == ((r.f >> 6) & 1 == 1)
    ensures r.Flag(FlagH) == ((r.f >> 5) & 1 == 1)
    ensures r.Flag(FlagC) == ((r.f >> 4) & 1 == 1)
  {
  }

  /** The register file struct; every setter updates it in place. */
  class Registers {
    var a: bv8
    var b: bv8
    var c: bv8
    var d: bv8
    var e: bv8
    var f: bv8
    var h: bv8
    var l: bv8
    var sp: bv16
    var pc: bv16

    function Value(): Regs
      reads this
    {
      Regs(a, b, c, d, e, f, h, l, sp, pc)
    }

    constructor (init: Regs)
      ensures Value() == init
    {
      a, b, c, d, e, f, h, l := init.a, init.b, init.c, init.d, init.e, init.f, init.h, init.l;
      sp, pc := init.sp, init.pc;
    }

    method SetAF(v: bv16)
      modifies this
      ensures Value() == old(Value()).WithAF(v)
    {
      a := Hi(v);
      f := Lo(v);
    }

    method SetBC(v: bv16)
      modifies this
      ensures Value() == old(Value()).WithBC(v)
    {
      b := Hi(v);
      c := Lo(v);
    }

    method SetDE(v: bv16)
      modifies this
      ensures Value() == old(Value()).WithDE(v)
    {
      d := Hi(v);
      e := Lo(v);
    }

    method SetHL(v: bv16)
      modifies this
      ensures Value() == old(Value()).WithHL(v)
    {
      h := Hi(v);
      l := Lo(v);
    }

    method SetFlag(fl: bv8)
      modifies this
      ensures Value() == old(Value()).WithFlag(fl, true)
    {
      f := SetNBit(f, fl);
    }

    method ClearFlag(fl: bv8)
      modifies this
      ensures Value() == old(Value()).WithFlag(fl, false)
    {
      f := ClearNBit(f, fl);
    }

    /** The two-argument SetFlag the handlers of pkg/cpu/operations.go call. */
    method SetFlagTo(fl: bv8, on: bool)
      modifies this
      ensures Value() == old(Value()).WithFlag(fl, on)
    {
      if on {
        SetFlag(fl);
      } else {
        ClearFlag(fl);
      }
    }

    method Set(reg: Register, v: bv16)
      modifies this
      ensures Value() == old(Value()).Set(reg, v)
    {
      match reg
      case A => a := Lo(v);
      case B => b := Lo(v);
      case C => c := Lo(v);
      case D => d := Lo(v);
      case E => e := Lo(v);
      case F => f := Lo(v);
      case H => h := Lo(v);
      case L => l := Lo(v);
      case AF => SetAF(v);
      case BC => SetBC(v);
      case DE => SetDE(v);
      case HL => SetHL(v);
      case PC => pc := v;
      case SP => sp := v;
    }

    method SetRotateAndShiftFlags(result: bv8, carry: bool)
      modifies this
      ensures Value() == old(Value()).RotateShiftFlags(result, carry)
    {
      SetFlagTo(FlagZ, result == 0);
      SetFlagTo(FlagN, false);
      SetFlagTo(FlagH, false);
      SetFlagTo(FlagC, carry);
    }
  }

  /** Changing F leaves every other 8-bit register as it was. */
  lemma FlagsKeepRegister(r: Regs, f: bv8, reg: Register)
    requires IsSingle(reg) && reg != F
    ensures r.(f := f).Get(reg) == r.Get(reg)
  {
    match reg
    case A =>
    case B =>
    case C =>
    case D =>
    case E =>
    case H =>
    case L =>
  }
}
