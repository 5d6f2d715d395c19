/**
 * The older register file of pkg/processor/registers.go. It has the same
 * layout as the cpu package's and is built on the pkg/processor byte
 * helpers. Its getters read the struct; its setters update it in place.
 */
module ProcessorRegisters {
  import opened ProcessorBitwise

  const FlagZ: bv8 := 7
  const FlagN: bv8 := 6
  const FlagH: bv8 := 5
  const FlagC: bv8 := 4

  class Registers {
    var a: bv8
    var b: bv8
    var c: bv8
    var d: bv8
    var e: bv8
    var f: bv8
    var h: bv8
    var l: bv8
    var sp: bv16
    var pc: bv16

    function GetAF(): (r: bv16)
      reads this
      ensures r == (a as bv16) * 256 + (f as bv16)
    {
      ToU16(a, f)
    }

    function GetBC(): (r: bv16)
      reads this
      ensures r == (b as bv16) * 256 + (c as bv16)
    {
      ToU16(b, c)
    }

    function GetDE(): (r: bv16)
      reads this
      ensures r == (d as bv16) * 256 + (e as bv16)
    {
      ToU16(d, e)
    }

    function GetHL(): (r: bv16)
      reads this
      ensures r == (h as bv16) * 256 + (l as bv16)
    {
      ToU16(h, l)
    }

    /** SetAF stores the whole low byte in F: the flags' low nibble is not masked. */
    method SetAF(v: bv16)
      modifies this
      ensures GetAF() == v
      ensures b == old(b) && c == old(c) && d == old(d) && e == old(e)
      ensures h == old(h) && l == old(l) && sp == old(sp) && pc == old(pc)
    {
      a := Hi(v);
      f := Lo(v);
    }

    method SetBC(v: bv16)
      modifies this
      ensures GetBC() == v
      ensures a == old(a) && f == old(f) && d == old(d) && e == old(e)
      ensures h == old(h) && l == old(l) && sp == old(sp) && pc == old(pc)
    {
      b := Hi(v);
      c := Lo(v);
    }

    method SetDE(v: bv16)
      modifies this
      ensures GetDE() == v
      ensures a == old(a) && f == old(f) && b == old(b) && c == old(c)
      ensures h == old(h) && l == old(l) && sp == old(sp) && pc == old(pc)
    {
      d := Hi(v);
      e := Lo(v);
    }

    method SetHL(v: bv16)
      modifies this
      ensures GetHL() == v
      ensures a == old(a) && f == old(f) && b == old(b) && c == old(c)
      ensures d == old(d) && e == old(e) && sp == old(sp) && pc == old(pc)
    {
      h := Hi(v);
      l := Lo(v);
    }

    /** GetFlag: bit fl of F; a bit number of 8 or more reads false. */
    function GetFlag(fl: bv8): bool
      reads this
      ensures fl >= 8 ==> !GetFlag(fl)
      ensures fl < 8 ==> (GetFlag(fl) <==> (f >> fl) & 1 == 1)
    {
      GetNBit(f, fl)
    }

    method SetFlag(fl: bv8)
      modifies this
      ensures fl < 8 ==> GetFlag(fl)
      ensures forall g: bv8 {:trigger GetNBit(old(f), g)} :: g != fl ==> GetFlag(g) == GetNBit(old(f), g)
      ensures a == old(a) && b == old(b) && c == old(c) && d == old(d) && e == old(e)
      ensures h == old(h) && l == old(l) && sp == old(sp) && pc == old(pc)
    {
      f := SetNBit(f, fl);
    }

    method ClearFlag(fl: bv8)
      modifies this
      ensures !GetFlag(fl)
      ensures forall g: bv8 {:trigger GetNBit(old(f), g)} :: g != fl ==> GetFlag(g) == GetNBit(old(f), g)
      ensures a == old(a) && b == old(b) && c == old(c) && d == old(d) && e == old(e)
      ensures h == old(h) && l == old(l) && sp == old(sp) && pc == old(pc)
    {
      f := ClearNBit(f, fl);
    }
  }
}
