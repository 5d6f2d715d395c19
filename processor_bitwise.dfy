/**
 * The older copy of the byte helpers (pkg/processor/bitwise.go):
 * lo, hi, toU16, getNBit, setNBit and clearNBit, with the same shifts and
 * masks as internal/bits. Stated here against unsigned division and
 * remainder, so the two copies are specified independently.
 */
module ProcessorBitwise {

  /** Low byte: the value mod 256. */
  function Lo(v: bv16): (r: bv8)
    ensures r as bv16 == v % 256
  {
    (v & 0x00FF) as bv8
  }

  /** High byte: the value div 256. */
  function Hi(v: bv16): (r: bv8)
    ensures r as bv16 == v / 256
  {
    (v >> 8) as bv8
  }

  /** Joins two bytes into hi * 256 + lo. */
  function ToU16(hi: bv8, lo: bv8): (r: bv16)
    ensures r == (hi as bv16) * 256 + (lo as bv16)
  {
    ((hi as bv16) << 8) | (lo as bv16)
  }

  lemma SplitJoin(v: bv16)
    ensures ToU16(Hi(v), Lo(v)) == v
  {
  }

  function Mask(n: bv8): (r: bv8)
    ensures n >= 8 <==> r == 0
  {
    if n < 8 then (1 as bv8) << n else 0
  }

  function GetNBit(num: bv8, n: bv8): (r: bool)
    ensures n >= 8 ==> !r
    ensures n < 8 ==> (r <==> (num >> n) & 1 == 1)
  {
    (num & Mask(n)) != 0
  }

  function SetNBit(num: bv8, n: bv8): (r: bv8)
    ensures n < 8 ==> GetNBit(r, n)
    ensures forall i: bv8 {:trigger GetNBit(num, i)} :: i != n ==> GetNBit(r, i) == GetNBit(num, i)
  {
    num | Mask(n)
  }

  function ClearNBit(num: bv8, n: bv8): (r: bv8)
    ensures !GetNBit(r, n)
    ensures forall i: bv8 {:trigger GetNBit(num, i)} :: i != n ==> GetNBit(r, i) == GetNBit(num, i)
  {
    num & !Mask(n)
  }
}
