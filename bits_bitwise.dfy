/**
 * Byte split and join, and single-bit access (internal/bits/bitwise.go).
 * Go evaluates `1 << bit` on a byte, which is 0 once bit >= 8; `Mask`
 * spells that out, so every function is total over all byte values.
 */
module BitsBitwise {

  /** Low byte of a 16-bit value. */
  function Lo(v: bv16): (r: bv8)
    ensures r as bv16 == v & 0xFF
  {
    (v & 0x00FF) as bv8
  }

  /** High byte of a 16-bit value. */
  function Hi(v: bv16): (r: bv8)
    ensures (r as bv16) << 8 == v & 0xFF00
  {
    (v >> 8) as bv8
  }

  /** Joins a high and a low byte; the inverse of Hi and Lo. */
  function To16(hi: bv8, lo: bv8): (r: bv16)
    ensures Hi(r) == hi && Lo(r) == lo
  {
    ((hi as bv16) << 8) | (lo as bv16)
  }

  /** Splitting a value and joining the halves gives it back. */
  lemma SplitJoin(v: bv16)
    ensures To16(Hi(v), Lo(v)) == v
  {
  }

  /** The byte `1 << bit` as Go computes it: zero once the bit is shifted out. */
  function Mask(bit: bv8): (r: bv8)
    ensures bit >= 8 <==> r == 0
  {
    if bit < 8 then (1 as bv8) << bit else 0
  }

  function GetNBit(num: bv8, bit: bv8): (r: bool)
    ensures bit >= 8 ==> !r
    ensures bit < 8 ==> (r <==> (num >> bit) & 1 == 1)
  {
    (num & Mask(bit)) != 0
  }

  /** Sets one bit; for bit >= 8 the byte is returned unchanged. */
  function SetNBit(num: bv8, bit: bv8): (r: bv8)
    ensures bit < 8 ==> GetNBit(r, bit)
    ensures bit >= 8 ==> r == num
    ensures forall i: bv8 {:trigger GetNBit(num, i)} :: i != bit ==> GetNBit(r, i) == GetNBit(num, i)
  {
    num | Mask(bit)
  }

  /** Clears one bit; for bit >= 8 the byte is returned unchanged. */
  function ClearNBit(num: bv8, bit: bv8): (r: bv8)
    ensures !GetNBit(r, bit)
    ensures bit >= 8 ==> r == num
    ensures forall i: bv8 {:trigger GetNBit(num, i)} :: i != bit ==> GetNBit(r, i) == GetNBit(num, i)
  {
    num & !Mask(bit)
  }

  lemma SetNBitIdempotent(num: bv8, bit: bv8)
    ensures SetNBit(SetNBit(num, bit), bit) == SetNBit(num, bit)
  {
  }

  lemma ClearNBitIdempotent(num: bv8, bit: bv8)
    ensures ClearNBit(ClearNBit(num, bit), bit) == ClearNBit(num, bit)
  {
  }

  /** The low byte of a zero-extended byte is that byte. */
  lemma OwnByte(x: bv8)
    ensures Lo(x as bv16) == x
  {
  }

  /** A 16-bit value below 0x100 is its low byte zero-extended. */
  lemma ByteWidens(x: bv16)
    requires x < 0x100
    ensures Lo(x) as bv16 == x
  {
  }
}
