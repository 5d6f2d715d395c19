/**
 * The uint16 arithmetic and the carry tests that the handlers of
 * pkg/cpu/operations.go write inline, each given a name. Go's uint16
 * `+` and `-` wrap mod 2^16; the carry tests compare masked sums, which
 * cannot overflow 16 bits (the 16-bit carry is computed in uint32).
 */
module CpuArith {
  import opened BitsBitwise
  import opened BitsArithmetic

  /** uint16 addition. */
  function Plus(x: bv16, y: bv16): bv16
  {
    x + y
  }

  /** uint16 addition with a carry-in: ADC's `valA + valB + carry`. */
  function PlusCarry(x: bv16, y: bv16, c: bv16): bv16
  {
    x + y + c
  }

  /** uint16 subtraction. */
  function Minus(x: bv16, y: bv16): bv16
  {
    x - y
  }

  /** uint16 subtraction with a borrow-in: x - y - c. */
  function MinusCarry(x: bv16, y: bv16, c: bv16): bv16
  {
    x - y - c
  }

  /** SBC's `valA - valB + carry`, which adds the carry it should subtract. */
  function MinusPlusCarry(x: bv16, y: bv16, c: bv16): bv16
  {
    x - y + c
  }

  /** (x&0xF) + (y&0xF) + c > 0xF: a carry out of bit 3. */
  predicate CarryFromBit3(x: bv16, y: bv16, c: bv16)
  {
    (x & 0xF) + (y & 0xF) + c > 0xF
  }

  /** (x&0xFF) + (y&0xFF) + c > 0xFF: a carry out of bit 7. */
  predicate CarryFromBit7(x: bv16, y: bv16, c: bv16)
  {
    (x & 0xFF) + (y & 0xFF) + c > 0xFF
  }

  /** (x&0xFFF) + (y&0xFFF) > 0xFFF: a carry out of bit 11. */
  predicate CarryFromBit11(x: bv16, y: bv16)
  {
    (x & 0xFFF) + (y & 0xFFF) > 0xFFF
  }

  /** (uint32(x)&0xFFFF) + (uint32(y)&0xFFFF) > 0xFFFF: a carry out of bit 15. */
  predicate CarryFromBit15(x: bv16, y: bv16)
  {
    ((x as bv32) & 0xFFFF) + ((y as bv32) & 0xFFFF) > 0xFFFF
  }

  /** (x&0xF) < (y&0xF) + c: a borrow into bit 4. */
  predicate BorrowIntoBit4(x: bv16, y: bv16, c: bv16)
  {
    (x & 0xF) < (y & 0xF) + c
  }

  /** (x&0xFF) < (y&0xFF) + c: a borrow out of the low byte. */
  predicate BorrowIntoBit8(x: bv16, y: bv16, c: bv16)
  {
    (x & 0xFF) < (y & 0xFF) + c
  }

  /** On bytes with a carry-in, the low byte of the uint16 sum and CarryFromBit7 are the sum and carry-out of bits.Add8. */
  lemma ByteAdcAgrees(x: bv8, y: bv8, c: bv8)
    requires c <= 1
    ensures Lo(PlusCarry(x as bv16, y as bv16, c as bv16)) == Add8(x, y, c).sum
    ensures CarryFromBit7(x as bv16, y as bv16, c as bv16) <==> Add8(x, y, c).carryOut == 1
  {
  }

  /** On bytes, the low byte of the uint16 sum and CarryFromBit7 are the sum and carry-out of bits.Add8. */
  lemma ByteSumAgrees(x: bv8, y: bv8)
    ensures Lo(Plus(x as bv16, y as bv16)) == Add8(x, y, 0).sum
    ensures CarryFromBit7(x as bv16, y as bv16, 0) <==> Add8(x, y, 0).carryOut == 1
  {
  }

  /** On bytes, the low byte of the uint16 difference and BorrowIntoBit8 are the difference and borrow of bits.Sub8. */
  lemma ByteDifferenceAgrees(x: bv8, y: bv8)
    ensures Lo(Minus(x as bv16, y as bv16)) == Sub8(x, y, 0).sum
    ensures BorrowIntoBit8(x as bv16, y as bv16, 0) <==> Sub8(x, y, 0).carryOut == 1
  {
  }

  /** The low byte of the difference of two byte values is zero exactly when they are equal. */
  lemma ByteDifferenceZero(x: bv16, y: bv16)
    requires x < 0x100 && y < 0x100
    ensures Minus(x, y) & 0xFF == 0 <==> x == y
  {
  }


  /** Adding or subtracting one in uint16 moves the low byte by one, mod 2^8. */
  lemma ByteIncrement(x: bv8)
    ensures Lo(Plus(x as bv16, 1)) == x + 1
    ensures Lo(Minus(x as bv16, 1)) == x - 1
  {
  }

  /** On byte values, the borrow out of the low byte says the first is below the second. */
  lemma ByteCompare(x: bv16, y: bv16)
    requires x < 0x100 && y < 0x100
    ensures BorrowIntoBit8(x, y, 0) <==> x < y
  {
  }


  /** On bytes, Minus and BorrowIntoBit8 are the difference and borrow of bits.Sub8. */
  lemma ByteSubAgrees(x: bv8, y: bv8, c: bv8)
    requires c <= 1
    ensures Lo(MinusCarry(x as bv16, y as bv16, c as bv16)) == Sub8(x, y, c).sum
    ensures BorrowIntoBit8(x as bv16, y as bv16, c as bv16) <==> Sub8(x, y, c).carryOut == 1
  {
  }

  /** Plus and CarryFromBit15 are the sum and carry-out of bits.Add16. */
  lemma WordAddAgrees(x: bv16, y: bv16)
    ensures Plus(x, y) == Add16(x, y, 0).sum
    ensures CarryFromBit15(x, y) <==> Add16(x, y, 0).carryOut == 1
  {
  }

  /**
   * The half carry is bit 4 of x ^ y ^ (x + y): the carry into bit 4 is
   * what makes that bit of the sum differ from the operands' bits.
   */
  lemma HalfCarryIsBit4(x: bv16, y: bv16)
    ensures CarryFromBit3(x, y, 0) <==> (x ^ y ^ Plus(x, y)) & 0x10 != 0
  {
  }

  /** The half borrow of a subtraction is bit 4 of x ^ y ^ (x - y). */
  lemma HalfBorrowIsBit4(x: bv16, y: bv16)
    ensures BorrowIntoBit4(x, y, 0) <==> (x ^ y ^ Minus(x, y)) & 0x10 != 0
  {
  }
}
