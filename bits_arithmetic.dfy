/**
 * 8- and 16-bit addition and subtraction with carry or borrow out
 * (internal/bits/arithmetic.go). The carry-out is computed from the top
 * bits of the operands and the wrapped result, as in Go's math/bits.
 * The exact characterisations are stated in a bit-vector one bit wider
 * than the operands, where nothing wraps.
 */
module BitsArithmetic {

  datatype Sum8 = Sum8(sum: bv8, carryOut: bv8)
  datatype Sum16 = Sum16(sum: bv16, carryOut: bv16)

  /** x + y + carry, with the carry out of bit 7. */
  function Add8(x: bv8, y: bv8, carry: bv8): (r: Sum8)
    ensures r.carryOut <= 1
    ensures carry <= 1 ==>
      (r.carryOut == 1 <==> (x as bv9) + (y as bv9) + (carry as bv9) >= 0x100)
    ensures r.sum == (((x as bv9) + (y as bv9) + (carry as bv9)) & 0xFF) as bv8
  {
    var sum := x + y + carry;
    Sum8(sum, ((x & y) | ((x | y) & !sum)) >> 7)
  }

  /** x + y + carry, with the carry out of bit 15. */
  function Add16(x: bv16, y: bv16, carry: bv16): (r: Sum16)
    ensures r.carryOut <= 1
    ensures carry <= 1 ==>
      (r.carryOut == 1 <==> (x as bv17) + (y as bv17) + (carry as bv17) >= 0x10000)
    ensures r.sum == (((x as bv17) + (y as bv17) + (carry as bv17)) & 0xFFFF) as bv16
  {
    var sum := x + y + carry;
    Sum16(sum, ((x & y) | ((x | y) & !sum)) >> 15)
  }

  /** x - y - borrow, with the borrow into bit 7. */
  function Sub8(x: bv8, y: bv8, borrow: bv8): (r: Sum8)
    ensures r.carryOut <= 1
    ensures borrow <= 1 ==>
      (r.carryOut == 1 <==> (x as bv9) < (y as bv9) + (borrow as bv9))
    ensures r.sum == (((x as bv9) - (y as bv9) - (borrow as bv9)) & 0xFF) as bv8
  {
    var diff := x - y - borrow;
    Sum8(diff, ((!x & y) | (!(x ^ y) & diff)) >> 7)
  }

  /** x - y - borrow, with the borrow into bit 15. */
  function Sub16(x: bv16, y: bv16, borrow: bv16): (r: Sum16)
    ensures r.carryOut <= 1
    ensures r.sum == (((x as bv17) - (y as bv17) - (borrow as bv17)) & 0xFFFF) as bv16
  {
    var diff := x - y - borrow;
    Sum16(diff, ((!x & y) | (!(x ^ y) & diff)) >> 15)
  }

  /** The borrow formula's top bit is the sign bit of the 17-bit difference. */
  lemma BorrowBitIsSign(x: bv16, y: bv16, b: bv16)
    requires b <= 1
    ensures (((!x & y) | (!(x ^ y) & (x - y - b))) >> 15) as bv17
            == ((x as bv17) - (y as bv17) - (b as bv17)) >> 16
  {
  }

  /** The sign bit of the 17-bit difference is set exactly when it underflows. */
  lemma SignBitIsUnderflow(x: bv16, y: bv16, b: bv16)
    requires b <= 1
    ensures ((x as bv17) - (y as bv17) - (b as bv17)) >> 16 == 1
            <==> (x as bv17) < (y as bv17) + (b as bv17)
  {
  }

  /** Sub16 borrows out exactly when x < y + borrow. */
  lemma Sub16Borrow(x: bv16, y: bv16, borrow: bv16)
    requires borrow <= 1
    ensures Sub16(x, y, borrow).carryOut == 1 <==> (x as bv17) < (y as bv17) + (borrow as bv17)
  {
    BorrowBitIsSign(x, y, borrow);
    SignBitIsUnderflow(x, y, borrow);
  }

}
