/**
 * The LCD stub of pkg/mmu/lcd.go: it has no state; reading LY (0xFF44)
 * gives 0x90, any other read gives 0, and writes are dropped.
 */
module MmuLcd {

  datatype Lcd = Lcd

  const LY: bv16 := 0xFF44

  /** Read: 0x90 at LY, 0 elsewhere. */
  function Read(l: Lcd, address: bv16): (r: bv8)
    ensures r != 0 <==> address == LY
  {
    if address == LY then 0x90 else 0
  }

  /** Write: dropped. */
  function Write(l: Lcd, address: bv16, data: bv8): (r: Lcd)
    ensures forall b: bv16 :: Read(r, b) == Read(l, b)
  {
    l
  }

  /** What a read gives does not depend on any earlier write. */
  lemma ReadsIgnoreWrites(l: Lcd, a: bv16, b: bv16, data: bv8)
    ensures Read(Write(l, a, data), b) == Read(l, b)
    ensures Read(l, LY) == 0x90
  {
  }
}
