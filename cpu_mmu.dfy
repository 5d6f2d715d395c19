/**
 * The older bus of pkg/cpu/mmu.go: addresses below ROM_END (0x8000) go to
 * the cartridge of pkg/cartridge; everything else panics with "not
 * implemented". A write below ROM_END is handed to the cartridge, which
 * refuses it with its write error; a write elsewhere is "not implemented".
 */
module CpuMmu {
  import opened Errors
  import Cart = CartridgeCartridge

  const ROM_END: bv16 := 0x8000

  datatype MMU = MMU(cartridge: Cart.Cartridge)

  /** read: the cartridge byte below ROM_END, "not implemented" from ROM_END up. */
  function Read(m: MMU, address: bv16): (r: Result<bv8>)
    ensures address < ROM_END ==> r == Cart.Read(m.cartridge, address)
    ensures address >= ROM_END ==> r == Failure(NotImplemented)
  {
    if address < ROM_END then Cart.Read(m.cartridge, address) else Failure(NotImplemented)
  }

  /** write: never succeeds; the cartridge's write error below ROM_END, "not implemented" above. */
  function Write(m: MMU, address: bv16, value: bv8): (r: Outcome)
    ensures r.Fail?
    ensures address < ROM_END <==> r.error.InvalidAddress?
    ensures address >= ROM_END ==> r.error == NotImplemented
  {
    if address < ROM_END then Cart.Write(m.cartridge, address, value) else Fail(NotImplemented)
  }

  /** 0x7FFF is the last address handed to the cartridge; a ROM address inside the image reads its byte. */
  lemma RomBoundary(m: MMU, a: bv16)
    ensures Read(m, 0x7FFF) == Cart.Read(m.cartridge, 0x7FFF)
    ensures Read(m, 0x8000) == Failure(NotImplemented)
    ensures a < ROM_END && (a as int) < |m.cartridge.data| ==> Read(m, a) == Success(m.cartridge.data[a])
  {
  }
}
