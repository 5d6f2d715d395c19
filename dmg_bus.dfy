/**
 * The bus of pkg/dmg/bus.go: addresses below ROM_END (0x8000) go to the
 * cartridge of pkg/cart; everything else panics with "not implemented".
 * A write below ROM_END is handed to that cartridge, whose write is itself
 * "not implemented". The emulator record is reduced to its cartridge.
 */
module DmgBus {
  import opened Errors
  import Cart = CartCartridge

  const ROM_END: bv16 := 0x8000

  datatype Emulator = Emulator(cartridge: Cart.Cartridge)

  /** BusRead: the cartridge byte below ROM_END, "not implemented" from ROM_END up. */
  function BusRead(e: Emulator, address: bv16): (r: Result<bv8>)
    ensures address < ROM_END ==> r == Cart.Read(e.cartridge, address)
    ensures address >= ROM_END ==> r == Failure(NotImplemented)
  {
    if address < ROM_END then Cart.Read(e.cartridge, address) else Failure(NotImplemented)
  }

  /** BusWrite: never succeeds, always "not implemented". */
  function BusWrite(e: Emulator, address: bv16, value: bv8): (r: Outcome)
    ensures r == Fail(NotImplemented)
  {
    if address < ROM_END then Cart.Write(e.cartridge, address, value) else Fail(NotImplemented)
  }

  /** A ROM address inside the image reads the image's byte; past the image or from ROM_END up the read fails. */
  lemma BusReadsImage(e: Emulator, a: bv16)
    ensures a < ROM_END && (a as int) < |e.cartridge.data| ==> BusRead(e, a) == Success(e.cartridge.data[a])
    ensures (a as int) >= |e.cartridge.data| || a >= ROM_END ==> BusRead(e, a).Failure?
  {
  }
}
