/**
 * The RAM of pkg/cpu/ram.go: fixed arrays for work RAM (0x2000 bytes) and
 * high RAM (0x80 bytes). Only work RAM is addressed, from 0xC000; the
 * translation is a uint16 subtraction, so an address below 0xC000 wraps
 * high and is refused like one past 0xDFFF (a Go panic, here
 * `InvalidAddress`). High RAM is never read or written.
 */
module CpuRam {
  import opened Errors

  const WRAM_SIZE := 0x2000
  const HRAM_SIZE := 0x80
  const WRAM_START := 0xC000

  /** translateAddress: the uint16 distance from 0xC000, which must be below the work RAM size. */
  function TranslateAddress(address: bv16): (r: Result<nat>)
    ensures r.Success? <==> WRAM_START <= address as int < WRAM_START + WRAM_SIZE
    ensures r.Success? ==> r.value == address as int - WRAM_START
    ensures r.Failure? ==> r.error == InvalidAddress(address)
  {
    var internal := if address as int >= WRAM_START then address as int - WRAM_START
                    else address as int - WRAM_START + 0x10000;
    if internal >= WRAM_SIZE then Failure(InvalidAddress(address)) else Success(internal)
  }

  class RAM {
    const wram: array<bv8>
    const hram: array<bv8>

    predicate Valid()
    {
      wram.Length == WRAM_SIZE && hram.Length == HRAM_SIZE && wram != hram
    }

    /** The zero value of the struct: both arrays cleared. */
    constructor ()
      ensures Valid() && fresh(wram) && fresh(hram)
      ensures forall i :: 0 <= i < wram.Length ==> wram[i] == 0
      ensures forall i :: 0 <= i < hram.Length ==> hram[i] == 0
    {
      wram := new bv8[WRAM_SIZE](_ => 0);
      hram := new bv8[HRAM_SIZE](_ => 0);
    }

    /** Read8: the work RAM byte at the translated address. */
    function Read8(address: bv16): (r: Result<bv8>)
      requires Valid()
      reads wram
      ensures r.Success? <==> WRAM_START <= address as int < WRAM_START + WRAM_SIZE
      ensures r.Success? ==> r.value == wram[address as int - WRAM_START]
      ensures r.Failure? ==> r.error == InvalidAddress(address)
    {
      var t := TranslateAddress(address);
      if t.Failure? then Failure(t.error) else Success(wram[t.value])
    }

    /** Write8: stores the byte in the one work RAM cell the address selects; high RAM is untouched. */
    method Write8(address: bv16, value: bv8) returns (o: Outcome)
      requires Valid()
      modifies wram
      ensures o.Pass? <==> WRAM_START <= address as int < WRAM_START + WRAM_SIZE
      ensures o.Fail? ==> o.error == InvalidAddress(address) && wram[..] == old(wram[..])
      ensures o.Pass? ==> wram[..] == old(wram[..])[address as int - WRAM_START := value]
      ensures o.Pass? ==> Read8(address) == Success(value)
      ensures hram[..] == old(hram[..])
    {
      var t := TranslateAddress(address);
      if t.Failure? {
        return Fail(t.error);
      }
      wram[t.value] := value;
      return Pass;
    }
  }
}
