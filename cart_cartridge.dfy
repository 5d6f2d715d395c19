/**
 * The older cartridge record of pkg/cart/cartridge.go, which the bus of
 * pkg/dmg reads: the same image and length as pkg/cartridge, but a write
 * panics with "not implemented". HeaderChecksum and GlobalChecksum, which
 * this package's checksum code calls, are not modelled from pkg/cart; they
 * are given the offsets of pkg/cartridge.
 */
module CartCartridge {
  import opened Errors
  import opened BitsBitwise

  datatype Cartridge = Cartridge(data: seq<bv8>, size: int)
  {
    predicate Valid()
    {
      size == |data|
    }
  }

  /** FromBytes: wraps the image without copying it, with a nil error. */
  function FromBytes(data: seq<bv8>): (r: Result<Cartridge>)
    ensures r.Success? && r.value.Valid()
  {
    Success(Cartridge(data, |data|))
  }

  /** Read: the byte at the address, which must lie inside the image. */
  function Read(c: Cartridge, address: bv16): (r: Result<bv8>)
    ensures r.Success? <==> (address as int) < |c.data|
    ensures r.Failure? ==> r.error == IndexOutOfRange
    ensures r.Success? ==> r.value == c.data[address]
  {
    if (address as int) < |c.data| then Success(c.data[address]) else Failure(IndexOutOfRange)
  }

  /** Write: always "not implemented". */
  function Write(c: Cartridge, address: bv16, value: bv8): (r: Outcome)
    ensures r == Fail(NotImplemented)
  {
    Fail(NotImplemented)
  }

  /** The stored header checksum at 0x14D. */
  function HeaderChecksum(c: Cartridge): (r: Result<bv8>)
    ensures r.Success? <==> |c.data| > 0x14D
    ensures r.Success? ==> r.value == c.data[0x14D]
  {
    if |c.data| > 0x14D then Success(c.data[0x14D]) else Failure(IndexOutOfRange)
  }

  /** The stored global checksum: 0x14E is the high byte, 0x14F the low one. */
  function GlobalChecksum(c: Cartridge): (r: Result<bv16>)
    ensures r.Success? <==> |c.data| > 0x14F
    ensures r.Success? ==> Hi(r.value) == c.data[0x14E] && Lo(r.value) == c.data[0x14F]
  {
    if |c.data| > 0x14F then Success(To16(c.data[0x14E], c.data[0x14F])) else Failure(IndexOutOfRange)
  }

  /** Reading a cartridge made from an image gives back the image's bytes, and fails past its end. */
  lemma FromBytesThenRead(data: seq<bv8>, address: bv16)
    ensures (address as int) < |data| ==> Read(FromBytes(data).value, address) == Success(data[address])
    ensures (address as int) >= |data| ==> Read(FromBytes(data).value, address) == Failure(IndexOutOfRange)
  {
  }
}
