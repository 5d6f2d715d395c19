/**
 * The cartridge record of pkg/cartridge/cartridge.go: the ROM image as a
 * byte slice and its length. Reading indexes the image (a Go index panic
 * past its end); writing is refused with a write error.
 *
 * A Go slice carries a capacity as well as a length, and a slice
 * expression such as `Data[a:b]` may reach past the length up to the
 * capacity, into the rest of the backing array; an index may not. `spare`
 * holds those backing-array bytes past the length. os.ReadFile, which
 * FromFile calls, typically leaves such bytes behind the image.
 */
module CartridgeCartridge {
  import opened Errors

  datatype Cartridge = Cartridge(data: seq<bv8>, size: int, spare: seq<bv8>)
  {
    /** The backing array of Data: the image, then the spare capacity. */
    function Backing(): seq<bv8>
    {
      data + spare
    }

    /** The record FromBytes builds: the size is the image's length. */
    predicate Valid()
    {
      size == |data|
    }
  }

  /**
   * FromBytes: wraps the image, with a nil error. The slice passed in is
   * `data` with the backing-array bytes `spare` beyond its length.
   */
  function FromBytes(data: seq<bv8>, spare: seq<bv8>): (r: Result<Cartridge>)
    ensures r.Success? && r.value.Valid()
    ensures r.Success? ==> r.value.data == data && r.value.spare == spare
  {
    Success(Cartridge(data, |data|, spare))
  }

  /** Read: the byte at the address, which must lie inside the image. */
  function Read(c: Cartridge, address: bv16): (r: Result<bv8>)
    ensures r.Success? <==> (address as int) < |c.data|
    ensures r.Failure? ==> r.error == IndexOutOfRange
    ensures r.Success? ==> r.value == c.data[address]
  {
    if (address as int) < |c.data| then Success(c.data[address]) else Failure(IndexOutOfRange)
  }

  /** Write: always the write error for the address; the cartridge has no state to change. */
  function Write(c: Cartridge, address: bv16, value: bv8): (r: Outcome)
    ensures r.Fail? && r.error.InvalidAddress? && r.error.address == address
  {
    Fail(InvalidAddress(address))
  }

  /** Reading a cartridge made from an image gives back the image's bytes, and fails past its end. */
  lemma FromBytesThenRead(data: seq<bv8>, spare: seq<bv8>, address: bv16)
    ensures (address as int) < |data| ==> Read(FromBytes(data, spare).value, address) == Success(data[address])
    ensures (address as int) >= |data| ==> Read(FromBytes(data, spare).value, address) == Failure(IndexOutOfRange)
    ensures FromBytes(data, spare).value.size == |data|
  {
  }
}
