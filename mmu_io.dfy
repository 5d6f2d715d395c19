/**
 * The older serial block of pkg/mmu/io.go: a two-byte array whose cells
 * the bus reads and writes at 0xFF01 and 0xFF02. Any other address is a
 * read or write error, here `InvalidAddress`.
 */
module MmuIo {
  import opened Errors

  const SB_SERIAL_TRANSFER: bv16 := 0xFF01
  const SC_SERIAL_CONTROL: bv16 := 0xFF02

  /** The cell of serialData an address selects, if any. */
  function CellOf(address: bv16): (r: Option<nat>)
    ensures r.Some? <==> address == SB_SERIAL_TRANSFER || address == SC_SERIAL_CONTROL
    ensures r.Some? ==> r.value < 2 && (r.value == 0 <==> address == SB_SERIAL_TRANSFER)
  {
    if address == SB_SERIAL_TRANSFER then Some(0)
    else if address == SC_SERIAL_CONTROL then Some(1)
    else None
  }

  class Io {
    const serialData: array<bv8>

    predicate Valid()
    {
      serialData.Length == 2
    }

    /** newIO: both cells 0. */
    constructor ()
      ensures Valid() && fresh(serialData) && serialData[..] == [0, 0]
    {
      serialData := new bv8[2](_ => 0);
    }

    /** Read: cell 0 at 0xFF01, cell 1 at 0xFF02, an error elsewhere. */
    function Read(address: bv16): (r: Result<bv8>)
      requires Valid()
      reads serialData
      ensures r.Success? <==> CellOf(address).Some?
      ensures r.Success? ==> r.value == serialData[CellOf(address).value]
      ensures r.Failure? ==> r.error == InvalidAddress(address)
    {
      if address == SB_SERIAL_TRANSFER then Success(serialData[0])
      else if address == SC_SERIAL_CONTROL then Success(serialData[1])
      else Failure(InvalidAddress(address))
    }

    /** Write: updates the addressed cell only; any other address is an error and changes nothing. */
    method Write(address: bv16, data: bv8) returns (o: Outcome)
      requires Valid()
      modifies serialData
      ensures o.Pass? <==> CellOf(address).Some?
      ensures o.Fail? ==> o.error == InvalidAddress(address) && serialData[..] == old(serialData[..])
      ensures o.Pass? ==> serialData[..] == old(serialData[..])[CellOf(address).value := data]
      ensures o.Pass? ==> Read(address) == Success(data)
    {
      if address == SB_SERIAL_TRANSFER {
        serialData[0] := data;
      } else if address == SC_SERIAL_CONTROL {
        serialData[1] := data;
      } else {
        return Fail(InvalidAddress(address));
      }
      return Pass;
    }
  }
}
