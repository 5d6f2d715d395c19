/**
 * The serial register block of pkg/mmu/serial.go: the transfer byte SB at
 * 0xFF01 and the control byte SC at 0xFF02. Any other address is a read
 * or write error, here `InvalidAddress`.
 */
module MmuSerial {
  import opened Errors

  const SB_SERIAL_TRANSFER: bv16 := 0xFF01
  const SC_SERIAL_CONTROL: bv16 := 0xFF02

  class Serial {
    var transfer: bv8
    var control: bv8

    /** newSerial: both registers 0. */
    constructor ()
      ensures transfer == 0 && control == 0
    {
      transfer := 0;
      control := 0;
    }

    /** Read: SB at 0xFF01, SC at 0xFF02, an error elsewhere. */
    function Read(address: bv16): (r: Result<bv8>)
      reads this
      ensures r.Success? <==> address == SB_SERIAL_TRANSFER || address == SC_SERIAL_CONTROL
      ensures address == SB_SERIAL_TRANSFER ==> r.value == transfer
      ensures address == SC_SERIAL_CONTROL ==> r.value == control
      ensures r.Failure? ==> r.error == InvalidAddress(address)
    {
      if address == SB_SERIAL_TRANSFER then Success(transfer)
      else if address == SC_SERIAL_CONTROL then Success(control)
      else Failure(InvalidAddress(address))
    }

    /** Write: stores into the register at the address only; any other address is an error and changes nothing. */
    method Write(address: bv16, data: bv8) returns (o: Outcome)
      modifies this
      ensures o.Pass? <==> address == SB_SERIAL_TRANSFER || address == SC_SERIAL_CONTROL
      ensures o.Fail? ==> o.error == InvalidAddress(address)
      ensures transfer == (if address == SB_SERIAL_TRANSFER then data else old(transfer))
      ensures control == (if address == SC_SERIAL_CONTROL then data else old(control))
      ensures o.Pass? ==> Read(address) == Success(data)
    {
      if address == SB_SERIAL_TRANSFER {
        transfer := data;
      } else if address == SC_SERIAL_CONTROL {
        control := data;
      } else {
        return Fail(InvalidAddress(address));
      }
      return Pass;
    }
  }
}
