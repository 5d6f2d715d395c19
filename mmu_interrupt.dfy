/**
 * The IF/IE register block of pkg/mmu/interrupt.go: two bytes the bus
 * reads and writes at 0xFF0F and 0xFFFF. Any other address is a read or
 * write error, here `InvalidAddress`.
 */
module MmuInterrupt {
  import opened Errors

  const IF_INTERRUPT_FLAG: bv16 := 0xFF0F
  const IE_INTERRUPT_ENABLE: bv16 := 0xFFFF

  class Interrupt {
    var flag: bv8
    var enable: bv8

    /** newInterrupt: both registers 0. */
    constructor ()
      ensures flag == 0 && enable == 0
    {
      flag := 0;
      enable := 0;
    }

    /** Read: IF at 0xFF0F, IE at 0xFFFF, an error elsewhere. */
    function Read(address: bv16): (r: Result<bv8>)
      reads this
      ensures r.Success? <==> address == IF_INTERRUPT_FLAG || address == IE_INTERRUPT_ENABLE
      ensures address == IF_INTERRUPT_FLAG ==> r.value == flag
      ensures address == IE_INTERRUPT_ENABLE ==> r.value == enable
      ensures r.Failure? ==> r.error == InvalidAddress(address)
    {
      if address == IF_INTERRUPT_FLAG then Success(flag)
      else if address == IE_INTERRUPT_ENABLE then Success(enable)
      else Failure(InvalidAddress(address))
    }

    /** Write: stores into the register at the address only; any other address is an error and changes nothing. */
    method Write(address: bv16, data: bv8) returns (o: Outcome)
      modifies this
      ensures o.Pass? <==> address == IF_INTERRUPT_FLAG || address == IE_INTERRUPT_ENABLE
      ensures o.Fail? ==> o.error == InvalidAddress(address)
      ensures flag == (if address == IF_INTERRUPT_FLAG then data else old(flag))
      ensures enable == (if address == IE_INTERRUPT_ENABLE then data else old(enable))
      ensures o.Pass? ==> Read(address) == Success(data)
    {
      if address == IF_INTERRUPT_FLAG {
        flag := data;
      } else if address == IE_INTERRUPT_ENABLE {
        enable := data;
      } else {
        return Fail(InvalidAddress(address));
      }
      return Pass;
    }
  }
}
