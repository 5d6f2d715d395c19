/**
 * The interrupt state of pkg/interrupt/interrupt.go: the master enable,
 * the pending EI/DI changes and the IF and IE registers, which the bus
 * reads and writes at their addresses. A read or write at any other
 * address is a read or write error, here `InvalidAddress`.
 *
 * FLAG_ADDRESS and ENABLE_ADDRESS are the IF and IE addresses, 0xFF0F
 * and 0xFFFF.
 */
module InterruptInterrupt {
  import opened Errors
  import opened InterruptTypes

  /** InterruptMasterChange: the pending change to the master enable. */
  datatype MasterChange = MASTER_SET_NONE | MASTER_SET_NOW | MASTER_SET_NEXT

  const FLAG_ADDRESS: bv16 := 0xFF0F
  const ENABLE_ADDRESS: bv16 := 0xFFFF

  class Interrupt {
    var masterEnabled: bool
    var ei: MasterChange
    var di: MasterChange
    var flag: bv8
    var enable: bv8

    /** New: master disabled, nothing pending, IF and IE clear. */
    constructor ()
      ensures !masterEnabled && ei == MASTER_SET_NONE && di == MASTER_SET_NONE
      ensures flag == 0 && enable == 0
    {
      masterEnabled := false;
      ei := MASTER_SET_NONE;
      di := MASTER_SET_NONE;
      flag := 0;
      enable := 0;
    }

    /** Read: IF at the flag address, IE at the enable address, an error elsewhere. */
    function Read(address: bv16): (r: Result<bv8>)
      reads this
      ensures r.Success? <==> address == FLAG_ADDRESS || address == ENABLE_ADDRESS
      ensures address == FLAG_ADDRESS ==> r.value == flag
      ensures address == ENABLE_ADDRESS ==> r.value == enable
      ensures r.Failure? ==> r.error == InvalidAddress(address)
    {
      if address == FLAG_ADDRESS then Success(flag)
      else if address == ENABLE_ADDRESS then Success(enable)
      else Failure(InvalidAddress(address))
    }

    /** Write: stores into IF or IE and nothing else; any other address is an error and changes nothing. */
    method Write(address: bv16, data: bv8) returns (o: Outcome)
      modifies this
      ensures o.Pass? <==> address == FLAG_ADDRESS || address == ENABLE_ADDRESS
      ensures o.Fail? ==> o.error == InvalidAddress(address)
      ensures flag == (if address == FLAG_ADDRESS then data else old(flag))
      ensures enable == (if address == ENABLE_ADDRESS then data else old(enable))
      ensures masterEnabled == old(masterEnabled) && ei == old(ei) && di == old(di)
      ensures o.Pass? ==> Read(address) == Success(data)
    {
      if address == FLAG_ADDRESS {
        flag := data;
      } else if address == ENABLE_ADDRESS {
        enable := data;
      } else {
        return Fail(InvalidAddress(address));
      }
      return Pass;
    }

    /** Requested: some bit of IF is set. */
    predicate Requested()
      reads this
      ensures Requested() <==> Flagged(0xFF)
    {
      flag != 0
    }

    /** Enabled: the type's bit is set in IE. */
    predicate Enabled(t: Type)
      reads this
      ensures Enabled(t) ==> t != 0 && enable != 0
    {
      enable & t != 0
    }

    /** Flagged: the type's bit is set in IF. */
    predicate Flagged(t: Type)
      reads this
      ensures Flagged(t) ==> t != 0 && flag != 0
    {
      flag & t != 0
    }

    /** Triggered: the type is both enabled and flagged. */
    predicate Triggered(t: Type)
      reads this
      ensures Triggered(t) ==> Requested() && Enabled(t)
    {
      Enabled(t) && Flagged(t)
    }
  }

  /** A triggered type is requested, and so is any flagged type. */
  lemma TriggeredIsRequested(i: Interrupt, t: Type)
    ensures i.Triggered(t) ==> i.Flagged(t) && i.Requested()
  {
  }

  /**
   * For one of the five types, Triggered depends only on the two register
   * bytes: the type's bit must be set in their conjunction. A mask of
   * several bits is not so: 0x03 is triggered by IE = 0x01, IF = 0x02.
   */
  lemma TriggeredSingleBit(i: Interrupt, t: Type)
    ensures t in Types ==> (i.Triggered(t) <==> i.enable & i.flag & t != 0)
    ensures i.enable == 0x01 && i.flag == 0x02 ==> i.Triggered(0x03) && i.enable & i.flag & 0x03 == 0
  {
  }

  /** With only the types' five bits in IF, a request means some listed type is flagged. */
  lemma RequestedMeansSomeType(i: Interrupt)
    requires i.flag & 0xE0 == 0
    ensures i.Requested() <==> exists k :: 0 <= k < |Types| && i.Flagged(Types[k])
  {
    var f := i.flag;
    if f != 0 {
      if f & 1 != 0 { assert i.Flagged(Types[0]); }
      else if f & 2 != 0 { assert i.Flagged(Types[1]); }
      else if f & 4 != 0 { assert i.Flagged(Types[2]); }
      else if f & 8 != 0 { assert i.Flagged(Types[3]); }
      else { assert i.Flagged(Types[4]); }
    }
  }
}
