/**
 * The timer block of pkg/timer/timer.go: the 16-bit divider DIV, the
 * counter TIMA, its reload value TMA and the control byte TAC. Every Tick
 * advances DIV; the low two bits of TAC choose a bit of DIV whose falling
 * edge is meant to advance TIMA while bit 2 of TAC enables the timer, and
 * an overflowing TIMA reloads from TMA and calls the interrupt callback.
 *
 * The callback is foreign code; a tick returns whether it would be called.
 * DIV_ADDRESS..TAC_ADDRESS are the timer's addresses 0xFF04..0xFF07.
 */
module TimerTimer {
  import opened Errors
  import opened BitsBitwise
  import opened CpuArith

  const DIV_ADDRESS: bv16 := 0xFF04
  const TIMA_ADDRESS: bv16 := 0xFF05
  const TMA_ADDRESS: bv16 := 0xFF06
  const TAC_ADDRESS: bv16 := 0xFF07

  /** The four timer registers as values. */
  datatype Registers = Registers(div: bv16, tima: bv8, tma: bv8, tac: bv8)

  /** The registers after a tick, and whether the interrupt callback is called. */
  datatype Ticked = Ticked(regs: Registers, interrupt: bool)

  /** The DIV bit the clock select (TAC bits 1..0) watches: 00 → 9, 01 → 3, 10 → 5, 11 → 7. */
  function ClockBit(tac: bv8): (bit: nat)
    ensures bit == 3 || bit == 5 || bit == 7 || bit == 9
    ensures tac & 3 == 0 <==> bit == 9
    ensures tac & 3 == 1 <==> bit == 3
  {
    var select := tac & 3;
    if select == 0 then 9
    else if select == 1 then 3
    else if select == 2 then 5
    else 7
  }

  /** checkBit as written: the previous value's bit, a power of two, compared with 1. */
  predicate CheckBitAsWritten(prev: bv16, current: bv16, bit: nat)
    requires bit < 16
    ensures CheckBitAsWritten(prev, current, bit) ==> FallingEdge(prev, current, bit)
  {
    prev & (1 << bit) == 1 && current & (1 << bit) == 0
  }

  /** The falling edge checkBit is documented to detect: set before, clear now. */
  predicate FallingEdge(prev: bv16, current: bv16, bit: nat)
    requires bit < 16
  {
    prev & (1 << bit) != 0 && current & (1 << bit) == 0
  }

  /** Bit 2 of TAC as written: `TAC & (1 << 2) == 1`. */
  predicate EnabledAsWritten(tac: bv8)
    ensures EnabledAsWritten(tac) ==> Enabled(tac)
  {
    tac & 4 == 1
  }

  /** Bit 2 of TAC, the timer enable. */
  predicate Enabled(tac: bv8)
    ensures Enabled(tac) <==> (tac >> 2) & 1 == 1
  {
    tac & 4 != 0
  }

  /** TIMA's step: one more, or on overflow the reload value and an interrupt. */
  function Count(t: Registers, div: bv16): (r: Ticked)
    ensures r.interrupt <==> t.tima == 0xFF
    ensures r.regs.tima == (if t.tima == 0xFF then t.tma else t.tima + 1)
    ensures r.regs.div == div && r.regs.tma == t.tma && r.regs.tac == t.tac
  {
    if t.tima == 0xFF then Ticked(t.(div := div, tima := t.tma), true)
    else Ticked(t.(div := div, tima := t.tima + 1), false)
  }

  /**
   * Tick as written. Since the edge and enable tests compare a single set
   * bit with 1, it only ever advances DIV.
   */
  function TickAsWritten(t: Registers): (r: Ticked)
    ensures r.regs == t.(div := Plus(t.div, 1)) && !r.interrupt
  {
    var next := Plus(t.div, 1);
    CheckBitNeverHolds(t.div, next, ClockBit(t.tac));
    if CheckBitAsWritten(t.div, next, ClockBit(t.tac)) && EnabledAsWritten(t.tac) then Count(t, next)
    else Ticked(t.(div := next), false)
  }

  /** Tick as documented: TIMA counts on a falling edge of the selected DIV bit while the timer is enabled. */
  function TickIntended(t: Registers): (r: Ticked)
    ensures r.regs.div == Plus(t.div, 1) && r.regs.tma == t.tma && r.regs.tac == t.tac
    ensures !Enabled(t.tac) ==> r.regs == t.(div := Plus(t.div, 1)) && !r.interrupt
    ensures r.interrupt ==> t.tima == 0xFF && r.regs.tima == t.tma
  {
    var next := Plus(t.div, 1);
    if FallingEdge(t.div, next, ClockBit(t.tac)) && Enabled(t.tac) then Count(t, next)
    else Ticked(t.(div := next), false)
  }

  /** For every bit but bit 0 the mask is even, so `prev & mask == 1` never holds. */
  lemma CheckBitNeverHolds(prev: bv16, current: bv16, bit: nat)
    requires 1 <= bit < 16
    ensures !CheckBitAsWritten(prev, current, bit)
  {
    assert ((1 as bv16) << bit) & 1 == 0;
  }

  /** The enable test as written never holds either: `TAC & 4` is 0 or 4. */
  lemma EnabledAsWrittenNeverHolds(tac: bv8)
    ensures !EnabledAsWritten(tac)
    ensures Enabled(tac) <==> tac & 4 == 4
  {
  }

  /**
   * Counting DIV up, the selected bit falls exactly when the new DIV is a
   * multiple of twice that bit: every 1024, 16, 64 or 256 ticks.
   */
  lemma FallingEdgePeriod(div: bv16, tac: bv8)
    ensures FallingEdge(div, Plus(div, 1), ClockBit(tac)) <==> Plus(div, 1) & ((2 << ClockBit(tac)) - 1) == 0
  {
    var next := Plus(div, 1);
    if ClockBit(tac) == 9 {
      assert FallingEdge(div, next, 9) <==> next & 0x3FF == 0;
    } else if ClockBit(tac) == 3 {
      assert FallingEdge(div, next, 3) <==> next & 0xF == 0;
    } else if ClockBit(tac) == 5 {
      assert FallingEdge(div, next, 5) <==> next & 0x3F == 0;
    } else {
      assert FallingEdge(div, next, 7) <==> next & 0xFF == 0;
    }
  }

  /** An enabled timer counts at a falling edge: TIMA steps, or reloads and interrupts on overflow. */
  lemma IntendedCountsOnEdge(t: Registers)
    requires Enabled(t.tac) && FallingEdge(t.div, Plus(t.div, 1), ClockBit(t.tac))
    ensures TickIntended(t) == Count(t, Plus(t.div, 1))
    ensures t.tima == 0xFF ==> TickIntended(t).interrupt && TickIntended(t).regs.tima == t.tma
    ensures t.tima != 0xFF ==> !TickIntended(t).interrupt && TickIntended(t).regs.tima == t.tima + 1
  {
  }

  /**
   * DIV = 0x000F with TAC = 0x05 (enabled, bit 3): the tick takes bit 3
   * from set to clear, so TIMA should count; as written it does not.
   */
  lemma TickMissesEdge()
    ensures TickAsWritten(Registers(0x000F, 0, 0, 0x05)).regs.tima == 0
    ensures TickIntended(Registers(0x000F, 0, 0, 0x05)).regs.tima == 1
  {
    assert FallingEdge(0x000F, 0x0010, 3);
  }

  class Timer {
    var div: bv16
    var tima: bv8
    var tma: bv8
    var tac: bv8

    function Regs(): Registers
      reads this
    {
      Registers(div, tima, tma, tac)
    }

    /** New: DIV starts at 0xAC00 and the other registers at 0. */
    constructor ()
      ensures Regs() == Registers(0xAC00, 0, 0, 0)
    {
      div := 0xAC00;
      tima := 0;
      tma := 0;
      tac := 0;
    }

    /**
     * Tick: advances DIV and counts TIMA on a falling edge of the selected
     * DIV bit while the timer is enabled; `interrupt` says whether the
     * callback runs. The edge and enable tests are the corrected ones (see
     * TickAsWritten for the comparisons as written).
     */
    method Tick() returns (interrupt: bool)
      modifies this
      ensures Ticked(Regs(), interrupt) == TickIntended(old(Regs()))
    {
      var prevDiv := div;
      div := Plus(div, 1);
      var timerUpdate := FallingEdge(prevDiv, div, ClockBit(tac));
      interrupt := false;
      var counted := tima;
      if timerUpdate && Enabled(tac) {
        if tima == 0xFF {
          counted := tma;
          interrupt := true;
        } else {
          counted := tima + 1;
        }
      }
      tima := counted;
    }

    /** Read: the high byte of DIV, or TIMA, TMA or TAC; an error at any other address. */
    function Read(address: bv16): (r: Result<bv8>)
      reads this
      ensures r.Success? <==> DIV_ADDRESS <= address <= TAC_ADDRESS
      ensures address == DIV_ADDRESS ==> r == Success(Hi(div))
      ensures address == TIMA_ADDRESS ==> r == Success(tima)
      ensures address == TMA_ADDRESS ==> r == Success(tma)
      ensures address == TAC_ADDRESS ==> r == Success(tac)
      ensures r.Failure? ==> r.error == InvalidAddress(address)
    {
      if address == DIV_ADDRESS then Success(Hi(div))
      else if address == TIMA_ADDRESS then Success(tima)
      else if address == TMA_ADDRESS then Success(tma)
      else if address == TAC_ADDRESS then Success(tac)
      else Failure(InvalidAddress(address))
    }

    /** Write: any write to DIV clears it; TIMA, TMA and TAC take the data; other addresses fail and change nothing. */
    method Write(address: bv16, data: bv8) returns (o: Outcome)
      modifies this
      ensures o.Pass? <==> DIV_ADDRESS <= address <= TAC_ADDRESS
      ensures o.Fail? ==> o.error == InvalidAddress(address) && Regs() == old(Regs())
      ensures address == DIV_ADDRESS ==> Regs() == old(Regs()).(div := 0)
      ensures address == TIMA_ADDRESS ==> Regs() == old(Regs()).(tima := data)
      ensures address == TMA_ADDRESS ==> Regs() == old(Regs()).(tma := data)
      ensures address == TAC_ADDRESS ==> Regs() == old(Regs()).(tac := data)
    {
      if address == DIV_ADDRESS {
        div := 0;
      } else if address == TIMA_ADDRESS {
        tima := data;
      } else if address == TMA_ADDRESS {
        tma := data;
      } else if address == TAC_ADDRESS {
        tac := data;
      } else {
        return Fail(InvalidAddress(address));
      }
      return Pass;
    }
  }

  /** After DIV is written, whatever the data, it reads back 0; after a tick as written it reads DIV's new high byte. */
  lemma DivResetAndTick(t: Registers)
    ensures Hi(t.(div := 0).div) == 0
    ensures Hi(TickAsWritten(t).regs.div) == Hi(Plus(t.div, 1))
    ensures TickAsWritten(t).regs.tima == t.tima && TickAsWritten(t).regs.tac == t.tac
  {
  }
}
