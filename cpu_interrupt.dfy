/**
 * Interrupt types, priority, vectors and the interrupt master state of
 * pkg/cpu/interrupt.go. The predicates read IF (0xFF0F) and IE (0xFFFF)
 * through the memory the CPU sees.
 */
module CpuInterrupt {
  import opened Errors
  import opened CpuMemory

  /** InterruptType values: one bit each of IE and IF. */
  const VBLANK: bv8 := 1
  const LCD_STAT: bv8 := 2
  const TIMER: bv8 := 4
  const SERIAL: bv8 := 8
  const JOYPAD: bv8 := 16

  /** Pending change to the master enable, as recorded by EI and DI. */
  datatype MasterChange = MASTER_SET_NONE | MASTER_SET_NOW | MASTER_SET_NEXT

  /** The interrupt types in priority order, highest first. */
  const Interrupts: seq<bv8> := [VBLANK, LCD_STAT, TIMER, SERIAL, JOYPAD]

  /** The interruptsToAddress table; a type it has no entry for gives None. */
  function InterruptToAddress(it: bv8): (r: Option<bv16>)
    ensures r.Some? <==> it in Interrupts
  {
    if it == VBLANK then Some(0x40)
    else if it == LCD_STAT then Some(0x48)
    else if it == TIMER then Some(0x50)
    else if it == SERIAL then Some(0x58)
    else if it == JOYPAD then Some(0x60)
    else None
  }

  /** The Interrupt struct: the master enable and the pending EI/DI changes. */
  datatype Interrupt = Interrupt(masterEnabled: bool, ei: MasterChange, di: MasterChange)

  const IF_INTERRUPT_FLAG: bv16 := 0xFF0F
  const IE_INTERRUPT_ENABLE: bv16 := 0xFFFF

  /** InterruptRequested: some bit of IF is set, that is, IF flags some bit of a full mask. */
  predicate InterruptRequested(mem: Memory)
    ensures InterruptRequested(mem) <==> InterruptFlagged(mem, 0xFF)
  {
    mem(IF_INTERRUPT_FLAG) != 0
  }

  /** InterruptEnabled: IE has a bit of the type set; no bit of an empty type can be. */
  predicate InterruptEnabled(mem: Memory, it: bv8)
    ensures InterruptEnabled(mem, it) ==> it != 0 && mem(IE_INTERRUPT_ENABLE) != 0
  {
    mem(IE_INTERRUPT_ENABLE) & it != 0
  }

  /** InterruptFlagged: IF has a bit of the type set. */
  predicate InterruptFlagged(mem: Memory, it: bv8)
    ensures InterruptFlagged(mem, it) ==> it != 0 && mem(IF_INTERRUPT_FLAG) != 0
  {
    mem(IF_INTERRUPT_FLAG) & it != 0
  }

  /** InterruptTriggered: the type is both enabled and flagged, so an interrupt is requested. */
  predicate InterruptTriggered(mem: Memory, it: bv8)
    ensures InterruptTriggered(mem, it) ==> InterruptRequested(mem) && InterruptEnabled(mem, it)
  {
    InterruptEnabled(mem, it) && InterruptFlagged(mem, it)
  }

  /** The i-th type in priority order is bit i, so the types are distinct single bits. */
  lemma InterruptBits()
    ensures |Interrupts| == 5
    ensures forall i :: 0 <= i < |Interrupts| ==> Interrupts[i] == (1 as bv8) << i
    ensures forall i, j :: 0 <= i < j < |Interrupts| ==> Interrupts[i] & Interrupts[j] == 0
  {
  }

  /** The vector of the i-th type is 0x40 + 8i, so vectors rise with falling priority. */
  lemma InterruptVectors()
    ensures forall i :: 0 <= i < |Interrupts| ==>
      InterruptToAddress(Interrupts[i]) == Some(0x40 + 8 * (i as bv16))
    ensures forall i, j :: 0 <= i < j < |Interrupts| ==>
      InterruptToAddress(Interrupts[i]).value < InterruptToAddress(Interrupts[j]).value
  {
  }

  /** A triggered interrupt is always a requested one. */
  lemma TriggeredIsRequested(mem: Memory, it: bv8)
    ensures InterruptTriggered(mem, it) ==> InterruptRequested(mem)
  {
  }

  /** Some type is flagged exactly when one of the five low bits of IF is set. */
  lemma FlaggedTypes(mem: Memory)
    ensures (exists i :: 0 <= i < |Interrupts| && InterruptFlagged(mem, Interrupts[i]))
        <==> mem(IF_INTERRUPT_FLAG) & 0x1F != 0
  {
    var fl := mem(IF_INTERRUPT_FLAG);
    if fl & 0x1F != 0 {
      if fl & 1 != 0 { assert InterruptFlagged(mem, Interrupts[0]); }
      else if fl & 2 != 0 { assert InterruptFlagged(mem, Interrupts[1]); }
      else if fl & 4 != 0 { assert InterruptFlagged(mem, Interrupts[2]); }
      else if fl & 8 != 0 { assert InterruptFlagged(mem, Interrupts[3]); }
      else { assert InterruptFlagged(mem, Interrupts[4]); }
    }
  }
}
