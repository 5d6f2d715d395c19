/**
 * The interrupt types of pkg/interrupt/types.go: one bit of IE and IF
 * each, listed in priority order, and the table of their vectors.
 */
module InterruptTypes {
  import opened Errors

  /** A Type is the byte holding its single bit. */
  type Type = bv8

  const VBLANK: Type := 1
  const LCD_STAT: Type := 2
  const TIMER: Type := 4
  const SERIAL: Type := 8
  const JOYPAD: Type := 16

  /** Types: highest priority first. */
  const Types: seq<Type> := [VBLANK, LCD_STAT, TIMER, SERIAL, JOYPAD]

  /** TypeToAddress: the vector the CPU jumps to for each type; a type the table lacks gives None. */
  function TypeToAddress(t: Type): (r: Option<bv16>)
    ensures r.Some? <==> t in Types
    ensures r.Some? ==> 0x40 <= r.value <= 0x60 && r.value & 7 == 0
  {
    if t == VBLANK then Some(0x40)
    else if t == LCD_STAT then Some(0x48)
    else if t == TIMER then Some(0x50)
    else if t == SERIAL then Some(0x58)
    else if t == JOYPAD then Some(0x60)
    else None
  }

  /** The i-th type is bit i, so no two types share a bit. */
  lemma TypesAreBits()
    ensures |Types| == 5
    ensures forall i :: 0 <= i < |Types| ==> Types[i] == (1 as bv8) << i
    ensures forall i, j :: 0 <= i < j < |Types| ==> Types[i] & Types[j] == 0
  {
  }

  /** Every listed type has a vector, the i-th being 0x40 + 8i, so vectors rise as priority falls. */
  lemma VectorsFollowPriority()
    ensures forall i :: 0 <= i < |Types| ==> TypeToAddress(Types[i]) == Some(0x40 + 8 * (i as bv16))
    ensures forall i, j :: 0 <= i < j < |Types| ==> TypeToAddress(Types[i]).value < TypeToAddress(Types[j]).value
  {
  }
}
