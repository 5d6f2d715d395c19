/**
 * The memory map of pkg/mmu/map.go: inclusive address ranges and the
 * router that hands an address to the region serving it. Ranges are
 * tried in order and the first that contains the address wins; the two
 * reserved ranges and addresses in no range are access errors, here
 * `InvalidAddress`. Every no-op region gets a fresh, non-debugging no-op.
 */
module MmuMap {
  import opened Errors

  /** Range: Start and End, both included. */
  datatype Range = Range(start: bv16, end: bv16)
  {
    /** Contains: start <= addr <= end. */
    predicate Contains(addr: bv16)
    {
      start <= addr && addr <= end
    }
  }

  const ROMRange := Range(0x0000, 0x7FFF)
  const CharMapRange := Range(0x8000, 0x9FFF)
  const CartRAMRange := Range(0xA000, 0xBFFF)
  const WRAMRange := Range(0xC000, 0xDFFF)
  const RESERVED_EchoRamRange := Range(0xE000, 0xFDFF)
  const OAMRange := Range(0xFE00, 0xFE9F)
  const RESERVED_UnusableRange := Range(0xFEA0, 0xFEFF)
  const JobpadInputRange := Range(0xFF00, 0xFF00)
  const SerialTransferRange := Range(0xFF01, 0xFF02)
  const TimerDividerRange := Range(0xFF04, 0xFF07)
  const InterruptFlagRange := Range(0xFF0F, 0xFF0F)
  const AudioRange := Range(0xFF10, 0xFF3F)
  const LCDRange := Range(0xFF40, 0xFF4B)
  const ColorSpeedSwitchRange := Range(0xFF4D, 0xFF4D)
  const VRAMBankSelectRange := Range(0xFF4F, 0xFF4F)
  const DisableBootRomRange := Range(0xFF50, 0xFF50)
  const VRAMDMARange := Range(0xFF51, 0xFF55)
  /** Declared with the bounds of the VRAM DMA range, not 0xFF68..0xFF69. */
  const BgObjPaletteRange := Range(0xFF51, 0xFF55)
  /** Declared with the bounds of the boot-ROM range, not 0xFF70. */
  const WRAMBankSelectRange := Range(0xFF50, 0xFF50)
  const HRAMRange := Range(0xFF80, 0xFFFE)
  const InterruptEnableRange := Range(0xFFFF, 0xFFFF)

  /** The region readerWriterFor hands an address to. */
  datatype Handler = ToCartridge | ToNoop | ToWram | ToHram | ToSerial | ToInterrupt

  /** readerWriterFor: the first range holding the address decides; reserved and unmapped addresses fail. */
  function ReaderWriterFor(addr: bv16): (r: Result<Handler>)
    ensures r.Failure? ==> r.error == InvalidAddress(addr)
  {
    if ROMRange.Contains(addr) then Success(ToCartridge)
    else if CharMapRange.Contains(addr) then Success(ToNoop)
    else if CartRAMRange.Contains(addr) then Success(ToCartridge)
    else if WRAMRange.Contains(addr) then Success(ToWram)
    else if RESERVED_EchoRamRange.Contains(addr) then Failure(InvalidAddress(addr))
    else if OAMRange.Contains(addr) then Success(ToNoop)
    else if RESERVED_UnusableRange.Contains(addr) then Failure(InvalidAddress(addr))
    else if JobpadInputRange.Contains(addr) then Success(ToNoop)
    else if SerialTransferRange.Contains(addr) then Success(ToSerial)
    else if TimerDividerRange.Contains(addr) then Success(ToNoop)
    else if InterruptFlagRange.Contains(addr) then Success(ToInterrupt)
    else if AudioRange.Contains(addr) then Success(ToNoop)
    else if LCDRange.Contains(addr) then Success(ToNoop)
    else if ColorSpeedSwitchRange.Contains(addr) then Success(ToNoop)
    else if VRAMBankSelectRange.Contains(addr) then Success(ToNoop)
    else if DisableBootRomRange.Contains(addr) then Success(ToNoop)
    else if VRAMDMARange.Contains(addr) then Success(ToNoop)
    else if BgObjPaletteRange.Contains(addr) then Success(ToNoop)
    else if WRAMBankSelectRange.Contains(addr) then Success(ToNoop)
    else if HRAMRange.Contains(addr) then Success(ToHram)
    else if InterruptEnableRange.Contains(addr) then Success(ToInterrupt)
    else Failure(InvalidAddress(addr))
  }

  /** The addresses the router refuses: the two reserved ranges and the gaps between declared ranges. */
  predicate Unmapped(addr: bv16)
  {
    || 0xE000 <= addr <= 0xFDFF
    || 0xFEA0 <= addr <= 0xFEFF
    || addr == 0xFF03
    || 0xFF08 <= addr <= 0xFF0E
    || addr == 0xFF4C
    || addr == 0xFF4E
    || 0xFF56 <= addr <= 0xFF7F
  }

  /** The cartridge serves ROM and cartridge RAM. */
  lemma RoutesToCartridge(addr: bv16)
    ensures ReaderWriterFor(addr) == Success(ToCartridge) <==> addr <= 0x7FFF || 0xA000 <= addr <= 0xBFFF
  {
  }

  /** Work RAM serves 0xC000..0xDFFF and high RAM 0xFF80..0xFFFE. */
  lemma RoutesToRam(addr: bv16)
    ensures ReaderWriterFor(addr) == Success(ToWram) <==> 0xC000 <= addr <= 0xDFFF
    ensures ReaderWriterFor(addr) == Success(ToHram) <==> 0xFF80 <= addr <= 0xFFFE
  {
  }

  /** The serial block serves 0xFF01..0xFF02; the interrupt block serves IF at 0xFF0F and IE at 0xFFFF. */
  lemma RoutesToRegisters(addr: bv16)
    ensures ReaderWriterFor(addr) == Success(ToSerial) <==> 0xFF01 <= addr <= 0xFF02
    ensures ReaderWriterFor(addr) == Success(ToInterrupt) <==> addr == 0xFF0F || addr == 0xFFFF
  {
  }

  /** The router fails exactly on the reserved ranges and the gaps. */
  lemma RefusesUnmapped(addr: bv16)
    ensures ReaderWriterFor(addr).Failure? <==> Unmapped(addr)
  {
  }

  /** The distinct declared ranges are non-empty and each ends before the next begins, so they are pairwise disjoint and only the two repeats depend on the order of the tests. */
  lemma RangesInOrder()
    ensures ROMRange.start <= ROMRange.end < CharMapRange.start <= CharMapRange.end
    ensures CharMapRange.end < CartRAMRange.start <= CartRAMRange.end < WRAMRange.start <= WRAMRange.end
    ensures WRAMRange.end < RESERVED_EchoRamRange.start <= RESERVED_EchoRamRange.end < OAMRange.start <= OAMRange.end
    ensures OAMRange.end < RESERVED_UnusableRange.start <= RESERVED_UnusableRange.end < JobpadInputRange.start
    ensures JobpadInputRange.start <= JobpadInputRange.end < SerialTransferRange.start <= SerialTransferRange.end
    ensures SerialTransferRange.end < TimerDividerRange.start <= TimerDividerRange.end < InterruptFlagRange.start
    ensures InterruptFlagRange.start <= InterruptFlagRange.end < AudioRange.start <= AudioRange.end < LCDRange.start
    ensures LCDRange.start <= LCDRange.end < ColorSpeedSwitchRange.start <= ColorSpeedSwitchRange.end
    ensures ColorSpeedSwitchRange.end < VRAMBankSelectRange.start <= VRAMBankSelectRange.end < DisableBootRomRange.start
    ensures DisableBootRomRange.start <= DisableBootRomRange.end < VRAMDMARange.start <= VRAMDMARange.end < HRAMRange.start
    ensures HRAMRange.start <= HRAMRange.end < InterruptEnableRange.start <= InterruptEnableRange.end
  {
  }

  /** The palette and WRAM-bank tests repeat earlier ranges and never decide; their documented addresses are refused. */
  lemma RepeatedRangesNeverMatch()
    ensures BgObjPaletteRange == VRAMDMARange && WRAMBankSelectRange == DisableBootRomRange
    ensures ReaderWriterFor(0xFF68).Failure? && ReaderWriterFor(0xFF69).Failure? && ReaderWriterFor(0xFF70).Failure?
  {
  }

  /** The timer's registers go to a no-op, not to the timer: reads give 0 and writes are dropped. */
  lemma TimerRangeIsNoop(addr: bv16)
    requires TimerDividerRange.Contains(addr)
    ensures ReaderWriterFor(addr) == Success(ToNoop)
  {
  }
}
