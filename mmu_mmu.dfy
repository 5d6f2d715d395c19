/**
 * The memory bus of pkg/mmu/mmu.go: it owns the work and high RAM and the
 * serial registers, shares the cartridge, the interrupt state and the
 * timer, and hands every access to the region the memory map routes the
 * address to. A routing failure, a cartridge write and an out-of-image
 * cartridge read are panics in the source and errors here; a 16-bit access
 * is two byte accesses, low byte first, the second at the wrapped next
 * address.
 *
 * The state the bus can change is also given as a value, `Bus`, with
 * `ReadByte`, `WriteByte`, `ReadWord` and `WriteWord` over it; the class's
 * methods are proved to act as those functions do, and the properties of
 * the bus are proved about the functions.
 */
module MmuMmu {
  import opened Errors
  import opened BitsBitwise
  import opened CpuArith
  import Cart = CartridgeCartridge
  import opened MmuMap
  import MmuRam
  import MmuSerial
  import MmuLcd
  import MmuNoop
  import InterruptInterrupt
  import TimerTimer

  /** The bus state a write can change: both RAM regions, SB and SC, IF and IE. */
  datatype Bus = Bus(wram: seq<bv8>, hram: seq<bv8>, transfer: bv8, control: bv8, flag: bv8, enable: bv8)
  {
    /** The regions have their own sizes. */
    predicate Valid()
    {
      |wram| == MmuRam.WRAM_SIZE && |hram| == MmuRam.HRAM_SIZE
    }
  }

  /** The accesses a write can complete: routed, and not to the read-only cartridge. */
  predicate Writable(address: bv16)
  {
    ReaderWriterFor(address).Success? && ReaderWriterFor(address).value != ToCartridge
  }

  /** What the region a read is routed to gives: the cartridge's byte, 0 from a no-op, a RAM cell or a register. */
  function ReadFrom(cart: Cart.Cartridge, b: Bus, h: Handler, address: bv16): (r: Result<bv8>)
    requires b.Valid()
    ensures h == ToNoop ==> r == Success(0)
    ensures r.Failure? ==> r.error == InvalidAddress(address) || (r.error == IndexOutOfRange && h == ToCartridge)
  {
    match h
    case ToCartridge => Cart.Read(cart, address)
    case ToNoop => Success(MmuNoop.Read(MmuNoop.NewNoop(false), address))
    case ToWram => MmuRam.ReadCell(b.wram, MmuRam.WRAM_OFFSET, MmuRam.WRAM_SIZE, address)
    case ToHram => MmuRam.ReadCell(b.hram, MmuRam.HRAM_OFFSET, MmuRam.HRAM_SIZE, address)
    case ToSerial =>
      if address == MmuSerial.SB_SERIAL_TRANSFER then Success(b.transfer)
      else if address == MmuSerial.SC_SERIAL_CONTROL then Success(b.control)
      else Failure(InvalidAddress(address))
    case ToInterrupt =>
      if address == InterruptInterrupt.FLAG_ADDRESS then Success(b.flag)
      else if address == InterruptInterrupt.ENABLE_ADDRESS then Success(b.enable)
      else Failure(InvalidAddress(address))
  }

  /** Read8 on a bus value: the routed region's byte, or an access error where nothing is routed. */
  function ReadByte(cart: Cart.Cartridge, b: Bus, address: bv16): (r: Result<bv8>)
    requires b.Valid()
    ensures ReaderWriterFor(address).Failure? ==> r == Failure(InvalidAddress(address))
    ensures ReaderWriterFor(address) == Success(ToNoop) ==> r == Success(0)
    ensures r.Failure? ==> r.error == InvalidAddress(address) || (r.error == IndexOutOfRange && ReaderWriterFor(address) == Success(ToCartridge))
  {
    match ReaderWriterFor(address)
    case Failure(e) => Failure(e)
    case Success(h) => ReadFrom(cart, b, h, address)
  }

  /** The outcome of Write8: a routed address outside the cartridge passes, others are an access or write error. */
  function WriteOutcome(address: bv16): (o: Outcome)
    ensures o.Pass? <==> Writable(address)
    ensures o.Fail? ==> o.error == InvalidAddress(address)
  {
    if Writable(address) then Pass else Fail(InvalidAddress(address))
  }

  /** The bus after the region a write is routed to takes it; the cartridge and the no-op change nothing. */
  function WriteTo(b: Bus, h: Handler, address: bv16, data: bv8): (r: Bus)
    requires b.Valid()
    ensures r.Valid()
    ensures h == ToCartridge || h == ToNoop ==> r == b
  {
    match h
    case ToCartridge => b
    case ToNoop => b
    case ToWram => b.(wram := MmuRam.WriteCell(b.wram, MmuRam.WRAM_OFFSET, MmuRam.WRAM_SIZE, address, data))
    case ToHram => b.(hram := MmuRam.WriteCell(b.hram, MmuRam.HRAM_OFFSET, MmuRam.HRAM_SIZE, address, data))
    case ToSerial =>
      if address == MmuSerial.SB_SERIAL_TRANSFER then b.(transfer := data)
      else if address == MmuSerial.SC_SERIAL_CONTROL then b.(control := data)
      else b
    case ToInterrupt =>
      if address == InterruptInterrupt.FLAG_ADDRESS then b.(flag := data)
      else if address == InterruptInterrupt.ENABLE_ADDRESS then b.(enable := data)
      else b
  }

  /** Write8 on a bus value: the routed region takes the byte; a failed or no-op write changes nothing. */
  function WriteByte(b: Bus, address: bv16, data: bv8): (r: Bus)
    requires b.Valid()
    ensures r.Valid()
    ensures !Writable(address) || ReaderWriterFor(address) == Success(ToNoop) ==> r == b
  {
    match ReaderWriterFor(address)
    case Failure(_) => b
    case Success(h) => WriteTo(b, h, address, data)
  }

  /** Read16 on a bus value: the low byte's read, then the wrapped next address's; the first failure is the result. */
  function ReadWord(cart: Cart.Cartridge, b: Bus, address: bv16): (r: Result<bv16>)
    requires b.Valid()
    ensures r.Success? <==> ReadByte(cart, b, address).Success? && ReadByte(cart, b, Plus(address, 1)).Success?
    ensures r.Success? ==> Lo(r.value) == ReadByte(cart, b, address).value && Hi(r.value) == ReadByte(cart, b, Plus(address, 1)).value
  {
    var lo := ReadByte(cart, b, address);
    if lo.Failure? then Failure(lo.error)
    else
      var hi := ReadByte(cart, b, Plus(address, 1));
      if hi.Failure? then Failure(hi.error)
      else Success(To16(hi.value, lo.value))
  }

  /** The outcome of Write16: the first failing byte write's error. */
  function WordOutcome(address: bv16): (o: Outcome)
    ensures o.Pass? <==> Writable(address) && Writable(Plus(address, 1))
    ensures o.Fail? ==> o.error == InvalidAddress(if Writable(address) then Plus(address, 1) else address)
  {
    if Writable(address) then WriteOutcome(Plus(address, 1)) else WriteOutcome(address)
  }

  /** Write16 on a bus value: the low byte, then, unless that failed, the high byte at the wrapped next address. */
  function WriteWord(b: Bus, address: bv16, value: bv16): (r: Bus)
    requires b.Valid()
    ensures r.Valid()
    ensures !Writable(address) ==> r == b
  {
    if Writable(address) then WriteByte(WriteByte(b, address, Lo(value)), Plus(address, 1), Hi(value)) else b
  }

  /** Every address routed to work RAM is accepted by its translation. */
  lemma WramRouted(address: bv16)
    requires ReaderWriterFor(address) == Success(ToWram)
    ensures MmuRam.TranslateAddress(MmuRam.WRAM_OFFSET, MmuRam.WRAM_SIZE, address).Success?
  {
    RoutesToRam(address);
    MmuRam.InWram(address);
  }

  /** Every address routed to high RAM is accepted by its translation. */
  lemma HramRouted(address: bv16)
    requires ReaderWriterFor(address) == Success(ToHram)
    ensures MmuRam.TranslateAddress(MmuRam.HRAM_OFFSET, MmuRam.HRAM_SIZE, address).Success?
  {
    RoutesToRam(address);
    MmuRam.HramCells(address);
  }

  /** Only SB and SC are routed to the serial block. */
  lemma SerialRouted(address: bv16)
    requires ReaderWriterFor(address) == Success(ToSerial)
    ensures address == MmuSerial.SB_SERIAL_TRANSFER || address == MmuSerial.SC_SERIAL_CONTROL
  {
    RoutesToRegisters(address);
  }

  /** Only IF and IE are routed to the interrupt block. */
  lemma InterruptRouted(address: bv16)
    requires ReaderWriterFor(address) == Success(ToInterrupt)
    ensures address == InterruptInterrupt.FLAG_ADDRESS || address == InterruptInterrupt.ENABLE_ADDRESS
  {
    RoutesToRegisters(address);
  }

  /** Inside each 2 KiB quarter of work RAM the next address is one more; the quarters are proved apart to keep each proof small. */
  lemma NextInQuarter0(a: bv16)
    requires 0xC000 <= a < 0xC800
    ensures Plus(a, 1) as int == a as int + 1
  {
  }

  lemma NextInQuarter1(a: bv16)
    requires 0xC800 <= a < 0xD000
    ensures Plus(a, 1) as int == a as int + 1
  {
  }

  lemma NextInQuarter2(a: bv16)
    requires 0xD000 <= a < 0xD800
    ensures Plus(a, 1) as int == a as int + 1
  {
  }

  lemma NextInQuarter3(a: bv16)
    requires 0xD800 <= a < 0xDFFF
    ensures Plus(a, 1) as int == a as int + 1
  {
  }

  /** Inside work RAM the next address is the next cell. */
  lemma NextWramCell(a: bv16)
    requires 0xC000 <= a as int < 0xDFFF
    ensures 0xC000 <= a < 0xDFFF && 0xC000 <= Plus(a, 1) <= 0xDFFF
    ensures Plus(a, 1) as int == a as int + 1
  {
    if a < 0xC800 {
      NextInQuarter0(a);
    } else if a < 0xD000 {
      NextInQuarter1(a);
    } else if a < 0xD800 {
      NextInQuarter2(a);
    } else {
      NextInQuarter3(a);
    }
  }

  /** Inside high RAM the next address is the next cell. */
  lemma NextHramCell(a: bv16)
    requires 0xFF80 <= a as int < 0xFFFE
    ensures 0xFF80 <= a < 0xFFFE && 0xFF80 <= Plus(a, 1) <= 0xFFFE
    ensures Plus(a, 1) as int == a as int + 1
  {
  }

  /** Every work RAM address goes to work RAM, and so can be written. */
  lemma WramRoute(a: bv16)
    requires 0xC000 <= a <= 0xDFFF
    ensures ReaderWriterFor(a) == Success(ToWram) && Writable(a)
  {
    RoutesToRam(a);
  }

  /** Every high RAM address goes to high RAM, and so can be written. */
  lemma HramRoute(a: bv16)
    requires 0xFF80 <= a <= 0xFFFE
    ensures ReaderWriterFor(a) == Success(ToHram) && Writable(a)
  {
    RoutesToRam(a);
  }

  /** ROM and cartridge RAM reads are the cartridge's own reads. */
  lemma ReadsCartridge(cart: Cart.Cartridge, b: Bus, a: bv16)
    requires b.Valid() && (a <= 0x7FFF || 0xA000 <= a <= 0xBFFF)
    ensures ReadByte(cart, b, a) == Cart.Read(cart, a)
  {
    RoutesToCartridge(a);
  }

  /** A work RAM read gives the cell at the address's distance from 0xC000. */
  lemma ReadsWram(cart: Cart.Cartridge, b: Bus, a: bv16)
    requires b.Valid() && 0xC000 <= a <= 0xDFFF
    ensures ReadByte(cart, b, a) == Success(b.wram[a as int - 0xC000])
  {
    WramRoute(a);
    MmuRam.WramCells(a);
  }

  /** A high RAM read gives the cell at the address's distance from 0xFF80. */
  lemma ReadsHram(cart: Cart.Cartridge, b: Bus, a: bv16)
    requires b.Valid() && 0xFF80 <= a <= 0xFFFE
    ensures ReadByte(cart, b, a) == Success(b.hram[a as int - 0xFF80])
  {
    HramRoute(a);
    MmuRam.HramCells(a);
  }

  /** SB, SC, IF and IE read as the serial and interrupt registers. */
  lemma ReadsRegisters(cart: Cart.Cartridge, b: Bus)
    requires b.Valid()
    ensures ReadByte(cart, b, MmuSerial.SB_SERIAL_TRANSFER) == Success(b.transfer)
    ensures ReadByte(cart, b, MmuSerial.SC_SERIAL_CONTROL) == Success(b.control)
    ensures ReadByte(cart, b, InterruptInterrupt.FLAG_ADDRESS) == Success(b.flag)
    ensures ReadByte(cart, b, InterruptInterrupt.ENABLE_ADDRESS) == Success(b.enable)
  {
  }

  /** Reads of the no-op regions give 0 whatever was written; LY at 0xFF44 is one of them, so the bus never reads the LCD's 0x90. */
  lemma NoopRegionsReadZero(cart: Cart.Cartridge, b: Bus, a: bv16, data: bv8)
    requires b.Valid() && (0x8000 <= a <= 0x9FFF || 0xFF40 <= a <= 0xFF4B)
    ensures ReadByte(cart, WriteByte(b, a, data), a) == Success(0)
    ensures ReadByte(cart, b, MmuLcd.LY) == Success(0) && MmuLcd.Read(MmuLcd.Lcd, MmuLcd.LY) == 0x90
  {
  }

  /** A completed write to a register or RAM cell reads back; a failed write changes nothing. */
  lemma WriteThenRead(cart: Cart.Cartridge, b: Bus, a: bv16, data: bv8)
    requires b.Valid()
    ensures WriteOutcome(a).Pass? && ReaderWriterFor(a) != Success(ToNoop) ==> ReadByte(cart, WriteByte(b, a, data), a) == Success(data)
    ensures WriteOutcome(a).Fail? ==> WriteByte(b, a, data) == b
  {
    match ReaderWriterFor(a)
    case Failure(_) =>
    case Success(h) =>
      if h == ToWram {
        WramRouted(a);
        MmuRam.ReadAfterWriteCell(b.wram, MmuRam.WRAM_OFFSET, MmuRam.WRAM_SIZE, a, a, data);
      } else if h == ToHram {
        HramRouted(a);
        MmuRam.ReadAfterWriteCell(b.hram, MmuRam.HRAM_OFFSET, MmuRam.HRAM_SIZE, a, a, data);
      } else if h == ToSerial {
        SerialRouted(a);
      } else if h == ToInterrupt {
        InterruptRouted(a);
      }
  }

  /** A word in work RAM is its two cells, low byte first. */
  lemma WramWordIsLittleEndian(cart: Cart.Cartridge, b: Bus, a: bv16)
    requires b.Valid() && 0xC000 <= a as int < 0xDFFF
    ensures ReadWord(cart, b, a) == Success(To16(b.wram[a as int - 0xC000 + 1], b.wram[a as int - 0xC000]))
  {
    NextWramCell(a);
    ReadsWram(cart, b, a);
    ReadsWram(cart, b, Plus(a, 1));
  }

  /** The cells a byte write in work RAM leaves: the address's cell holds the byte, the others are unchanged. */
  lemma WramWrite(b: Bus, a: bv16, data: bv8)
    requires b.Valid() && 0xC000 <= a <= 0xDFFF
    ensures WriteByte(b, a, data) == b.(wram := b.wram[a as int - 0xC000 := data])
  {
    WramRoute(a);
    MmuRam.WramCells(a);
  }

  /** The cells a byte write in high RAM leaves. */
  lemma HramWrite(b: Bus, a: bv16, data: bv8)
    requires b.Valid() && 0xFF80 <= a <= 0xFFFE
    ensures WriteByte(b, a, data) == b.(hram := b.hram[a as int - 0xFF80 := data])
  {
    HramRoute(a);
    MmuRam.HramCells(a);
  }

  /** A word write inside work RAM completes and fills two cells, low byte first. */
  lemma WramWordWrite(b: Bus, a: bv16, value: bv16)
    requires b.Valid() && 0xC000 <= a as int < 0xDFFF
    ensures WordOutcome(a) == Pass
    ensures WriteWord(b, a, value).wram == b.wram[a as int - 0xC000 := Lo(value)][a as int - 0xC000 + 1 := Hi(value)]
  {
    NextWramCell(a);
    WramRoute(a);
    WramRoute(Plus(a, 1));
    WramWrite(b, a, Lo(value));
    WramWrite(WriteByte(b, a, Lo(value)), Plus(a, 1), Hi(value));
  }

  /** A word written inside work RAM completes and reads back. */
  lemma WramWordRoundTrip(cart: Cart.Cartridge, b: Bus, a: bv16, value: bv16)
    requires b.Valid() && 0xC000 <= a as int < 0xDFFF
    ensures WordOutcome(a) == Pass
    ensures ReadWord(cart, WriteWord(b, a, value), a) == Success(value)
  {
    WramWordWrite(b, a, value);
    WramWordIsLittleEndian(cart, WriteWord(b, a, value), a);
    SplitJoin(value);
  }

  /** A word in high RAM is its two cells, low byte first. */
  lemma HramWordIsLittleEndian(cart: Cart.Cartridge, b: Bus, a: bv16)
    requires b.Valid() && 0xFF80 <= a as int < 0xFFFE
    ensures ReadWord(cart, b, a) == Success(To16(b.hram[a as int - 0xFF80 + 1], b.hram[a as int - 0xFF80]))
  {
    NextHramCell(a);
    ReadsHram(cart, b, a);
    ReadsHram(cart, b, Plus(a, 1));
  }

  /** A word write inside high RAM completes and fills two cells, low byte first. */
  lemma HramWordWrite(b: Bus, a: bv16, value: bv16)
    requires b.Valid() && 0xFF80 <= a as int < 0xFFFE
    ensures WordOutcome(a) == Pass
    ensures WriteWord(b, a, value).hram == b.hram[a as int - 0xFF80 := Lo(value)][a as int - 0xFF80 + 1 := Hi(value)]
  {
    NextHramCell(a);
    HramRoute(a);
    HramRoute(Plus(a, 1));
    HramWrite(b, a, Lo(value));
    HramWrite(WriteByte(b, a, Lo(value)), Plus(a, 1), Hi(value));
  }

  /** A word written inside high RAM completes and reads back. */
  lemma HramWordRoundTrip(cart: Cart.Cartridge, b: Bus, a: bv16, value: bv16)
    requires b.Valid() && 0xFF80 <= a as int < 0xFFFE
    ensures WordOutcome(a) == Pass
    ensures ReadWord(cart, WriteWord(b, a, value), a) == Success(value)
  {
    HramWordWrite(b, a, value);
    HramWordIsLittleEndian(cart, WriteWord(b, a, value), a);
    SplitJoin(value);
  }

  /**
   * A word written at SB puts its low byte in SB and its high byte in SC. A
   * word written at IE (0xFFFF) sets IE and then fails at 0x0000, the
   * cartridge, leaving IE changed.
   */
  lemma RegisterWords(b: Bus, value: bv16)
    requires b.Valid()
    ensures WordOutcome(MmuSerial.SB_SERIAL_TRANSFER) == Pass
    ensures WriteWord(b, MmuSerial.SB_SERIAL_TRANSFER, value) == b.(transfer := Lo(value), control := Hi(value))
    ensures WordOutcome(InterruptInterrupt.ENABLE_ADDRESS) == Fail(InvalidAddress(0x0000))
    ensures WriteWord(b, InterruptInterrupt.ENABLE_ADDRESS, value) == b.(enable := Lo(value))
  {
    assert Plus(MmuSerial.SB_SERIAL_TRANSFER, 1) == MmuSerial.SC_SERIAL_CONTROL;
    assert Plus(InterruptInterrupt.ENABLE_ADDRESS, 1) == 0;
  }

  class MMU {
    const cartridge: Cart.Cartridge
    const hram: MmuRam.Ram
    const wram: MmuRam.Ram
    const serial: MmuSerial.Serial
    const interrupt: InterruptInterrupt.Interrupt
    const lcd: MmuLcd.Lcd
    const timer: TimerTimer.Timer

    /** The two RAM regions are the ones New builds: their own sizes and offsets, in separate slices. */
    predicate Valid()
    {
      && wram.Valid() && wram.size == MmuRam.WRAM_SIZE && wram.offset == MmuRam.WRAM_OFFSET
      && hram.Valid() && hram.size == MmuRam.HRAM_SIZE && hram.offset == MmuRam.HRAM_OFFSET
      && wram.memory != hram.memory
    }

    /** The state the bus can change, as a value. */
    function State(): (b: Bus)
      requires Valid()
      reads wram.memory, hram.memory, serial, interrupt
      ensures b.Valid()
    {
      Bus(wram.memory[..], hram.memory[..], serial.transfer, serial.control, interrupt.flag, interrupt.enable)
    }

    /** New: shares the cartridge, interrupt state and timer; the RAM regions and serial registers start zeroed. */
    constructor (cart: Cart.Cartridge, inter: InterruptInterrupt.Interrupt, time: TimerTimer.Timer)
      ensures Valid()
      ensures cartridge == cart && interrupt == inter && timer == time
      ensures fresh(wram.memory) && fresh(hram.memory) && fresh(serial)
      ensures State() == Bus(seq(MmuRam.WRAM_SIZE, _ => 0), seq(MmuRam.HRAM_SIZE, _ => 0), 0, 0, inter.flag, inter.enable)
    {
      cartridge := cart;
      hram := new MmuRam.Ram.HRAM();
      wram := new MmuRam.Ram.WRAM();
      serial := new MmuSerial.Serial();
      interrupt := inter;
      lcd := MmuLcd.Lcd;
      timer := time;
    }

    /** Read8: asks the routed region for the byte, which is what the bus state gives. */
    function Read8(address: bv16): (r: Result<bv8>)
      requires Valid()
      reads wram.memory, hram.memory, serial, interrupt
      ensures r == ReadByte(cartridge, State(), address)
    {
      match ReaderWriterFor(address)
      case Failure(e) => Failure(e)
      case Success(h) => ReadRegion(h, address)
    }

    /** The read Read8 hands to the region `h`. */
    function ReadRegion(h: Handler, address: bv16): (r: Result<bv8>)
      requires Valid()
      reads wram.memory, hram.memory, serial, interrupt
      ensures r == ReadFrom(cartridge, State(), h, address)
    {
      match h
      case ToCartridge => Cart.Read(cartridge, address)
      case ToNoop => Success(MmuNoop.Read(MmuNoop.NewNoop(false), address))
      case ToWram => wram.Read(address)
      case ToHram => hram.Read(address)
      case ToSerial => serial.Read(address)
      case ToInterrupt => interrupt.Read(address)
    }

    /** Read16: the low byte at the address and the high byte at the wrapped next address. */
    function Read16(address: bv16): (r: Result<bv16>)
      requires Valid()
      reads wram.memory, hram.memory, serial, interrupt
      ensures r == ReadWord(cartridge, State(), address)
    {
      var lo := Read8(address);
      if lo.Failure? then Failure(lo.error)
      else
        var hi := Read8(Plus(address, 1));
        if hi.Failure? then Failure(hi.error)
        else Success(To16(hi.value, lo.value))
    }

    /** Write8: hands the byte to the routed region; the bus state changes as WriteByte says and nothing else changes. */
    method Write8(address: bv16, data: bv8) returns (o: Outcome)
      requires Valid()
      modifies wram.memory, hram.memory, serial, interrupt
      ensures o == WriteOutcome(address)
      ensures State() == WriteByte(old(State()), address, data)
      ensures interrupt.masterEnabled == old(interrupt.masterEnabled) && interrupt.ei == old(interrupt.ei) && interrupt.di == old(interrupt.di)
    {
      var rw := ReaderWriterFor(address);
      if rw.Failure? {
        return Fail(rw.error);
      }
      match rw.value {
        case ToWram => WramRouted(address);
        case ToHram => HramRouted(address);
        case ToSerial => SerialRouted(address);
        case ToInterrupt => InterruptRouted(address);
        case _ =>
      }
      o := WriteRegion(rw.value, address, data);
    }

    /** The write Write8 hands to the region `h`, for an address that region serves. */
    method WriteRegion(h: Handler, address: bv16, data: bv8) returns (o: Outcome)
      requires Valid()
      requires h == ToWram ==> MmuRam.TranslateAddress(MmuRam.WRAM_OFFSET, MmuRam.WRAM_SIZE, address).Success?
      requires h == ToHram ==> MmuRam.TranslateAddress(MmuRam.HRAM_OFFSET, MmuRam.HRAM_SIZE, address).Success?
      requires h == ToSerial ==> address == MmuSerial.SB_SERIAL_TRANSFER || address == MmuSerial.SC_SERIAL_CONTROL
      requires h == ToInterrupt ==> address == InterruptInterrupt.FLAG_ADDRESS || address == InterruptInterrupt.ENABLE_ADDRESS
      modifies wram.memory, hram.memory, serial, interrupt
      ensures o == (if h == ToCartridge then Fail(InvalidAddress(address)) else Pass)
      ensures State() == WriteTo(old(State()), h, address, data)
      ensures interrupt.masterEnabled == old(interrupt.masterEnabled) && interrupt.ei == old(interrupt.ei) && interrupt.di == old(interrupt.di)
    {
      match h
      case ToCartridge =>
        o := Cart.Write(cartridge, address, data);
      case ToNoop =>
        var _ := MmuNoop.Write(MmuNoop.NewNoop(false), address, data);
        o := Pass;
      case ToWram =>
        o := wram.Write(address, data);
      case ToHram =>
        o := hram.Write(address, data);
      case ToSerial =>
        o := serial.Write(address, data);
      case ToInterrupt =>
        o := interrupt.Write(address, data);
    }

    /** Write16: the low byte at the address, then the high byte at the wrapped next address; a failed first write stops there. */
    method Write16(address: bv16, value: bv16) returns (o: Outcome)
      requires Valid()
      modifies wram.memory, hram.memory, serial, interrupt
      ensures o == WordOutcome(address)
      ensures State() == WriteWord(old(State()), address, value)
      ensures interrupt.masterEnabled == old(interrupt.masterEnabled) && interrupt.ei == old(interrupt.ei) && interrupt.di == old(interrupt.di)
    {
      o := Write8(address, Lo(value));
      if o.Fail? {
        return;
      }
      o := Write8(Plus(address, 1), Hi(value));
    }

    /**
     * DebugSerial: when SC is 0x81 (transfer requested, internal clock) the
     * byte in SB is taken as output and SC is cleared; `ch` is that byte.
     */
    method DebugSerial() returns (ch: Option<bv8>)
      modifies serial
      ensures old(serial.control) == 0x81 ==> ch == Some(old(serial.transfer)) && serial.control == 0 && serial.transfer == old(serial.transfer)
      ensures old(serial.control) != 0x81 ==> ch == None && unchanged(serial)
    {
      ch := None;
      var control := serial.Read(MmuSerial.SC_SERIAL_CONTROL);
      if control.value == 0x81 {
        var transfer := serial.Read(MmuSerial.SB_SERIAL_TRANSFER);
        ch := Some(transfer.value);
        var _ := serial.Write(MmuSerial.SC_SERIAL_CONTROL, 0);
      }
    }
  }
}
