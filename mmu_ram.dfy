/**
 * The RAM regions of pkg/mmu/ram.go: a zeroed byte slice of a fixed size
 * that the bus addresses from a fixed offset. Work RAM is 0x2000 bytes at
 * 0xC000 and high RAM 0x80 bytes at 0xFF80. An address is translated by a
 * wrapping 16-bit subtraction, so an address below the offset wraps high
 * and is refused like one past the end, with an access error.
 */
module MmuRam {
  import opened Errors

  const WRAM_SIZE := 0x2000
  const HRAM_SIZE := 0x80
  const WRAM_OFFSET := 0xC000
  const HRAM_OFFSET := 0xFF80

  /** A 16-bit value, as the integer the offsets and sizes are compared with. */
  type Word = x: int | 0 <= x < 0x10000

  /**
   * translateAddress: the uint16 difference from the offset, which must be
   * below the size. For a region that fits below 0x10000 that accepts
   * exactly the region's own addresses; one below the offset wraps high.
   */
  function TranslateAddress(offset: Word, size: Word, address: bv16): (r: Result<Word>)
    ensures r.Success? ==> r.value < size
    ensures r.Success? && offset <= address as int ==> r.value == address as int - offset
    ensures offset + size <= 0x10000 ==> (r.Success? <==> offset <= address as int < offset + size)
    ensures r.Failure? ==> r.error == InvalidAddress(address)
  {
    var internal := if address as int >= offset then address as int - offset else address as int - offset + 0x10000;
    if internal >= size then Failure(InvalidAddress(address)) else Success(internal)
  }

  /** The byte a region holding `mem` gives for an address: the translated cell, or the access error. */
  function ReadCell(mem: seq<bv8>, offset: Word, size: Word, address: bv16): (r: Result<bv8>)
    requires |mem| == size
    ensures r.Success? <==> TranslateAddress(offset, size, address).Success?
    ensures r.Success? ==> r.value == mem[TranslateAddress(offset, size, address).value]
    ensures r.Failure? ==> r.error == InvalidAddress(address)
  {
    var t := TranslateAddress(offset, size, address);
    if t.Failure? then Failure(t.error) else Success(mem[t.value])
  }

  /** The region after a write: the translated cell takes the byte; a refused address changes nothing. */
  function WriteCell(mem: seq<bv8>, offset: Word, size: Word, address: bv16, data: bv8): (r: seq<bv8>)
    requires |mem| == size
    ensures |r| == size
    ensures TranslateAddress(offset, size, address).Failure? ==> r == mem
  {
    var t := TranslateAddress(offset, size, address);
    if t.Failure? then mem else mem[t.value := data]
  }

  /** A written byte reads back at its address; an address with another cell, or any address after a refused write, reads as before. */
  lemma ReadAfterWriteCell(mem: seq<bv8>, offset: Word, size: Word, a: bv16, b: bv16, data: bv8)
    requires |mem| == size
    ensures TranslateAddress(offset, size, a).Success? ==> ReadCell(WriteCell(mem, offset, size, a, data), offset, size, a) == Success(data)
    ensures TranslateAddress(offset, size, a).Failure? ==> ReadCell(WriteCell(mem, offset, size, a, data), offset, size, b) == ReadCell(mem, offset, size, b)
    ensures TranslateAddress(offset, size, a).Success? && TranslateAddress(offset, size, b).Success? && TranslateAddress(offset, size, a).value != TranslateAddress(offset, size, b).value
      ==> ReadCell(WriteCell(mem, offset, size, a, data), offset, size, b) == ReadCell(mem, offset, size, b)
  {
  }

  class Ram {
    const memory: array<bv8>
    const size: Word
    const offset: Word

    /** The slice has the region's size. */
    predicate Valid()
    {
      memory.Length == size
    }

    /** The cell an accepted address selects. */
    function Cell(address: bv16): (i: int)
      requires TranslateAddress(offset, size, address).Success?
      ensures 0 <= i < size
    {
      TranslateAddress(offset, size, address).value
    }

    /** newWRAM: 0x2000 zero bytes at 0xC000. */
    constructor WRAM()
      ensures Valid() && size == WRAM_SIZE && offset == WRAM_OFFSET
      ensures fresh(memory) && forall i :: 0 <= i < memory.Length ==> memory[i] == 0
    {
      memory := new bv8[0x2000](_ => 0);
      size := WRAM_SIZE;
      offset := WRAM_OFFSET;
    }

    /** newHRAM: 0x80 zero bytes at 0xFF80. */
    constructor HRAM()
      ensures Valid() && size == HRAM_SIZE && offset == HRAM_OFFSET
      ensures fresh(memory) && forall i :: 0 <= i < memory.Length ==> memory[i] == 0
    {
      memory := new bv8[0x80](_ => 0);
      size := HRAM_SIZE;
      offset := HRAM_OFFSET;
    }

    /** Read: the byte at the translated address. */
    function Read(address: bv16): (r: Result<bv8>)
      requires Valid()
      reads memory
      ensures r.Success? <==> TranslateAddress(offset, size, address).Success?
      ensures r.Success? ==> r.value == memory[Cell(address)]
      ensures r.Failure? ==> r.error == InvalidAddress(address)
    {
      ReadCell(memory[..], offset, size, address)
    }

    /** Write: stores the byte at the translated address and changes no other cell; a refused address changes nothing. */
    method Write(address: bv16, data: bv8) returns (o: Outcome)
      requires Valid()
      modifies memory
      ensures o.Pass? <==> TranslateAddress(offset, size, address).Success?
      ensures o.Fail? ==> o.error == InvalidAddress(address) && memory[..] == old(memory[..])
      ensures o.Pass? ==> memory[..] == old(memory[..])[Cell(address) := data]
      ensures memory[..] == WriteCell(old(memory[..]), offset, size, address, data)
      ensures o.Pass? ==> Read(address) == Success(data)
    {
      var t := TranslateAddress(offset, size, address);
      if t.Failure? {
        return Fail(t.error);
      }
      memory[t.value] := data;
      return Pass;
    }
  }

  /** Work RAM accepts exactly 0xC000..0xDFFF and high RAM exactly 0xFF80..0xFFFF; an address just below either wraps and is refused. */
  lemma RegionsAccept(address: bv16)
    ensures TranslateAddress(WRAM_OFFSET, WRAM_SIZE, address).Success? <==> 0xC000 <= address <= 0xDFFF
    ensures TranslateAddress(HRAM_OFFSET, HRAM_SIZE, address).Success? <==> 0xFF80 <= address
    ensures TranslateAddress(WRAM_OFFSET, WRAM_SIZE, 0xC000) == Success(0)
    ensures TranslateAddress(WRAM_OFFSET, WRAM_SIZE, 0xBFFF) == Failure(InvalidAddress(0xBFFF))
  {
  }

  /** Inside work RAM an address selects its distance from 0xC000. */
  lemma WramCells(address: bv16)
    requires 0xC000 <= address <= 0xDFFF
    ensures TranslateAddress(WRAM_OFFSET, WRAM_SIZE, address) == Success(address as int - WRAM_OFFSET)
  {
    InWram(address);
  }

  /** The work RAM bounds read the same on the address and on its value. */
  lemma InWram(address: bv16)
    ensures 0xC000 <= address <= 0xDFFF <==> WRAM_OFFSET <= address as int < WRAM_OFFSET + WRAM_SIZE
  {
  }

  /** Inside high RAM an address selects its distance from 0xFF80. */
  lemma HramCells(address: bv16)
    requires 0xFF80 <= address
    ensures TranslateAddress(HRAM_OFFSET, HRAM_SIZE, address) == Success(address as int - HRAM_OFFSET)
  {
  }
}
