/**
 * The memory the cpu package reads and writes through CPU.Read8, Read16,
 * Write8, Write16 and cpu.MMU. Their bodies are not modelled; the memory
 * behind them is one flat 64 KiB memory: a total
 * function from address to byte. 16-bit accesses are little-endian, as in
 * the bus of pkg/mmu/mmu.go.
 */
module CpuMemory {
  import opened BitsBitwise

  type Memory = bv16 -> bv8

  /** Memory after writing one byte. */
  function Store(m: Memory, address: bv16, value: bv8): (r: Memory)
    ensures r(address) == value
    ensures forall b: bv16 :: b != address ==> r(b) == m(b)
  {
    b => if b == address then value else m(b)
  }

  /** Read16: the byte at `address` is the low half, the next one the high half. */
  function Load16(m: Memory, address: bv16): (r: bv16)
    ensures Lo(r) == m(address) && Hi(r) == m(address + 1)
  {
    To16(m(address + 1), m(address))
  }

  /** Write16: the low byte at `address`, then the high byte at `address + 1`. */
  function Store16(m: Memory, address: bv16, value: bv16): (r: Memory)
    ensures r(address) == Lo(value) && r(address + 1) == Hi(value)
    ensures forall b: bv16 :: b != address && b != address + 1 ==> r(b) == m(b)
  {
    Store(Store(m, address, Lo(value)), address + 1, Hi(value))
  }

  /** A 16-bit write reads back, also across the wrap from 0xFFFF to 0x0000. */
  lemma Load16Store16(m: Memory, address: bv16, value: bv16)
    ensures Load16(Store16(m, address, value), address) == value
  {
    var s := Store16(m, address, value);
    SplitJoin(value);
    assert Load16(s, address) == To16(Hi(value), Lo(value));
  }

  /** A byte write reads back through Load16 as the matching half. */
  lemma Load16AfterStore(m: Memory, address: bv16, value: bv8)
    ensures Lo(Load16(Store(m, address, value), address)) == value
    ensures Hi(Load16(Store(m, address, value), address - 1)) == value
  {
    assert address - 1 + 1 == address;
  }

  /** Two bytes laid out little-endian read back as the word they came from. */
  lemma Load16Bytes(m: Memory, address: bv16, value: bv16)
    requires m(address) == Lo(value) && m(address + 1) == Hi(value)
    ensures Load16(m, address) == value
  {
    SplitJoin(value);
  }
}
