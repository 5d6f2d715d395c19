/**
 * The stub region of pkg/mmu/noop.go: every read gives 0 and every write
 * is dropped. With the debug flag set it also prints the access; the
 * printing is not modelled, so the flag has no effect here.
 */
module MmuNoop {

  datatype Noop = Noop(debug: bool)

  /** newNoop: keeps the debug flag. */
  function NewNoop(debug: bool): (n: Noop)
    ensures n.debug == debug
  {
    Noop(debug)
  }

  /** Read: the dummy byte 0, whatever the address. */
  function Read(n: Noop, address: bv16): (r: bv8)
    ensures r == 0
  {
    0
  }

  /** Write: nothing to store; the stub is left as it was. */
  function Write(n: Noop, address: bv16, data: bv8): (r: Noop)
    ensures r == n
  {
    n
  }

  /** Reads give 0 whatever was written before and whether or not the stub debugs. */
  lemma ReadsIgnoreWrites(n: Noop, a: bv16, b: bv16, data: bv8)
    ensures Read(Write(n, a, data), b) == 0
    ensures Read(NewNoop(true), b) == Read(NewNoop(false), b)
    ensures Write(n, a, data) == n
  {
  }
}
