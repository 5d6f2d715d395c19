/**
 * The checksums of pkg/cart/checksum.go. The header loop runs while the
 * address is at most 0x14C and folds both subtractions into one
 * assignment; the global loop is the one of pkg/cartridge. Both are proved
 * against the reference definitions of CartridgeChecksum, so the two
 * packages compute the same checksums on the same image.
 */
module CartChecksum {
  import opened Errors
  import opened BitsBitwise
  import opened CpuArith
  import opened CartCartridge
  import Ref = CartridgeChecksum
  import Other = CartridgeCartridge

  /** CalculateHeaderCheckSum: sum = sum - Data[addr] - 1 for every address from 0x134 through 0x14C. */
  method CalculateHeaderCheckSum(c: Cartridge) returns (r: Result<bv8>)
    ensures r == Ref.HeaderCheckSumOf(c.data)
  {
    var sum: bv8 := 0;
    var addr := 0x134;
    while addr <= 0x14C
      invariant Ref.HeaderStart <= addr <= Ref.HeaderEnd
      invariant addr > Ref.HeaderStart ==> addr <= |c.data|
      invariant addr <= |c.data| ==> sum == Ref.NegatedPrefix(c.data, addr)
    {
      if addr >= |c.data| {
        return Failure(IndexOutOfRange);
      }
      Ref.HeaderLoopStep(c.data, addr, sum);
      sum := sum - c.data[addr] - 1;
      addr := addr + 1;
    }
    return Success(sum);
  }

  /** IsValidHeaderCheckSum: the computed checksum equals the stored byte at 0x14D. */
  function IsValidHeaderCheckSum(c: Cartridge): (r: Result<bool>)
    ensures r.Success? <==> |c.data| > Ref.HeaderEnd
    ensures r.Success? ==> (r.value <==> Ref.HeaderCheckSumOf(c.data).value == c.data[Ref.HeaderEnd])
  {
    var computed := Ref.HeaderCheckSumOf(c.data);
    var stored := HeaderChecksum(c);
    if computed.Failure? then Failure(computed.error)
    else if stored.Failure? then Failure(stored.error)
    else Success(computed.value == stored.value)
  }

  /** CalculateGlobalCheckSum: every byte as a 16-bit word, skipping 0x14E and 0x14F. */
  method CalculateGlobalCheckSum(c: Cartridge) returns (sum: bv16)
    ensures sum == Ref.GlobalSum(c.data, |c.data|)
  {
    sum := 0;
    var addr := 0;
    while addr < |c.data|
      invariant 0 <= addr <= |c.data|
      invariant sum == Ref.GlobalSum(c.data, addr)
    {
      if addr != 0x14E && addr != 0x14F {
        sum := Plus(sum, c.data[addr] as bv16);
      }
      addr := addr + 1;
    }
  }

  /** IsValidGlobalCheckSum: the computed sum equals the stored big-endian word at 0x14E..0x14F. */
  function IsValidGlobalCheckSum(c: Cartridge): (r: Result<bool>)
    ensures r.Success? <==> |c.data| > 0x14F
    ensures r.Success? ==>
      (r.value <==> (Hi(Ref.GlobalSum(c.data, |c.data|)) == c.data[0x14E] && Lo(Ref.GlobalSum(c.data, |c.data|)) == c.data[0x14F]))
  {
    var stored := GlobalChecksum(c);
    if stored.Failure? then Failure(stored.error)
    else
      SplitJoin(Ref.GlobalSum(c.data, |c.data|));
      Success(Ref.GlobalSum(c.data, |c.data|) == stored.value)
  }

  /**
   * Both packages judge an image alike: the same verdict on its header and
   * on its global checksum, whatever capacity lies past the image.
   */
  lemma AgreesWithCartridge(c: Cartridge, spare: seq<bv8>)
    ensures IsValidHeaderCheckSum(c) == Ref.IsValidHeaderCheckSum(Other.Cartridge(c.data, c.size, spare))
    ensures IsValidGlobalCheckSum(c) == Ref.IsValidGlobalCheckSum(Other.Cartridge(c.data, c.size, spare))
  {
  }
}
