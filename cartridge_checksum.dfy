/**
 * The checksums of pkg/cartridge/checksum.go. The header checksum is the
 * byte 0 - sum(Data[a] + 1) over the header 0x134..0x14C, wrapping at 256;
 * the global checksum is the 16-bit wrapping sum of every byte of the image
 * but the two that hold it, 0x14E and 0x14F. A header loop that runs past
 * the end of a short image is a Go index panic, `Failure(IndexOutOfRange)`.
 *
 * The reference functions work on the image itself so that pkg/cart, whose
 * loops are written differently, is proved against the same definitions.
 */
module CartridgeChecksum {
  import opened Errors
  import opened BitsBitwise
  import opened CpuArith
  import opened CartridgeCartridge
  import Header = CartridgeHeader

  /** First address the header checksum covers. */
  const HeaderStart := 0x134
  /** One past the last address it covers: the checksum's own address. */
  const HeaderEnd := 0x14D

  /** One header term added to a running total: the byte plus one, wrapping. */
  function Term(acc: bv8, d: bv8): bv8
  {
    acc + d + 1
  }

  /** The wrapping sum of (d + 1) over the bytes, taken left to right. */
  function HeaderTerms(s: seq<bv8>): bv8
  {
    if |s| == 0 then 0 else Term(HeaderTerms(s[..|s| - 1]), s[|s| - 1])
  }

  /** The header checksum of an image: 0 minus the terms of 0x134..0x14C, if the image reaches 0x14C. */
  function HeaderCheckSumOf(data: seq<bv8>): (r: Result<bv8>)
    ensures r.Success? <==> |data| >= HeaderEnd
    ensures r.Failure? ==> r.error == IndexOutOfRange
  {
    if |data| < HeaderEnd then Failure(IndexOutOfRange)
    else Success(0 - HeaderTerms(data[HeaderStart..HeaderEnd]))
  }

  /** Whether an address is one of the two bytes that hold the global checksum. */
  predicate IsGlobalChecksumByte(addr: int)
  {
    addr == 0x14E || addr == 0x14F
  }

  /** The 16-bit wrapping sum of the first n bytes, leaving out 0x14E and 0x14F. */
  function GlobalSum(data: seq<bv8>, n: nat): bv16
    requires n <= |data|
  {
    if n == 0 then 0
    else if IsGlobalChecksumByte(n - 1) then GlobalSum(data, n - 1)
    else Plus(GlobalSum(data, n - 1), data[n - 1] as bv16)
  }

  /** The slice up to addr + 1 is the slice up to addr followed by the byte at addr. */
  lemma HeaderTermsExtend(data: seq<bv8>, addr: nat)
    requires HeaderStart <= addr < |data|
    ensures HeaderTerms(data[HeaderStart..addr + 1]) == Term(HeaderTerms(data[HeaderStart..addr]), data[addr])
  {
    assert data[HeaderStart..addr + 1][..addr - HeaderStart] == data[HeaderStart..addr];
  }

  /** The header loop's total after the addresses 0x134..addr - 1: 0 minus their terms. */
  function NegatedPrefix(data: seq<bv8>, addr: nat): bv8
    requires HeaderStart <= addr <= |data|
  {
    0 - HeaderTerms(data[HeaderStart..addr])
  }

  /** One turn of the header loop: subtracting the byte and then one extends the prefix by that byte. */
  lemma HeaderLoopStep(data: seq<bv8>, addr: nat, sum: bv8)
    requires HeaderStart <= addr < |data|
    requires sum == NegatedPrefix(data, addr)
    ensures sum - data[addr] - 1 == NegatedPrefix(data, addr + 1)
  {
    HeaderTermsExtend(data, addr);
  }

  /** CalculateHeaderCheckSum: subtracts each header byte and one more, from 0x134 up to 0x14C. */
  method CalculateHeaderCheckSum(c: Cartridge) returns (r: Result<bv8>)
    ensures r == HeaderCheckSumOf(c.data)
  {
    var sum: bv8 := 0;
    var addr := HeaderStart;
    while addr < HeaderEnd
      invariant HeaderStart <= addr <= HeaderEnd
      invariant addr > HeaderStart ==> addr <= |c.data|
      invariant addr <= |c.data| ==> sum == NegatedPrefix(c.data, addr)
    {
      if addr >= |c.data| {
        return Failure(IndexOutOfRange);
      }
      HeaderLoopStep(c.data, addr, sum);
      sum := sum - c.data[addr];
      sum := sum - 1;
      addr := addr + 1;
    }
    return Success(sum);
  }

  /** IsValidHeaderCheckSum: the computed checksum equals the stored byte at 0x14D. */
  function IsValidHeaderCheckSum(c: Cartridge): (r: Result<bool>)
    ensures r.Success? <==> |c.data| > HeaderEnd
    ensures r.Success? ==> (r.value <==> HeaderCheckSumOf(c.data).value == c.data[HeaderEnd])
  {
    var computed := HeaderCheckSumOf(c.data);
    var stored := Header.HeaderChecksum(c);
    if computed.Failure? then Failure(computed.error)
    else if stored.Failure? then Failure(stored.error)
    else Success(computed.value == stored.value)
  }

  /** CalculateGlobalCheckSum: adds every byte of the image as a 16-bit word, skipping 0x14E and 0x14F. */
  method CalculateGlobalCheckSum(c: Cartridge) returns (sum: bv16)
    ensures sum == GlobalSum(c.data, |c.data|)
  {
    sum := 0;
    var addr := 0;
    while addr < |c.data|
      invariant 0 <= addr <= |c.data|
      invariant sum == GlobalSum(c.data, addr)
    {
      if !IsGlobalChecksumByte(addr) {
        sum := Plus(sum, c.data[addr] as bv16);
      }
      addr := addr + 1;
    }
  }

  /** IsValidGlobalCheckSum: the computed sum equals the stored big-endian word at 0x14E..0x14F. */
  function IsValidGlobalCheckSum(c: Cartridge): (r: Result<bool>)
    ensures r.Success? <==> |c.data| > 0x14F
    ensures r.Success? ==>
      (r.value <==> (Hi(GlobalSum(c.data, |c.data|)) == c.data[0x14E] && Lo(GlobalSum(c.data, |c.data|)) == c.data[0x14F]))
  {
    var stored := Header.GlobalChecksum(c);
    if stored.Failure? then Failure(stored.error)
    else
      SplitJoin(GlobalSum(c.data, |c.data|));
      Success(GlobalSum(c.data, |c.data|) == stored.value)
  }

  /** The header checksum reads only 0x134..0x14C: images that agree there have the same checksum. */
  lemma HeaderCheckSumLocal(a: seq<bv8>, b: seq<bv8>)
    requires |a| >= HeaderEnd && |b| >= HeaderEnd
    requires a[HeaderStart..HeaderEnd] == b[HeaderStart..HeaderEnd]
    ensures HeaderCheckSumOf(a) == HeaderCheckSumOf(b)
  {
  }

  /** Adding the checksum to the header terms gives 0: the checksum cancels them. */
  lemma HeaderCheckSumCancels(data: seq<bv8>)
    requires |data| >= HeaderEnd
    ensures HeaderCheckSumOf(data).value + HeaderTerms(data[HeaderStart..HeaderEnd]) == 0
  {
  }

  /** Storing the computed header checksum at 0x14D makes the header valid. */
  lemma StampHeaderCheckSum(c: Cartridge)
    requires |c.data| > HeaderEnd
    ensures IsValidHeaderCheckSum(c.(data := c.data[HeaderEnd := HeaderCheckSumOf(c.data).value])) == Success(true)
  {
    var d := c.data[HeaderEnd := HeaderCheckSumOf(c.data).value];
    assert d[HeaderStart..HeaderEnd] == c.data[HeaderStart..HeaderEnd];
    HeaderCheckSumLocal(d, c.data);
  }

  /** The global sum does not depend on the bytes at 0x14E and 0x14F. */
  lemma {:induction false} GlobalSumIgnoresChecksum(data: seq<bv8>, hi: bv8, lo: bv8, n: nat)
    requires |data| > 0x14F && n <= |data|
    ensures GlobalSum(data[0x14E := hi][0x14F := lo], n) == GlobalSum(data, n)
  {
    var d := data[0x14E := hi][0x14F := lo];
    if n > 0 {
      GlobalSumIgnoresChecksum(data, hi, lo, n - 1);
      if !IsGlobalChecksumByte(n - 1) {
        assert d[n - 1] == data[n - 1];
      }
    }
  }

  /** Storing the computed global sum at 0x14E..0x14F, high byte first, makes the global checksum valid. */
  lemma StampGlobalCheckSum(c: Cartridge)
    requires |c.data| > 0x14F
    ensures var g := GlobalSum(c.data, |c.data|);
            IsValidGlobalCheckSum(c.(data := c.data[0x14E := Hi(g)][0x14F := Lo(g)])) == Success(true)
  {
    var g := GlobalSum(c.data, |c.data|);
    GlobalSumIgnoresChecksum(c.data, Hi(g), Lo(g), |c.data|);
  }

  /** Stamping the global checksum leaves the header checksum as it was. */
  lemma GlobalStampKeepsHeader(c: Cartridge, hi: bv8, lo: bv8)
    requires |c.data| > 0x14F
    ensures HeaderCheckSumOf(c.data[0x14E := hi][0x14F := lo]) == HeaderCheckSumOf(c.data)
  {
    var d := c.data[0x14E := hi][0x14F := lo];
    assert d[HeaderStart..HeaderEnd] == c.data[HeaderStart..HeaderEnd];
  }
}
