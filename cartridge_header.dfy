/**
 * The header accessors of pkg/cartridge/header.go: fixed offsets into the
 * ROM image. A single-byte field is an index, which panics past the
 * image's length; a multi-byte field is a slice expression, which panics
 * only past the capacity and below it reads the spare bytes of the backing
 * array. Either panic is `Failure(IndexOutOfRange)` here. The display helpers
 * (TitleString, NewLicenseeString, OldLicenseeString) look names up in
 * tables and print; they are represented by `Licensee`, which says which
 * table LicenseeString consults and with which key.
 */
module CartridgeHeader {
  import opened Errors
  import opened BitsBitwise
  import opened CartridgeCartridge

  /** The byte at a fixed offset. */
  function ByteAt(c: Cartridge, offset: nat): (r: Result<bv8>)
    ensures r.Success? <==> offset < |c.data|
    ensures r.Success? ==> r.value == c.data[offset]
    ensures r.Failure? ==> r.error == IndexOutOfRange
  {
    if offset < |c.data| then Success(c.data[offset]) else Failure(IndexOutOfRange)
  }

  /**
   * `Data[from:to]` converted to an array of `count` bytes: the first
   * `count` bytes of the slice, which may run into the spare capacity.
   */
  function Field(c: Cartridge, from: nat, to: nat, count: nat): (r: Result<seq<bv8>>)
    requires from <= to && count <= to - from
    ensures r.Success? <==> to <= |c.data| + |c.spare|
    ensures r.Failure? ==> r.error == IndexOutOfRange
    ensures r.Success? ==> |r.value| == count && r.value == c.Backing()[from..from + count]
    ensures to <= |c.data| ==> r.Success? && r.value == c.data[from..from + count]
  {
    var b := c.Backing();
    if to <= |b| then Success(b[from..from + count]) else Failure(IndexOutOfRange)
  }

  function EntryPoint(c: Cartridge): (r: Result<seq<bv8>>)
    ensures r.Success? <==> |c.data| + |c.spare| >= 0x104
    ensures r.Failure? ==> r.error == IndexOutOfRange
    ensures r.Success? ==> r.value == c.Backing()[0x100..0x100 + 4]
    ensures |c.data| >= 0x104 ==> r.Success? && r.value == c.data[0x100..0x100 + 4]
  {
    Field(c, 0x100, 0x104, 4)
  }
  function NintendoLogo(c: Cartridge): (r: Result<seq<bv8>>)
    ensures r.Success? <==> |c.data| + |c.spare| >= 0x134
    ensures r.Failure? ==> r.error == IndexOutOfRange
    ensures r.Success? ==> r.value == c.Backing()[0x104..0x104 + 48]
    ensures |c.data| >= 0x134 ==> r.Success? && r.value == c.data[0x104..0x104 + 48]
  {
    Field(c, 0x104, 0x134, 48)
  }
  /** The slice 0x134..0x143 is sixteen bytes; the ten-byte array keeps the first ten. */
  function Title(c: Cartridge): (r: Result<seq<bv8>>)
    ensures r.Success? <==> |c.data| + |c.spare| >= 0x144
    ensures r.Failure? ==> r.error == IndexOutOfRange
    ensures r.Success? ==> r.value == c.Backing()[0x134..0x134 + 10]
    ensures |c.data| >= 0x144 ==> r.Success? && r.value == c.data[0x134..0x134 + 10]
  {
    Field(c, 0x134, 0x144, 10)
  }
  function ManufacturerCode(c: Cartridge): (r: Result<seq<bv8>>)
    ensures r.Success? <==> |c.data| + |c.spare| >= 0x143
    ensures r.Failure? ==> r.error == IndexOutOfRange
    ensures r.Success? ==> r.value == c.Backing()[0x13F..0x13F + 4]
    ensures |c.data| >= 0x143 ==> r.Success? && r.value == c.data[0x13F..0x13F + 4]
  {
    Field(c, 0x13F, 0x143, 4)
  }
  function CGBFlag(c: Cartridge): (r: Result<bv8>)
    ensures r.Success? <==> |c.data| > 0x143
    ensures r.Failure? ==> r.error == IndexOutOfRange
    ensures r.Success? ==> r.value == c.data[0x143]
  {
    ByteAt(c, 0x143)
  }
  function NewLicenseeCode(c: Cartridge): (r: Result<seq<bv8>>)
    ensures r.Success? <==> |c.data| + |c.spare| >= 0x146
    ensures r.Failure? ==> r.error == IndexOutOfRange
    ensures r.Success? ==> r.value == c.Backing()[0x144..0x144 + 2]
    ensures |c.data| >= 0x146 ==> r.Success? && r.value == c.data[0x144..0x144 + 2]
  {
    Field(c, 0x144, 0x146, 2)
  }
  function SGBFlag(c: Cartridge): (r: Result<bv8>)
    ensures r.Success? <==> |c.data| > 0x146
    ensures r.Failure? ==> r.error == IndexOutOfRange
    ensures r.Success? ==> r.value == c.data[0x146]
  {
    ByteAt(c, 0x146)
  }
  function CartridgeType(c: Cartridge): (r: Result<bv8>)
    ensures r.Success? <==> |c.data| > 0x147
    ensures r.Failure? ==> r.error == IndexOutOfRange
    ensures r.Success? ==> r.value == c.data[0x147]
  {
    ByteAt(c, 0x147)
  }
  function ROMSize(c: Cartridge): (r: Result<bv8>)
    ensures r.Success? <==> |c.data| > 0x148
    ensures r.Failure? ==> r.error == IndexOutOfRange
    ensures r.Success? ==> r.value == c.data[0x148]
  {
    ByteAt(c, 0x148)
  }
  function RAMSize(c: Cartridge): (r: Result<bv8>)
    ensures r.Success? <==> |c.data| > 0x149
    ensures r.Failure? ==> r.error == IndexOutOfRange
    ensures r.Success? ==> r.value == c.data[0x149]
  {
    ByteAt(c, 0x149)
  }
  function DestinationCode(c: Cartridge): (r: Result<bv8>)
    ensures r.Success? <==> |c.data| > 0x14A
    ensures r.Failure? ==> r.error == IndexOutOfRange
    ensures r.Success? ==> r.value == c.data[0x14A]
  {
    ByteAt(c, 0x14A)
  }
  function OldLicenseeCode(c: Cartridge): (r: Result<bv8>)
    ensures r.Success? <==> |c.data| > 0x14B
    ensures r.Failure? ==> r.error == IndexOutOfRange
    ensures r.Success? ==> r.value == c.data[0x14B]
  {
    ByteAt(c, 0x14B)
  }
  function MaskRomVersion(c: Cartridge): (r: Result<bv8>)
    ensures r.Success? <==> |c.data| > 0x14C
    ensures r.Failure? ==> r.error == IndexOutOfRange
    ensures r.Success? ==> r.value == c.data[0x14C]
  {
    ByteAt(c, 0x14C)
  }
  function HeaderChecksum(c: Cartridge): (r: Result<bv8>)
    ensures r.Success? <==> |c.data| > 0x14D
    ensures r.Failure? ==> r.error == IndexOutOfRange
    ensures r.Success? ==> r.value == c.data[0x14D]
  {
    ByteAt(c, 0x14D)
  }

  /** The global checksum, high byte at 0x14E first. */
  function GlobalChecksum(c: Cartridge): (r: Result<bv16>)
    ensures r.Success? <==> |c.data| > 0x14F
    ensures r.Failure? ==> r.error == IndexOutOfRange
    ensures r.Success? ==> Hi(r.value) == c.data[0x14E] && Lo(r.value) == c.data[0x14F]
  {
    if |c.data| > 0x14F then Success(To16(c.data[0x14E], c.data[0x14F])) else Failure(IndexOutOfRange)
  }

  /** SupportsColor: the CGB flag is 0x80. */
  function SupportsColor(c: Cartridge): (r: Result<bool>)
    ensures r.Success? <==> |c.data| > 0x143
    ensures r.Failure? ==> r.error == IndexOutOfRange
    ensures r.Success? ==> (r.value <==> c.data[0x143] == 0x80)
  {
    var f := CGBFlag(c);
    if f.Failure? then Failure(f.error) else Success(f.value == 0x80)
  }

  /** ColorOnly: the CGB flag is 0xC0. */
  function ColorOnly(c: Cartridge): (r: Result<bool>)
    ensures r.Success? <==> |c.data| > 0x143
    ensures r.Failure? ==> r.error == IndexOutOfRange
    ensures r.Success? ==> (r.value <==> c.data[0x143] == 0xC0)
  {
    var f := CGBFlag(c);
    if f.Failure? then Failure(f.error) else Success(f.value == 0xC0)
  }

  /** IsNewLicensee: the old licensee code is 0x33. */
  function IsNewLicensee(c: Cartridge): (r: Result<bool>)
    ensures r.Success? <==> |c.data| > 0x14B
    ensures r.Failure? ==> r.error == IndexOutOfRange
    ensures r.Success? ==> (r.value <==> c.data[0x14B] == 0x33)
  {
    var o := OldLicenseeCode(c);
    if o.Failure? then Failure(o.error) else Success(o.value == 0x33)
  }

  /** Which publisher table LicenseeString reads, and with which key. */
  datatype Licensee = NewCode(newCode: seq<bv8>) | OldCode(oldCode: bv8)

  /** LicenseeString: the new two-byte code when IsNewLicensee, otherwise the old code byte. */
  function LicenseeKey(c: Cartridge): (r: Result<Licensee>)
    ensures r.Success? <==> |c.data| > 0x14B
    ensures r.Failure? ==> r.error == IndexOutOfRange
    ensures r.Success? && c.data[0x14B] == 0x33 ==> r.value == NewCode(c.data[0x144..0x146])
    ensures r.Success? && c.data[0x14B] != 0x33 ==> r.value == OldCode(c.data[0x14B])
  {
    var isNew := IsNewLicensee(c);
    if isNew.Failure? then Failure(isNew.error)
    else if isNew.value then
      Success(NewCode(c.data[0x144..0x146]))
    else Success(OldCode(c.data[0x14B]))
  }

  /** An image long enough for every header field. */
  predicate HasHeader(c: Cartridge)
  {
    |c.data| >= 0x150
  }

  /** On a full header every single-byte field reads its own offset. */
  lemma ByteFieldOffsets(c: Cartridge)
    requires HasHeader(c)
    ensures CGBFlag(c) == Success(c.data[0x143]) && SGBFlag(c) == Success(c.data[0x146])
    ensures CartridgeType(c) == Success(c.data[0x147]) && ROMSize(c) == Success(c.data[0x148])
    ensures RAMSize(c) == Success(c.data[0x149]) && DestinationCode(c) == Success(c.data[0x14A])
    ensures OldLicenseeCode(c) == Success(c.data[0x14B]) && MaskRomVersion(c) == Success(c.data[0x14C])
    ensures HeaderChecksum(c) == Success(c.data[0x14D])
  {
  }

  /** The entry point and the logo are adjacent: together they are 0x100..0x133. */
  lemma EntryPointThenLogo(c: Cartridge)
    requires HasHeader(c)
    ensures EntryPoint(c).Success? && NintendoLogo(c).Success?
    ensures EntryPoint(c).value + NintendoLogo(c).value == c.data[0x100..0x134]
  {
    assert c.data[0x100..0x104] + c.data[0x104..0x134] == c.data[0x100..0x134];
  }

  /** The title keeps ten bytes and so stops before the manufacturer code at 0x13F. */
  lemma TitleBeforeManufacturer(c: Cartridge)
    requires HasHeader(c)
    ensures Title(c).Success? && ManufacturerCode(c).Success?
    ensures Title(c).value + c.data[0x13E..0x13F] + ManufacturerCode(c).value == c.data[0x134..0x143]
  {
    assert c.data[0x134..0x13E] + c.data[0x13E..0x13F] + c.data[0x13F..0x143] == c.data[0x134..0x143];
  }

  /** SupportsColor and ColorOnly never hold together; each is exactly its flag value. */
  lemma ColorFlagsExclusive(c: Cartridge)
    requires |c.data| > 0x143
    ensures !(SupportsColor(c) == Success(true) && ColorOnly(c) == Success(true))
    ensures SupportsColor(c) == Success(true) <==> c.data[0x143] == 0x80
    ensures ColorOnly(c) == Success(true) <==> c.data[0x143] == 0xC0
  {
  }

  /** LicenseeString takes the new-code table exactly when the old code is 0x33. */
  lemma LicenseeBranch(c: Cartridge)
    requires HasHeader(c)
    ensures LicenseeKey(c).Success?
    ensures LicenseeKey(c).value.NewCode? <==> c.data[0x14B] == 0x33
    ensures LicenseeKey(c).value.NewCode? ==> LicenseeKey(c).value.newCode == c.data[0x144..0x146]
    ensures LicenseeKey(c).value.OldCode? ==> LicenseeKey(c).value.oldCode == c.data[0x14B]
  {
  }

  /**
   * A slice field reaches past the image into the spare capacity where an
   * index fails: with 0x140 image bytes and four spare bytes, the title is
   * image bytes, the manufacturer code ends in spare bytes, and the CGB
   * flag at 0x143 is an index past the length.
   */
  lemma SliceReachesSpareCapacity(c: Cartridge)
    requires |c.data| == 0x140 && |c.spare| >= 4
    ensures Title(c) == Success(c.data[0x134..0x13E])
    ensures ManufacturerCode(c) == Success(c.data[0x13F..0x140] + c.spare[..3])
    ensures CGBFlag(c) == Failure(IndexOutOfRange)
  {
    assert c.Backing()[0x134..0x13E] == c.data[0x134..0x13E];
    assert c.Backing()[0x13F..0x143] == c.data[0x13F..0x140] + c.spare[..3];
  }

  /** A short image fails on the fields it does not reach and not on those it does. */
  lemma ShortImage(c: Cartridge)
    requires |c.data| == 0x148
    ensures CartridgeType(c) == Success(c.data[0x147])
    ensures ROMSize(c) == Failure(IndexOutOfRange)
    ensures GlobalChecksum(c) == Failure(IndexOutOfRange)
  {
  }
}
