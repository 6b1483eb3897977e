/** The closed catalogue of VGM command types (the Java enum
    `VGMCommandType.Type`): each constant's numeric tag, and the lookup from
    a tag byte back to its type. */
module CommandType {
  import opened Wrappers

  /** The low nibble that distinguishes WAIT_SHORT_0..F and
      YM2612_PCM_WRITE_WAIT_0..F. */
  type Nibble = n: int | 0 <= n < 16

  /** The thrown IllegalArgumentException of `ofInt`. */
  datatype UnrecognizedTag = UnrecognizedTag(tag: int)

  /** The 44 constants; the sixteen WAIT_SHORT_n and sixteen
      YM2612_PCM_WRITE_WAIT_n constants are indexed by their nibble. */
  datatype Type =
    | EOF
    | GameGearPSGStereoWrite
    | PSGWrite
    | YM2413Write
    | YM2612WritePort0
    | YM2612WritePort1
    | YM2612SeekPCM
    | WaitLong
    | EndOfSoundData
    | DataBlock
    | Wait735
    | Wait882
    | WaitShort(n: Nibble)
    | YM2612PCMWriteWait(n: Nibble)
  {
    /** The numeric tag the constant was declared with. */
    function Tag(): (r: int)
      ensures 0 <= r < 0x100
      ensures r == 0 <==> this == EOF
    {
      match this
      case EOF => 0x00
      case GameGearPSGStereoWrite => 0x4F
      case PSGWrite => 0x50
      case YM2413Write => 0x51
      case YM2612WritePort0 => 0x52
      case YM2612WritePort1 => 0x53
      case YM2612SeekPCM => 0xE0
      case WaitLong => 0x61
      case EndOfSoundData => 0x66
      case DataBlock => 0x67
      case Wait735 => 0x62
      case Wait882 => 0x63
      case WaitShort(n) => 0x70 + n
      case YM2612PCMWriteWait(n) => 0x80 + n
    }
  }

  /** `Type.ofInt`: the constant for a catalogued tag.  EOF is never
      returned; every other integer is an unrecognized tag. */
  function OfInt(t: int): Result<Type, UnrecognizedTag> {
    match t
      case 0x4F => Ok(GameGearPSGStereoWrite)
      case 0x50 => Ok(PSGWrite)
      case 0x51 => Ok(YM2413Write)
      case 0x52 => Ok(YM2612WritePort0)
      case 0x53 => Ok(YM2612WritePort1)
      case 0x61 => Ok(WaitLong)
      case 0x62 => Ok(Wait735)
      case 0x63 => Ok(Wait882)
      case 0x66 => Ok(EndOfSoundData)
      case 0x67 => Ok(DataBlock)
      case 0x70 => Ok(WaitShort(0))
      case 0x71 => Ok(WaitShort(1))
      case 0x72 => Ok(WaitShort(2))
      case 0x73 => Ok(WaitShort(3))
      case 0x74 => Ok(WaitShort(4))
      case 0x75 => Ok(WaitShort(5))
      case 0x76 => Ok(WaitShort(6))
      case 0x77 => Ok(WaitShort(7))
      case 0x78 => Ok(WaitShort(8))
      case 0x79 => Ok(WaitShort(9))
      case 0x7A => Ok(WaitShort(10))
      case 0x7B => Ok(WaitShort(11))
      case 0x7C => Ok(WaitShort(12))
      case 0x7D => Ok(WaitShort(13))
      case 0x7E => Ok(WaitShort(14))
      case 0x7F => Ok(WaitShort(15))
      case 0x80 => Ok(YM2612PCMWriteWait(0))
      case 0x81 => Ok(YM2612PCMWriteWait(1))
      case 0x82 => Ok(YM2612PCMWriteWait(2))
      case 0x83 => Ok(YM2612PCMWriteWait(3))
      case 0x84 => Ok(YM2612PCMWriteWait(4))
      case 0x85 => Ok(YM2612PCMWriteWait(5))
      case 0x86 => Ok(YM2612PCMWriteWait(6))
      case 0x87 => Ok(YM2612PCMWriteWait(7))
      case 0x88 => Ok(YM2612PCMWriteWait(8))
      case 0x89 => Ok(YM2612PCMWriteWait(9))
      case 0x8A => Ok(YM2612PCMWriteWait(10))
      case 0x8B => Ok(YM2612PCMWriteWait(11))
      case 0x8C => Ok(YM2612PCMWriteWait(12))
      case 0x8D => Ok(YM2612PCMWriteWait(13))
      case 0x8E => Ok(YM2612PCMWriteWait(14))
      case 0x8F => Ok(YM2612PCMWriteWait(15))
      case 0xE0 => Ok(YM2612SeekPCM)
      case _ => Err(UnrecognizedTag(t))
  }

  /** The tags `ofInt` accepts. */
  predicate Catalogued(t: int) {
    t == 0x4F || 0x50 <= t <= 0x53 || 0x61 <= t <= 0x63 || t == 0x66 || t == 0x67
    || 0x70 <= t <= 0x8F || t == 0xE0
  }

  /** All constants, in declaration order. */
  function AllTypes(): (r: seq<Type>)
    ensures |r| == 44
  {
    [ EOF,
      GameGearPSGStereoWrite,
      PSGWrite,
      YM2413Write,
      YM2612WritePort0,
      YM2612WritePort1,
      YM2612SeekPCM,
      WaitLong,
      EndOfSoundData,
      DataBlock,
      Wait735,
      Wait882 ]
    + seq(16, n requires 0 <= n < 16 => WaitShort(n))
    + seq(16, n requires 0 <= n < 16 => YM2612PCMWriteWait(n))
  }

  /** Whenever `ofInt(x)` succeeds it returns a constant other than EOF
      whose tag is `x`. */
  lemma OfIntTag(x: int)
    ensures OfInt(x).Ok? ==> OfInt(x).value != EOF && OfInt(x).value.Tag() == x
  {
  }

  /** `ofInt` succeeds exactly on the catalogued tags; on any other integer
      it fails with that integer as the unrecognized tag. */
  lemma OfIntDomain(x: int)
    ensures OfInt(x).Ok? <==> Catalogued(x)
    ensures OfInt(x).Err? ==> OfInt(x).error == UnrecognizedTag(x)
  {
  }

  /** `ofInt(t.tag()) == t` for every constant but EOF, whose tag 0 is
      rejected. */
  lemma OfIntRoundTrip(t: Type)
    ensures t != EOF ==> OfInt(t.Tag()) == Ok(t)
    ensures t == EOF ==> OfInt(t.Tag()).Err?
  {
  }

  /** Distinct constants have distinct tags. */
  lemma TagInjective(a: Type, b: Type)
    ensures a.Tag() == b.Tag() ==> a == b
  {
    if a.Tag() == b.Tag() && a != EOF {
      OfIntRoundTrip(a);
      OfIntRoundTrip(b);
    }
  }

  /** WAIT_SHORT_n has tag 0x70 + n and YM2612_PCM_WRITE_WAIT_n has tag
      0x80 + n. */
  lemma NibbleTags(n: Nibble)
    ensures WaitShort(n).Tag() == 0x70 + n
    ensures YM2612PCMWriteWait(n).Tag() == 0x80 + n
  {
  }

  /** The catalogue is complete: every constant appears in AllTypes, and
      the 44 entries carry pairwise distinct tags. */
  lemma AllTypesComplete(t: Type)
    ensures t in AllTypes()
  {
    var all := AllTypes();
    match t
    case WaitShort(n) => assert all[12 + n] == t;
    case YM2612PCMWriteWait(n) => assert all[28 + n] == t;
    case _ =>
  }

  lemma AllTypesDistinct()
    ensures forall i, j :: 0 <= i < j < |AllTypes()| ==> AllTypes()[i].Tag() != AllTypes()[j].Tag()
  {
    var all := AllTypes();
    forall i, j | 0 <= i < j < |all| ensures all[i].Tag() != all[j].Tag() {
      if all[i].Tag() == all[j].Tag() {
        TagInjective(all[i], all[j]);
      }
    }
  }
}
