/** The command records the body parser produces, one constructor per
    record family, with the type each reports and the sample counts of the
    wait commands. */
module Command {
  import opened JavaInt
  import CT = CommandType

  datatype Command =
    | EOF
    | GameGearPSGStereoWrite(value: Int8)
    | PSGWrite(value: Int8)
    | YM2413Write(register: Int8, value: Int8)
    | YM2612WritePort0(register: Int8, value: Int8)
    | YM2612WritePort1(register: Int8, value: Int8)
    | YM2612SeekPCM(offset: UInt32)
    | WaitLong(duration: UInt16)
    | EndOfSoundData
    | DataBlock(dataType: Int8, size: UInt32)
    | Wait735
    | Wait882
    | WaitShort(n: CT.Nibble)
    | YM2612PCMWriteWait(n: CT.Nibble)
  {
    /** `type()`: the catalogue constant of the record; the payload plays
        no part in it. */
    function Type(): CT.Type {
      match this
      case EOF => CT.EOF
      case GameGearPSGStereoWrite(_) => CT.GameGearPSGStereoWrite
      case PSGWrite(_) => CT.PSGWrite
      case YM2413Write(_, _) => CT.YM2413Write
      case YM2612WritePort0(_, _) => CT.YM2612WritePort0
      case YM2612WritePort1(_, _) => CT.YM2612WritePort1
      case YM2612SeekPCM(_) => CT.YM2612SeekPCM
      case WaitLong(_) => CT.WaitLong
      case EndOfSoundData => CT.EndOfSoundData
      case DataBlock(_, _) => CT.DataBlock
      case Wait735 => CT.Wait735
      case Wait882 => CT.Wait882
      case WaitShort(n) => CT.WaitShort(n)
      case YM2612PCMWriteWait(n) => CT.YM2612PCMWriteWait(n)
    }

    /** The records that carry a `samples()` count. */
    predicate HasSamples() {
      WaitLong? || Wait735? || Wait882? || WaitShort? || YM2612PCMWriteWait?
    }

    /** `samples()`: WAIT_SHORT_n waits n + 1 samples, a PCM write-and-wait
        n samples. */
    function Samples(): nat
      requires HasSamples()
    {
      match this
      case WaitLong(d) => d
      case Wait735 => 735
      case Wait882 => 882
      case WaitShort(n) => n + 1
      case YM2612PCMWriteWait(n) => n
    }
  }

  /** The record of every short wait reports the type whose tag is 0x70 plus
      its nibble, and waits one sample more than that nibble. */
  lemma WaitShortSamples(n: CT.Nibble)
    ensures WaitShort(n).Type().Tag() == 0x70 + n
    ensures WaitShort(n).Samples() == WaitShort(n).Type().Tag() % 16 + 1
  {
  }

  /** A PCM write-and-wait waits exactly its tag minus 0x80, with no + 1. */
  lemma PCMWriteWaitSamples(n: CT.Nibble)
    ensures YM2612PCMWriteWait(n).Type().Tag() == 0x80 + n
    ensures YM2612PCMWriteWait(n).Samples() == YM2612PCMWriteWait(n).Type().Tag() - 0x80
  {
  }

  /** VGMCommandWaitShort7: type WAIT_SHORT_7 (tag 0x77), 8 samples. */
  lemma WaitShort7(c: Command)
    requires c == WaitShort(7)
    ensures c.Type() == CT.WaitShort(7) && c.Type().Tag() == 0x77
    ensures c.Samples() == 8
  {
  }

  /** VGMCommandYM2612PCMWriteWait1: type YM2612_PCM_WRITE_WAIT_1 (tag 0x81),
      1 sample. */
  lemma PCMWriteWait1(c: Command)
    requires c == YM2612PCMWriteWait(1)
    ensures c.Type() == CT.YM2612PCMWriteWait(1) && c.Type().Tag() == 0x81
    ensures c.Samples() == 1
  {
  }

  /** VGMCommandWait882: type WAIT_882 (tag 0x63), 882 samples. */
  lemma Wait882Samples(c: Command)
    requires c == Wait882
    ensures c.Type() == CT.Wait882 && c.Type().Tag() == 0x63
    ensures c.Samples() == 882
  {
  }

  /** VGMCommandGameGearPSGStereoWrite: the type is GAME_GEAR_PSG_STEREO_WRITE
      (tag 0x4F) whatever the payload, the payload is returned unchanged, and
      two such records are equal exactly when their payloads are. */
  lemma GameGearPSGStereo(v: Int8, w: Int8)
    ensures GameGearPSGStereoWrite(v).Type() == CT.GameGearPSGStereoWrite
    ensures GameGearPSGStereoWrite(v).Type().Tag() == 0x4F
    ensures GameGearPSGStereoWrite(v).value == v
    ensures GameGearPSGStereoWrite(v) == GameGearPSGStereoWrite(w) <==> v == w
  {
  }

  /** Distinct command types never share a record: the type of a record is
      EOF exactly for the EOF record. */
  lemma TypeIsEOF(c: Command)
    ensures c.Type() == CT.EOF <==> c == EOF
  {
  }
}
