/** The body parser (VGMParserVanillaBody): a cursor over the command
    stream that decodes one command per call, skips reserved opcodes, and
    turns the end-of-sound-data tag and running out inside a command into
    a permanent EOF.  As written, running out where a tag is expected is
    an error that repeats on every later call; `ParseStep` is the
    corrected behaviour, in which that too is EOF. */
module BodyParser {
  import opened Wrappers
  import opened JavaInt
  import opened ParseError
  import opened Command
  import CT = CommandType
  import H = Header
  import BS = ByteStream

  /** The payload width of a reserved opcode, or 0 when `tag` is not
      reserved.  Range 0x40..0x4E grew from one to two bytes in version
      0x160. */
  function ReservedWidth(tag: int, version: int): (w: nat)
    ensures w <= 4
  {
    if 0x30 <= tag <= 0x3F then 1
    else if 0x40 <= tag <= 0x4E then (if version < 0x160 then 1 else 2)
    else if 0xA1 <= tag <= 0xAF then 2
    else if 0xC9 <= tag <= 0xCF then 3
    else if 0xD7 <= tag <= 0xDF then 3
    else if 0xE2 <= tag <= 0xFF then 4
    else 0
  }

  /** One call's outcome: the result, where the cursor ends and whether the
      parser is finished afterwards. */
  datatype Step = Step(result: Validation<Command>, next: nat, finished: bool)

  /** A read ran off the end: every remaining byte has been consumed. */
  function EndOfInput(data: seq<UInt8>): Step {
    Step(Valid(EOF), |data|, true)
  }

  /** The `switch` on the type of a non-reserved tag, with the cursor `p`
      just past the tag byte, or at the end for the -1 read there. */
  function DecodeCommand(path: string, data: seq<UInt8>, p: nat, tag: int): (s: Step)
    requires p <= |data|
    ensures p <= s.next <= |data|
  {
    var t := CT.OfInt(tag);
    if t.Err? then
      Step(ErrorExceptionV(path, p, IllegalArgumentException(UnrecognizedTag(tag))), p, false)
    else
      match t.value
      case EOF =>
        CT.OfIntTag(tag); assert false; EndOfInput(data)
      case GameGearPSGStereoWrite =>
        if p + 1 > |data| then EndOfInput(data)
        else Step(Valid(GameGearPSGStereoWrite(ByteCast(data[p]))), p + 1, false)
      case PSGWrite =>
        if p + 1 > |data| then EndOfInput(data)
        else Step(Valid(PSGWrite(ByteCast(data[p]))), p + 1, false)
      case YM2413Write =>
        if p + 2 > |data| then EndOfInput(data)
        else Step(Valid(YM2413Write(ByteCast(data[p]), ByteCast(data[p + 1]))), p + 2, false)
      case YM2612WritePort0 =>
        if p + 2 > |data| then EndOfInput(data)
        else Step(Valid(YM2612WritePort0(ByteCast(data[p]), ByteCast(data[p + 1]))), p + 2, false)
      case YM2612WritePort1 =>
        if p + 2 > |data| then EndOfInput(data)
        else Step(Valid(YM2612WritePort1(ByteCast(data[p]), ByteCast(data[p + 1]))), p + 2, false)
      case YM2612SeekPCM =>
        if p + 4 > |data| then EndOfInput(data)
        else Step(Valid(YM2612SeekPCM(BS.LittleEndian32(data[p..p + 4]))), p + 4, false)
      case WaitLong =>
        if p + 2 > |data| then EndOfInput(data)
        else Step(Valid(WaitLong(BS.LittleEndian16(data[p..p + 2]))), p + 2, false)
      case EndOfSoundData =>
        Step(Valid(EndOfSoundData), p, true)
      case DataBlock =>
        if p + 1 > |data| then EndOfInput(data)
        else if ByteCast(data[p]) != 0x66 then
          Step(ErrorV(path, p + 1,
                      BadDataBlockCompatibility(p + 1, 0x67, ToUnsigned(ByteCast(data[p])), 0x66)),
               p + 1, false)
        else if p + 6 > |data| then EndOfInput(data)
        else
          var size := BS.LittleEndian32(data[p + 2..p + 6]);
          var skipped := if p + 6 + size <= |data| then size else |data| - (p + 6);
          Step(Valid(DataBlock(ByteCast(data[p + 1]), size)), p + 6 + skipped, false)
      case Wait735 => Step(Valid(Wait735), p, false)
      case Wait882 => Step(Valid(Wait882), p, false)
      case WaitShort(n) => Step(Valid(WaitShort(n)), p, false)
      case YM2612PCMWriteWait(n) => Step(Valid(YM2612PCMWriteWait(n)), p, false)
  }

  /** The `while (true)` loop of `parse`: reserved opcodes are consumed and
      produce nothing; the first other tag is decoded.  Every call consumes
      at least one byte unless the input is already exhausted. */
  function DecodeAt(path: string, data: seq<UInt8>, pos: nat, version: int): (s: Step)
    requires pos <= |data|
    ensures pos <= s.next <= |data|
    ensures pos < |data| ==> pos < s.next
    ensures !s.finished ==> pos < s.next
    decreases |data| - pos
  {
    if pos == |data| then EndOfInput(data)
    else
      var tag := data[pos];
      var width := ReservedWidth(tag, version);
      if width == 0 then DecodeCommand(path, data, pos + 1, tag)
      else if pos + 1 + width > |data| then EndOfInput(data)
      else DecodeAt(path, data, pos + 1 + width, version)
  }

  /** `parse()`, corrected: once finished, EOF without reading anything. */
  function ParseStep(path: string, data: seq<UInt8>, pos: nat, version: int, finished: bool): Step
    requires pos <= |data|
  {
    if finished then Step(Valid(EOF), pos, true) else DecodeAt(path, data, pos, version)
  }

  /** A tag read on an exhausted input, as written: `readUnsignedByte`
      gives -1, no reserved range holds -1, and `ofInt(-1)` throws. */
  function TagPastEnd(path: string, data: seq<UInt8>): Step {
    DecodeCommand(path, data, |data|, -1)
  }

  /** The loop of `parse` as written: a tag expected where the input ends
      is the -1 of TagPastEnd; everything else is as in DecodeAt. */
  function DecodeAtAsWritten(path: string, data: seq<UInt8>, pos: nat, version: int): (s: Step)
    requires pos <= |data|
    ensures pos <= s.next <= |data|
    decreases |data| - pos
  {
    if pos == |data| then TagPastEnd(path, data)
    else
      var width := ReservedWidth(data[pos], version);
      if width == 0 || pos + 1 + width > |data| then DecodeAt(path, data, pos, version)
      else DecodeAtAsWritten(path, data, pos + 1 + width, version)
  }

  /** `parse()` as written. */
  function ParseStepAsWritten(path: string, data: seq<UInt8>, pos: nat, version: int, finished: bool): (s: Step)
    requires pos <= |data|
    ensures s.next <= |data|
  {
    if finished then Step(Valid(EOF), pos, true) else DecodeAtAsWritten(path, data, pos, version)
  }

  /** The tag read past the end reports "Unrecognized tag" for -1 at the
      end of the input, consumes nothing and leaves the parser unfinished. */
  lemma TagPastEndUnfinished(path: string, data: seq<UInt8>)
    ensures TagPastEnd(path, data)
            == Step(ErrorExceptionV(path, |data|, IllegalArgumentException(UnrecognizedTag(-1))), |data|, false)
  {
  }

  /** The as-written and the corrected call differ only where the as-written
      one reads a tag past the end: it then reports that error, where the
      corrected one ends the input. */
  lemma {:induction false} AsWrittenDiffersOnlyPastEnd(path: string, data: seq<UInt8>, pos: nat, version: int)
    requires pos <= |data|
    ensures var w := DecodeAtAsWritten(path, data, pos, version);
      if w.result == TagPastEnd(path, data).result
      then w == TagPastEnd(path, data) && DecodeAt(path, data, pos, version) == EndOfInput(data)
      else w == DecodeAt(path, data, pos, version)
    decreases |data| - pos
  {
    if pos < |data| {
      var width := ReservedWidth(data[pos], version);
      if width == 0 {
        var s := DecodeCommand(path, data, pos + 1, data[pos]);
        if s.result.Invalid? {
          assert s.result.errors[0].message != UnrecognizedTag(-1);
        }
      } else if pos + 1 + width <= |data| {
        AsWrittenDiffersOnlyPastEnd(path, data, pos + 1 + width, version);
      }
    }
  }

  /** The step the as-written parser has reached after `n + 1` calls. */
  function CallsAsWritten(path: string, data: seq<UInt8>, version: int, pos: nat, finished: bool, n: nat): Step
    requires pos <= |data|
    decreases n
  {
    var s := ParseStepAsWritten(path, data, pos, version, finished);
    if n == 0 then s else CallsAsWritten(path, data, version, s.next, s.finished, n - 1)
  }

  /** As written, a parser that has consumed its whole input without
      finishing answers every later call with the same error, without
      moving or finishing: `execute`'s loop, which goes on after an error,
      never ends. */
  lemma {:induction false} StuckPastEnd(path: string, data: seq<UInt8>, version: int, n: nat)
    ensures CallsAsWritten(path, data, version, |data|, false, n) == TagPastEnd(path, data)
  {
    if n > 0 {
      StuckPastEnd(path, data, version, n - 1);
    }
  }

  /** A body of one 0x62 with no end-of-sound-data tag: the first call
      gives WAIT_735; as written the second reports "Unrecognized tag" and
      leaves the parser unfinished, where the corrected one returns EOF. */
  lemma WaitThenPastEnd(path: string, version: int)
    ensures ParseStepAsWritten(path, [0x62], 0, version, false) == Step(Valid(Wait735), 1, false)
    ensures ParseStepAsWritten(path, [0x62], 1, version, false).result.Invalid?
    ensures !ParseStepAsWritten(path, [0x62], 1, version, false).finished
    ensures ParseStep(path, [0x62], 1, version, false) == Step(Valid(EOF), 1, true)
  {
  }

  /** The position of the tag byte `parse` decodes after skipping the
      reserved opcodes from `pos` (|data| if the input ends first). */
  function TagPosition(data: seq<UInt8>, pos: nat, version: int): (q: nat)
    requires pos <= |data|
    ensures pos <= q <= |data|
    decreases |data| - pos
  {
    if pos == |data| then |data|
    else
      var width := ReservedWidth(data[pos], version);
      if width == 0 then pos
      else if pos + 1 + width > |data| then |data|
      else TagPosition(data, pos + 1 + width, version)
  }

  /** A finished parser returns EOF without reading. */
  lemma FinishedIsSticky(path: string, data: seq<UInt8>, pos: nat, version: int)
    requires pos <= |data|
    ensures ParseStep(path, data, pos, version, true) == Step(Valid(EOF), pos, true)
  {
  }

  /** The parser finishes exactly on EOF and on END_OF_SOUND_DATA; EOF means
      the whole input has been consumed.  An error never finishes the
      parser, holds one error at the cursor, and is an unrecognized tag or a
      bad data-block compatibility byte: running out of input is never an
      error. */
  lemma {:induction false} FinishedExactlyOnEnd(path: string, data: seq<UInt8>, pos: nat, version: int)
    requires pos <= |data|
    ensures var s := DecodeAt(path, data, pos, version);
      && (s.finished <==> s.result == Valid(EOF) || s.result == Valid(EndOfSoundData))
      && (s.result == Valid(EOF) ==> s.next == |data|)
      && (s.result.Invalid? ==>
            && |s.result.errors| == 1
            && s.result.errors[0].offset == s.next
            && (s.result.errors[0].message.UnrecognizedTag?
                || s.result.errors[0].message.BadDataBlockCompatibility?))
    decreases |data| - pos
  {
    if pos < |data| {
      var width := ReservedWidth(data[pos], version);
      if width > 0 && pos + 1 + width <= |data| {
        FinishedExactlyOnEnd(path, data, pos + 1 + width, version);
      }
    }
  }

  /** A command other than EOF carries the type whose tag is the last tag
      byte read, and the cursor has passed that byte; an unrecognized tag
      error names that byte too. */
  lemma {:induction false} DecodedTag(path: string, data: seq<UInt8>, pos: nat, version: int)
    requires pos <= |data|
    ensures var s := DecodeAt(path, data, pos, version);
            var q := TagPosition(data, pos, version);
      && (s.result.Valid? && s.result.value != EOF ==>
            q < s.next && data[q] == s.result.value.Type().Tag())
      && (s.result.Invalid? && |s.result.errors| == 1 && s.result.errors[0].message.UnrecognizedTag? ==>
            q < |data| && s.result.errors[0].message.tag == data[q] && !CT.Catalogued(data[q]))
    decreases |data| - pos
  {
    if pos < |data| {
      var width := ReservedWidth(data[pos], version);
      if width == 0 {
        CT.OfIntTag(data[pos]);
        CT.OfIntDomain(data[pos]);
      } else if pos + 1 + width <= |data| {
        DecodedTag(path, data, pos + 1 + width, version);
      }
    }
  }

  /** A reserved opcode with its whole payload present is consumed and
      produces no command: parsing continues after it. */
  lemma ReservedSkipped(path: string, data: seq<UInt8>, pos: nat, version: int)
    requires pos < |data| && ReservedWidth(data[pos], version) > 0
    requires pos + 1 + ReservedWidth(data[pos], version) <= |data|
    ensures DecodeAt(path, data, pos, version)
            == DecodeAt(path, data, pos + 1 + ReservedWidth(data[pos], version), version)
  {
  }

  /** A tag that is neither reserved nor catalogued is an error one byte
      on, with the parser still not finished. */
  lemma UnrecognizedTagError(path: string, data: seq<UInt8>, pos: nat, version: int)
    requires pos < |data| && ReservedWidth(data[pos], version) == 0 && !CT.Catalogued(data[pos])
    ensures var s := DecodeAt(path, data, pos, version);
      && s.next == pos + 1 && !s.finished
      && s.result == ErrorExceptionV(path, pos + 1, IllegalArgumentException(UnrecognizedTag(data[pos])))
  {
    CT.OfIntDomain(data[pos]);
  }

  /** 0x67 must be followed by 0x66; any other byte is an error right after
      it, and the parser is not finished. */
  lemma DataBlockCompatibility(path: string, data: seq<UInt8>, pos: nat, version: int)
    requires pos + 1 < |data| && data[pos] == 0x67 && data[pos + 1] != 0x66
    ensures var s := DecodeAt(path, data, pos, version);
      && s.next == pos + 2 && !s.finished
      && s.result.Invalid? && s.result.errors[0].offset == pos + 2
      && s.result.errors[0].message == BadDataBlockCompatibility(pos + 2, 0x67, ToUnsigned(ByteCast(data[pos + 1])), 0x66)
  {
    CT.OfIntRoundTrip(CT.DataBlock);
  }

  class BodyParser {
    const header: H.Header
    const path: string
    const stream: BS.Stream
    var finished: bool

    constructor (header: H.Header, path: string, stream: BS.Stream)
      ensures this.header == header && this.path == path && this.stream == stream
      ensures !finished
    {
      this.header := header;
      this.path := path;
      this.stream := stream;
      finished := false;
    }

    /** `readByte()`: an unsigned byte read, cast to a Java byte; the -1
        of the end of the input is the EOFException (None). */
    method ReadByte() returns (r: Option<Int8>)
      requires stream.Valid()
      modifies stream
      ensures stream.Valid()
      ensures old(stream.count) < |stream.data| ==>
        r == Some(ByteCast(stream.data[old(stream.count)])) && stream.count == old(stream.count) + 1
      ensures old(stream.count) == |stream.data| ==> r == None && stream.count == old(stream.count)
    {
      var b := stream.ReadUnsignedByte();
      if b == -1 {
        return None;
      }
      return Some(ByteCast(b));
    }

    /** `skipReservedCommand(tag)`: consumes the payload of a reserved
        opcode; `eof` reports that the input ended inside it. */
    method SkipReservedCommand(tag: int) returns (skipped: bool, eof: bool)
      requires stream.Valid()
      modifies stream
      ensures stream.Valid()
      ensures skipped <==> ReservedWidth(tag, header.version) > 0
      ensures !skipped ==> !eof && stream.count == old(stream.count)
      ensures skipped ==>
        var end := old(stream.count) + ReservedWidth(tag, header.version);
        if end <= |stream.data| then !eof && stream.count == end
        else eof && stream.count == |stream.data|
    {
      var width := ReservedWidth(tag, header.version);
      if width == 0 {
        return false, false;
      }
      var payload := stream.ReadBytes(width);
      return true, payload.None?;
    }

    /** `parse()` as written: the next command, an EOF, or an error. */
    method Parse() returns (r: Validation<Command>)
      requires stream.Valid()
      modifies this, stream
      ensures stream.Valid()
      ensures Step(r, stream.count, finished)
              == ParseStepAsWritten(path, stream.data, old(stream.count), header.version, old(finished))
    {
      if finished {
        return Valid(EOF);
      }
      ghost var start := stream.count;
      var data := stream.data;
      while true
        invariant stream.Valid() && !finished
        invariant DecodeAtAsWritten(path, data, stream.count, header.version)
                  == DecodeAtAsWritten(path, data, start, header.version)
        decreases |data| - stream.count
      {
        ghost var here := stream.count;
        var tag := stream.ReadUnsignedByte();
        var skipped, eof := SkipReservedCommand(tag);
        if eof {
          finished := true;
          return Valid(EOF);
        }
        if skipped {
          continue;
        }
        r := ParseCommand(tag);
        return;
      }
    }

    /** `parse()` corrected: the tag read at the end of the input ends the
        body as every other read past the end does, with EOF and the parser
        finished.  This turns the one result only that read produces, so
        every other call is `parse()`'s own. */
    method ParseCorrected() returns (r: Validation<Command>)
      requires stream.Valid()
      modifies this, stream
      ensures stream.Valid()
      ensures Step(r, stream.count, finished)
              == ParseStep(path, stream.data, old(stream.count), header.version, old(finished))
    {
      if !finished {
        AsWrittenDiffersOnlyPastEnd(path, stream.data, stream.count, header.version);
      }
      r := Parse();
      if r == TagPastEnd(path, stream.data).result {
        finished := true;
        r := Valid(EOF);
      }
    }

    /** The `switch (type)` of `parse`, entered with the cursor just past a
        non-reserved tag, or at the end with the tag -1. */
    method ParseCommand(tag: int) returns (r: Validation<Command>)
      requires stream.Valid() && !finished
      modifies this, stream
      ensures stream.Valid()
      ensures Step(r, stream.count, finished)
              == DecodeCommand(path, stream.data, old(stream.count), tag)
    {
      var t := CT.OfInt(tag);
      if t.Err? {
        return ErrorExceptionV(path, stream.count, IllegalArgumentException(UnrecognizedTag(tag)));
      }
      CT.OfIntTag(tag);
      match t.value
      case EOF =>
        assert false;
      case GameGearPSGStereoWrite =>
        var v := ReadByte();
        if v.None? { finished := true; return Valid(EOF); }
        return Valid(GameGearPSGStereoWrite(v.value));
      case PSGWrite =>
        var v := ReadByte();
        if v.None? { finished := true; return Valid(EOF); }
        return Valid(PSGWrite(v.value));
      case YM2413Write =>
        var reg := ReadByte();
        if reg.None? { finished := true; return Valid(EOF); }
        var val := ReadByte();
        if val.None? { finished := true; return Valid(EOF); }
        return Valid(YM2413Write(reg.value, val.value));
      case YM2612WritePort0 =>
        var reg := ReadByte();
        if reg.None? { finished := true; return Valid(EOF); }
        var val := ReadByte();
        if val.None? { finished := true; return Valid(EOF); }
        return Valid(YM2612WritePort0(reg.value, val.value));
      case YM2612WritePort1 =>
        var reg := ReadByte();
        if reg.None? { finished := true; return Valid(EOF); }
        var val := ReadByte();
        if val.None? { finished := true; return Valid(EOF); }
        return Valid(YM2612WritePort1(reg.value, val.value));
      case YM2612SeekPCM =>
        var offset := stream.ReadInt();
        if offset.None? { finished := true; return Valid(EOF); }
        return Valid(YM2612SeekPCM(ToUnsigned(offset.value)));
      case WaitLong =>
        var duration := stream.ReadUnsignedShort();
        if duration.None? { finished := true; return Valid(EOF); }
        return Valid(WaitLong(duration.value));
      case EndOfSoundData =>
        finished := true;
        return Valid(EndOfSoundData);
      case DataBlock =>
        var pad := ReadByte();
        if pad.None? { finished := true; return Valid(EOF); }
        if pad.value != 0x66 {
          return ErrorV(path, stream.count,
                        BadDataBlockCompatibility(stream.count, 0x67, ToUnsigned(pad.value), 0x66));
        }
        var dataType := ReadByte();
        if dataType.None? { finished := true; return Valid(EOF); }
        var size := stream.ReadInt();
        if size.None? { finished := true; return Valid(EOF); }
        var skipped := stream.Skip(ToUnsigned(size.value));
        return Valid(DataBlock(dataType.value, ToUnsigned(size.value)));
      case Wait735 => return Valid(Wait735);
      case Wait882 => return Valid(Wait882);
      case WaitShort(n) => return Valid(WaitShort(n));
      case YM2612PCMWriteWait(n) => return Valid(YM2612PCMWriteWait(n));
    }
  }
}
