/** The vanilla header parser (VGMParserVanillaHeader): it reads the magic
    number, the EOF offset and the version, then, for a supported version,
    the fixed 64-byte header, skips to the data offset and hands the shared
    counting stream to a body parser. */
module HeaderParser {
  import opened Wrappers
  import opened JavaInt
  import opened ParseError
  import H = Header
  import BS = ByteStream
  import BP = BodyParser
  import V = Version
  import Supported

  /** "Vgm " */
  const MAGIC: seq<UInt8> := [0x56, 0x67, 0x6D, 0x20]

  /** The supported versions as the unsigned numbers an error lists. */
  const SUPPORTED_NUMBERS: seq<UInt32> := [0x150, 0x170]

  /** The header's size: every versioned field ends before this offset. */
  const HEADER_SIZE: nat := 64

  /** The unsigned little-endian 32-bit word at offset `at`. */
  function Word(data: seq<UInt8>, at: nat): UInt32
    requires at + 4 <= |data|
  {
    BS.LittleEndian32(data[at..at + 4])
  }

  /** Relative offsets stored in the header, made absolute; a GD3 or loop
      offset of zero means "none" and stays zero, a data offset of zero
      means the pre-1.50 layout whose data starts at 0x0C. */
  function GD3Offset(raw: UInt32): int { if raw > 0 then raw + 0x14 else raw }
  function LoopOffset(raw: UInt32): int { if raw > 0 then raw + 0x1C else raw }
  function DataOffset(raw: UInt32): int { if raw > 0 then raw + 0x34 else 0x0C }

  /** `SUPPORTED.contains(VGMVersion.of(v))` for the int with bits `raw`. */
  predicate VersionSupported(raw: UInt32) {
    Supported.Contains(V.Version(ToSigned(raw)))
  }

  lemma VersionSupportedExactly(raw: UInt32)
    ensures VersionSupported(raw) <==> raw == 0x150 || raw == 0x170
  {
    Supported.ContainsExactly(V.Version(ToSigned(raw)));
    assert ToUnsigned(ToSigned(raw)) == raw;
  }

  /** The error an EOFException raised by a read becomes: since a short
      read consumes what is left, it sits at the end of the input. */
  function EndOfInputError(path: string, data: seq<UInt8>): (e: ParseError)
    ensures e.offset == |data| && e.exception == Some(EOFException)
  {
    ErrorException(path, |data|, EOFException)
  }

  /** Reading and comparing the four magic bytes at `at`: the error, if any. */
  function MagicCheck(path: string, data: seq<UInt8>, at: nat): Option<ParseError> {
    if at + 4 > |data| then Some(EndOfInputError(path, data))
    else if data[at..at + 4] != MAGIC then
      Some(Error(path, at + 4, BadMagic(at + 4, data[at..at + 4], MAGIC)))
    else None
  }

  /** Reading the version word at `at` and checking it is supported. */
  function VersionCheck(path: string, data: seq<UInt8>, at: nat): Option<ParseError> {
    if at + 4 > |data| then Some(EndOfInputError(path, data))
    else if !VersionSupported(Word(data, at)) then
      Some(Error(path, at + 4, UnsupportedVersion(at + 4, Word(data, at), SUPPORTED_NUMBERS)))
    else None
  }

  /** The builder once the versioned fields have been read from offset 12 as
      far as the input reaches: a field is set once all its bytes arrived.
      The fields come in three runs of five, read by one method each. */
  function FillVersioned(b: H.Builder, data: seq<UInt8>): H.Builder {
    FillChips(FillTimings(FillClocks(b, data), data), data)
  }

  /** Offsets 12 to 32: SN76489 and YM2413 clocks, GD3 offset, sample count,
      loop offset. */
  function FillClocks(b: H.Builder, data: seq<UInt8>): H.Builder {
    var n := |data|;
    b.(chipSN76489Clock := if n >= 16 then Some(Word(data, 12)) else b.chipSN76489Clock,
       chipYM2413Clock := if n >= 20 then Some(Word(data, 16)) else b.chipYM2413Clock,
       offsetGD3 := if n >= 24 then Some(GD3Offset(Word(data, 20))) else b.offsetGD3,
       sampleCount := if n >= 28 then Some(Word(data, 24)) else b.sampleCount,
       loopOffset := if n >= 32 then Some(LoopOffset(Word(data, 28))) else b.loopOffset)
  }

  /** Offsets 32 to 44: loop sample count, rate, SN76489 feedback, shift
      register width and flags.  Width and flags are read with
      `readUnsignedByte`, which gives -1 rather than failing once the input
      has ended; the read after them then fails. */
  function FillTimings(b: H.Builder, data: seq<UInt8>): H.Builder {
    var n := |data|;
    b.(loopSampleCount := if n >= 36 then Some(Word(data, 32)) else b.loopSampleCount,
       rate := if n >= 40 then Some(Word(data, 36)) else b.rate,
       chipSN76489Feedback :=
         if n >= 42 then Some(BS.LittleEndian16(data[40..42])) else b.chipSN76489Feedback,
       chipSN76489ShiftRegisterWidth :=
         if n >= 43 then Some(data[42] as int)
         else if n >= 42 then Some(-1)
         else b.chipSN76489ShiftRegisterWidth,
       chipSN76489Flags :=
         if n >= 44 then Some(data[43] as int)
         else if n >= 42 then Some(-1)
         else b.chipSN76489Flags)
  }

  /** Offsets 44 to 64: YM2612 and YM2151 clocks, data offset, Sega PCM
      clock and interface register. */
  function FillChips(b: H.Builder, data: seq<UInt8>): H.Builder {
    var n := |data|;
    b.(chipYM2612Clock := if n >= 48 then Some(Word(data, 44)) else b.chipYM2612Clock,
       chipYM2151Clock := if n >= 52 then Some(Word(data, 48)) else b.chipYM2151Clock,
       dataOffset := if n >= 56 then Some(DataOffset(Word(data, 52))) else b.dataOffset,
       chipSegaPCMClock := if n >= 60 then Some(Word(data, 56)) else b.chipSegaPCMClock,
       chipSegaPCMInterfaceRegister :=
         if n >= 64 then Some(Word(data, 60)) else b.chipSegaPCMInterfaceRegister)
  }

  /** How a header parse ends: a header (the body follows at its data
      offset), a reported parse error, or a failed position invariant. */
  datatype HeaderOutcome =
    | Accepted(header: H.Header)
    | Rejected(error: ParseError)
    | Violated(position: int, expected: int)

  /** The byte count of the shared stream once the parse has ended that way. */
  function EndCount(o: HeaderOutcome): int {
    match o
    case Accepted(h) => h.dataOffset
    case Rejected(e) => e.offset
    case Violated(p, _) => p
  }

  /** The stream position after the skip towards `dataOffset` from 64. */
  function SkipTarget(dataOffset: int, size: nat): int {
    if HEADER_SIZE < dataOffset then (if dataOffset <= size then dataOffset else size)
    else HEADER_SIZE
  }

  /** Everything from offset 12 on, with `b` the builder holding the EOF
      offset and the version. */
  function VersionedSpec(path: string, data: seq<UInt8>, b: H.Builder): HeaderOutcome
    requires b.eofOffset.Some? && b.version.Some?
  {
    if |data| < HEADER_SIZE then Rejected(EndOfInputError(path, data))
    else
      var header := H.Build(FillVersioned(b, data)).value;
      var at := SkipTarget(header.dataOffset, |data|);
      if at != header.dataOffset then Violated(at, header.dataOffset)
      else Accepted(header)
  }

  /** The builder once the EOF offset (at 4) and the version (at 8) are in. */
  function Initial(data: seq<UInt8>): (b: H.Builder)
    requires |data| >= 12
    ensures b.eofOffset.Some? && b.version.Some?
  {
    H.EMPTY.(eofOffset := Some(Word(data, 4) + 4), version := Some(Word(data, 8)))
  }

  /** The whole header parse of an input. */
  function Spec(path: string, data: seq<UInt8>): HeaderOutcome {
    if MagicCheck(path, data, 0).Some? then Rejected(MagicCheck(path, data, 0).value)
    else if |data| < 8 then Rejected(EndOfInputError(path, data))
    else if VersionCheck(path, data, 8).Some? then Rejected(VersionCheck(path, data, 8).value)
    else VersionedSpec(path, data, Initial(data))
  }

  /** The builder the parse leaves behind. */
  function BuilderAfter(data: seq<UInt8>): H.Builder {
    if |data| < 8 || MagicCheck("", data, 0).Some? then H.EMPTY
    else
      var b := H.EMPTY.(eofOffset := Some(Word(data, 4) + 4));
      if VersionCheck("", data, 8).Some? then b
      else FillVersioned(Initial(data), data)
  }

  /** What `parse()` raises instead of returning. */
  datatype Thrown =
    | AlreadyExecuted
    | InvariantViolation(position: int, expected: int)

  /** `parse()`'s result: the validation, or the exception it throws. */
  datatype Outcome =
    | Returned(result: Validation<(BP.BodyParser, H.Header)>)
    | Threw(thrown: Thrown)

  /** `r` is what the parser returns or throws for the outcome `o`: the body
      parser of an accepted header continues on `stream` with that header. */
  predicate Realizes(r: Outcome, o: HeaderOutcome, path: string, stream: BS.Stream) {
    match o
    case Accepted(h) =>
      r.Returned? && r.result.Valid? && r.result.value.1 == h
      && r.result.value.0.header == h && r.result.value.0.path == path
      && r.result.value.0.stream == stream
    case Rejected(e) => r == Returned(Invalid([e]))
    case Violated(p, x) => r == Threw(InvariantViolation(p, x))
  }

  class HeaderParser {
    const path: string
    /** The counting stream the header and the body parser share. */
    const stream: BS.Stream
    var builder: H.Builder
    var headerDone: bool

    /** Before the one parse the stream is untouched and the builder empty. */
    ghost predicate Valid()
      reads this, stream
    {
      stream.Valid() && (!headerDone ==> stream.count == 0 && builder == H.EMPTY)
    }

    /** A parser over `input`, wrapped in a fresh counting stream. */
    constructor (path: string, input: seq<UInt8>)
      ensures Valid() && fresh(stream)
      ensures this.path == path && stream.data == input && !headerDone
    {
      this.path := path;
      stream := new BS.Stream(input);
      builder := H.EMPTY;
      headerDone := false;
    }

    /** `parse()`: runs once; a second call throws.  The result, the stream
        position and the builder are those of the specification. */
    method Parse() returns (r: Outcome)
      requires Valid()
      modifies this, stream
      ensures Valid() && headerDone
      ensures old(headerDone) ==>
        r == Threw(AlreadyExecuted) && stream.count == old(stream.count) && builder == old(builder)
      ensures !old(headerDone) ==>
        Realizes(r, Spec(path, stream.data), path, stream)
        && stream.count == EndCount(Spec(path, stream.data))
        && builder == BuilderAfter(stream.data)
      ensures r.Returned? && r.result.Valid? ==>
        fresh(r.result.value.0) && !r.result.value.0.finished
    {
      if headerDone {
        return Threw(AlreadyExecuted);
      }
      r := ParseHeader();
      headerDone := true;
    }

    /** The four stages, each run only when the one before succeeded. */
    method ParseHeader() returns (r: Outcome)
      requires stream.Valid() && stream.count == 0 && builder == H.EMPTY
      modifies this, stream
      ensures stream.Valid() && headerDone == old(headerDone)
      ensures Realizes(r, Spec(path, stream.data), path, stream)
      ensures stream.count == EndCount(Spec(path, stream.data))
      ensures builder == BuilderAfter(stream.data)
      ensures r.Returned? && r.result.Valid? ==>
        fresh(r.result.value.0) && !r.result.value.0.finished
    {
      var data := stream.data;
      var magic := ParseHeaderMagicNumber();
      if magic.Invalid? {
        return Returned(Invalid(magic.errors));
      }
      var eof := ParseHeaderEOFOffset();
      if eof.Invalid? {
        return Returned(Invalid(eof.errors));
      }
      var version := ParseHeaderVersionNumber();
      if version.Invalid? {
        return Returned(Invalid(version.errors));
      }
      assert builder == Initial(data);
      r := ParseHeaderVersioned(version.value);
    }

    /** `parseHeaderMagicNumber()`: reads four bytes and compares them with
        the magic number. */
    method ParseHeaderMagicNumber() returns (r: Validation<()>)
      requires stream.Valid()
      modifies stream
      ensures stream.Valid()
      ensures var e := MagicCheck(path, stream.data, old(stream.count));
              (e.None? ==> r.Valid?) && (e.Some? ==> r == Invalid([e.value]))
      ensures stream.count == if old(stream.count) + 4 <= |stream.data| then old(stream.count) + 4
                              else |stream.data|
    {
      var buffer := stream.ReadBytes(4);
      if buffer.None? {
        return ErrorExceptionV(path, stream.count, EOFException);
      }
      if buffer.value != MAGIC {
        return ErrorV(path, stream.count, BadMagic(stream.count, buffer.value, MAGIC));
      }
      return Validation.Valid(());
    }

    /** `parseHeaderEOFOffset()`: the EOF offset, relative to byte 4. */
    method ParseHeaderEOFOffset() returns (r: Validation<()>)
      requires stream.Valid() && stream.count == 4
      modifies this, stream
      ensures stream.Valid() && headerDone == old(headerDone)
      ensures 8 <= |stream.data| ==>
        r.Valid? && stream.count == 8
        && builder == old(builder).(eofOffset := Some(Word(stream.data, 4) + 4))
      ensures |stream.data| < 8 ==>
        r == Invalid([EndOfInputError(path, stream.data)]) && stream.count == |stream.data|
        && builder == old(builder)
    {
      var offset := stream.ReadInt();
      if offset.None? {
        return ErrorExceptionV(path, stream.count, EOFException);
      }
      builder := builder.(eofOffset := Some(ToUnsigned(offset.value) + 4));
      return Validation.Valid(());
    }

    /** `parseHeaderVersionNumber()`: the version, recorded if supported. */
    method ParseHeaderVersionNumber() returns (r: Validation<Int32>)
      requires stream.Valid()
      modifies this, stream
      ensures stream.Valid() && headerDone == old(headerDone)
      ensures var at := old(stream.count);
              var e := VersionCheck(path, stream.data, at);
              && (e.Some? ==> r == Invalid([e.value]) && builder == old(builder))
              && (e.None? ==> r.Valid? && ToUnsigned(r.value) == Word(stream.data, at)
                               && builder == old(builder).(version := Some(Word(stream.data, at))))
              && stream.count == if at + 4 <= |stream.data| then at + 4 else |stream.data|
    {
      var version := stream.ReadInt();
      if version.None? {
        return ErrorExceptionV(path, stream.count, EOFException);
      }
      var raw := ToUnsigned(version.value);
      assert ToSigned(raw) == version.value;
      if !Supported.Contains(V.Version(version.value)) {
        return ErrorV(path, stream.count,
                      UnsupportedVersion(stream.count, raw, SUPPORTED_NUMBERS));
      }
      builder := builder.(version := Some(raw));
      return Validation.Valid(version.value);
    }

    /** `parseHeaderVersioned(version)`: the fields from offset 12 to 64,
        the build, the skip to the data offset and the body parser. */
    method ParseHeaderVersioned(version: Int32) returns (r: Outcome)
      requires stream.Valid() && stream.count == 12
      requires builder.eofOffset.Some? && builder.version.Some?
      modifies this, stream
      ensures stream.Valid() && headerDone == old(headerDone)
      ensures builder == FillVersioned(old(builder), stream.data)
      ensures Realizes(r, VersionedSpec(path, stream.data, old(builder)), path, stream)
      ensures stream.count == EndCount(VersionedSpec(path, stream.data, old(builder)))
      ensures r.Returned? && r.result.Valid? ==>
        fresh(r.result.value.0) && !r.result.value.0.finished
    {
      var ok := ReadClocks();
      if !ok { return Returned(ErrorExceptionV(path, stream.count, EOFException)); }
      ok := ReadTimings();
      if !ok { return Returned(ErrorExceptionV(path, stream.count, EOFException)); }
      ok := ReadChips();
      if !ok { return Returned(ErrorExceptionV(path, stream.count, EOFException)); }
      assert stream.count == HEADER_SIZE;

      var header := H.Build(builder).value;
      if stream.count < header.dataOffset {
        var _ := stream.Skip(header.dataOffset - stream.count);
      }
      var body := new BP.BodyParser(header, path, stream);
      if stream.count != header.dataOffset {
        return Threw(InvariantViolation(stream.count, header.dataOffset));
      }
      return Returned(Validation.Valid((body, header)));
    }

    /** The fields from offset 12 to 32, in order; false when the
        input ends first (every remaining byte then consumed). */
    method ReadClocks() returns (ok: bool)
      requires stream.Valid() && stream.count == 12
      modifies this, stream
      ensures stream.Valid() && headerDone == old(headerDone)
      ensures builder == FillClocks(old(builder), stream.data)
      ensures ok <==> 32 <= |stream.data|
      ensures stream.count == if ok then 32 else |stream.data|
    {
      var sn := stream.ReadInt();
      if sn.None? { return false; }
      builder := builder.(chipSN76489Clock := Some(ToUnsigned(sn.value)));
      var ym2413 := stream.ReadInt();
      if ym2413.None? { return false; }
      builder := builder.(chipYM2413Clock := Some(ToUnsigned(ym2413.value)));
      var gd3 := stream.ReadInt();
      if gd3.None? { return false; }
      builder := builder.(offsetGD3 := Some(GD3Offset(ToUnsigned(gd3.value))));
      var samples := stream.ReadInt();
      if samples.None? { return false; }
      builder := builder.(sampleCount := Some(ToUnsigned(samples.value)));
      var loop := stream.ReadInt();
      if loop.None? { return false; }
      builder := builder.(loopOffset := Some(LoopOffset(ToUnsigned(loop.value))));
      return true;
    }

    /** The fields from offset 32 to 44, in order; false when the input
        ends before the shift register width (every remaining byte then
        consumed).  An input that ends within the last two bytes leaves
        -1 in the fields read there and the stream at its end. */
    method ReadTimings() returns (ok: bool)
      requires stream.Valid() && stream.count == 32
      modifies this, stream
      ensures stream.Valid() && headerDone == old(headerDone)
      ensures builder == FillTimings(old(builder), stream.data)
      ensures ok <==> 42 <= |stream.data|
      ensures stream.count == if 44 <= |stream.data| then 44 else |stream.data|
    {
      var loopSamples := stream.ReadInt();
      if loopSamples.None? { return false; }
      builder := builder.(loopSampleCount := Some(ToUnsigned(loopSamples.value)));
      var rate := stream.ReadInt();
      if rate.None? { return false; }
      builder := builder.(rate := Some(ToUnsigned(rate.value)));
      var feedback := stream.ReadUnsignedShort();
      if feedback.None? { return false; }
      builder := builder.(chipSN76489Feedback := Some(feedback.value));
      var width := stream.ReadUnsignedByte();
      builder := builder.(chipSN76489ShiftRegisterWidth := Some(width));
      var flags := stream.ReadUnsignedByte();
      builder := builder.(chipSN76489Flags := Some(flags));
      return true;
    }

    /** The fields from offset 44 to 64, in order; false when the
        input ends first (every remaining byte then consumed), as it has
        when the stream is already at its end short of 44. */
    method ReadChips() returns (ok: bool)
      requires stream.Valid() && stream.count == if 44 <= |stream.data| then 44 else |stream.data|
      modifies this, stream
      ensures stream.Valid() && headerDone == old(headerDone)
      ensures builder == FillChips(old(builder), stream.data)
      ensures ok <==> 64 <= |stream.data|
      ensures stream.count == if ok then 64 else |stream.data|
    {
      var ym2612 := stream.ReadInt();
      if ym2612.None? { return false; }
      builder := builder.(chipYM2612Clock := Some(ToUnsigned(ym2612.value)));
      var ym2151 := stream.ReadInt();
      if ym2151.None? { return false; }
      builder := builder.(chipYM2151Clock := Some(ToUnsigned(ym2151.value)));
      var offset := stream.ReadInt();
      if offset.None? { return false; }
      builder := builder.(dataOffset := Some(DataOffset(ToUnsigned(offset.value))));
      var segaPCM := stream.ReadInt();
      if segaPCM.None? { return false; }
      builder := builder.(chipSegaPCMClock := Some(ToUnsigned(segaPCM.value)));
      var segaPCMInterface := stream.ReadInt();
      if segaPCMInterface.None? { return false; }
      builder := builder.(chipSegaPCMInterfaceRegister := Some(ToUnsigned(segaPCMInterface.value)));
      return true;
    }
  }

  /** A header is accepted exactly when the input holds the whole 64-byte
      header, starts with the magic number, has version 1.50 or 1.70, and
      its data offset lies between the end of the header and the end of
      the input. */
  lemma AcceptsExactly(path: string, data: seq<UInt8>)
    ensures Spec(path, data).Accepted? <==>
      |data| >= HEADER_SIZE && data[..4] == MAGIC
      && (Word(data, 8) == 0x150 || Word(data, 8) == 0x170)
      && HEADER_SIZE <= DataOffset(Word(data, 52)) <= |data|
  {
    if |data| >= 12 {
      VersionSupportedExactly(Word(data, 8));
    }
  }

  /** An accepted header holds the absolute offsets and the raw field
      values, and every optional attribute is present, zero or not. */
  lemma AcceptedFields(path: string, data: seq<UInt8>)
    requires Spec(path, data).Accepted?
    ensures |data| >= HEADER_SIZE
    ensures var h := Spec(path, data).header;
      && h.eofOffset == Word(data, 4) + 4 && h.version == Word(data, 8)
      && h.offsetGD3 == Some(GD3Offset(Word(data, 20)))
      && h.loopOffset == Some(LoopOffset(Word(data, 28)))
      && h.dataOffset == Word(data, 52) + 0x34
      && h.sampleCount == Word(data, 24) && h.rate == Word(data, 36)
      && h.chipSN76489Clock == Some(Word(data, 12)) && h.chipYM2413Clock == Some(Word(data, 16))
      && h.loopSampleCount == Some(Word(data, 32))
      && h.chipSN76489Feedback == BS.LittleEndian16(data[40..42])
      && h.chipSN76489ShiftRegisterWidth == data[42] as int
      && h.chipSN76489Flags == data[43] as int
      && h.chipYM2612Clock == Some(Word(data, 44)) && h.chipYM2151Clock == Some(Word(data, 48))
      && h.chipSegaPCMClock == Some(Word(data, 56))
      && h.chipSegaPCMInterfaceRegister == Word(data, 60)
  {
  }

  /** A zero GD3 or loop offset is recorded as a present zero, never as an
      absent attribute. */
  lemma ZeroOffsetsStayPresent(path: string, data: seq<UInt8>)
    requires Spec(path, data).Accepted?
    requires Word(data, 20) == 0 && Word(data, 28) == 0
    ensures Spec(path, data).header.offsetGD3 == Some(0)
    ensures Spec(path, data).header.loopOffset == Some(0)
  {
  }

  /** A data offset of zero (pre-1.50 layout, data at 0x0C) or of less than
      12 past its field points inside the header the parser has already
      read, so the position invariant fails at 64. */
  lemma SmallDataOffsetViolates(path: string, data: seq<UInt8>)
    requires |data| >= HEADER_SIZE && data[..4] == MAGIC
    requires Word(data, 8) == 0x150 || Word(data, 8) == 0x170
    requires Word(data, 52) < 12
    ensures Spec(path, data) == Violated(HEADER_SIZE, DataOffset(Word(data, 52)))
  {
    VersionSupportedExactly(Word(data, 8));
  }

  /** A data offset past the end of the input: the skip stops at the end
      and the position invariant fails there. */
  lemma TruncatedDataViolates(path: string, data: seq<UInt8>)
    requires |data| >= HEADER_SIZE && data[..4] == MAGIC
    requires Word(data, 8) == 0x150 || Word(data, 8) == 0x170
    requires DataOffset(Word(data, 52)) > |data|
    ensures Spec(path, data) == Violated(|data|, DataOffset(Word(data, 52)))
  {
    VersionSupportedExactly(Word(data, 8));
  }

  /** Every reported error is a single error of one of three kinds: a bad
      magic number at offset 4, an unsupported version at offset 12, or the
      end of the input inside the header, reported at the input's end. */
  lemma RejectionKinds(path: string, data: seq<UInt8>)
    requires Spec(path, data).Rejected?
    ensures var e := Spec(path, data).error;
      e.path == Some(path)
      && (|| (e.offset == 4 && e.message.BadMagic? && e.exception.None?)
          || (e.offset == 12 && e.message.UnsupportedVersion? && e.exception.None?
              && e.message.supported == [0x150, 0x170])
          || (e.offset == |data| < HEADER_SIZE && e.exception == Some(EOFException)))
  {
  }

  /** The stream position after any parse never passes the input's end, and
      after an accepted header it is the header's data offset, at least 64. */
  lemma EndCountBounds(path: string, data: seq<UInt8>)
    ensures EndCount(Spec(path, data)) <= |data|
    ensures Spec(path, data).Accepted? ==>
      EndCount(Spec(path, data)) == Spec(path, data).header.dataOffset >= HEADER_SIZE
  {
  }
}
