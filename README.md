# jvgm core in Dafny

A model of the core of jvgm, a Java library and command-line tool for VGM
files (Video Game Music: a log of the register writes a game makes to its
sound chips). The model covers five parts, and proves properties of each.

- **Command catalogue.** The catalogue of VGM command types with their tag
  bytes, the `ofInt` lookup, the small command records and the version
  ordering.
- **Parsers.** The vanilla header parser and the vanilla body parser, over
  a counting byte stream that reads little-endian words. The header parser
  reads the magic number, the EOF offset and the version, then the 64-byte
  header up to the data offset. The body parser reads one command per call,
  skips the reserved opcodes and reports unknown tags. It is modelled as
  written and, for the end of the input, corrected (see Findings).
- **YM2612 interpreter.** The interpreter of the YM2612 FM synthesiser
  (six channels of four operators, plus global registers). It is modelled
  twice:
  - as a value (`YM2612State.ChipState`) with a pure register map
    (`YM2612Registers.Decode`, `Write`);
  - as classes (`YM2612Interpreter.Interpreter`, `Channel`, `Operator`)
    whose methods are proved to change the objects exactly as the value
    model says.

  Both switch statements of both interpreter classes are transcribed case
  by case, and proved equal to the register map. The immutable operator
  and channel snapshots are modelled with them.
- **DX7 adapter.** The adapter that turns a channel snapshot into a DX7
  voice.
- **The `interpret` command.** `doCommand`, the per-channel snapshot
  records kept by `dumpPreset`, `maybeDumpPreset` and `execute`. `execute`
  parses a file, runs every command through a new interpreter and dumps
  the channels that changed to `chNN-CCCC.txt` files. It is proved equal
  to a functional specification (`Interpret.ExecuteSpec`). Its status is
  failure exactly when the header is rejected or some body command is an
  error.

Java `int` is the subset type `JavaInt.Int32`, and bytes are
`JavaInt.Int8` and `UInt8`. `(v >>> k) & m` is `JavaInt.Field`.
`(byte)` casts and `int` overflow are written out as `ByteCast` and
`Wrap32`.

Source paths below are relative to the repository root.

## Model

| member | source | states |
|---|---|---|
| JavaInt.ByteCast | com.io7m.jvgm.cmdline/src/main/java/com/io7m/jvgm/cmdline/JVGMCommandInterpret.java:104-106 | the Java cast `(byte) x` keeps `x` modulo 256 and lands in -128..127 |
| JavaInt.Wrap32 | com.io7m.jvgm.cmdline/src/main/java/com/io7m/jvgm/cmdline/JVGMCommandInterpret.java:188 | Java `int` arithmetic wraps modulo 2^32 and leaves in-range values unchanged |
| JavaInt.ToUnsigned | com.io7m.jvgm.parser.vanilla/src/main/java/com/io7m/jvgm/parser/vanilla/VGMParserVanillaHeader.java:108 | Integer.toUnsignedLong gives the non-negative value with the same 32 bits, the int itself when non-negative |
| JavaInt.ToSigned | com.io7m.jvgm.parser.vanilla/src/main/java/com/io7m/jvgm/parser/vanilla/VGMParserVanillaHeader.java:107 | the int `readInt` returns for four bytes has those bits as its unsigned value |
| JavaInt.FieldOfByteCast | com.io7m.jvgm.cmdline/src/main/java/com/io7m/jvgm/cmdline/JVGMCommandInterpret.java:104-106 | a bit field inside the low eight bits reads the same from the sign-extended `(byte)` value as from the unsigned byte `x & 0xff` |
| JavaInt.Field | com.io7m.jvgm.interpreter.ym2612/src/main/java/com/io7m/jvgm/interpreter/ym2612/VGMYM2612Operator.java:96-110 | `(v >>> k) & (size - 1)` lies below size |
| CommandType.Type.Tag | com.io7m.jvgm.core/src/main/java/com/io7m/jvgm/core/VGMCommandType.java:38-81 | every constant's tag is a byte, and the tag is 0 exactly for EOF |
| CommandType.OfIntTag | com.io7m.jvgm.core/src/main/java/com/io7m/jvgm/core/VGMCommandType.java:97-202 | whenever `ofInt(x)` succeeds it returns a constant other than EOF whose `tag()` is `x` |
| CommandType.OfIntDomain | com.io7m.jvgm.core/src/main/java/com/io7m/jvgm/core/VGMCommandType.java:97-193 | `ofInt` succeeds exactly on the catalogued tags 0x4F, 0x50-0x53, 0x61-0x63, 0x66, 0x67, 0x70-0x8F and 0xE0; on any other integer it fails with "Unrecognized tag" carrying that integer |
| CommandType.OfIntRoundTrip | com.io7m.jvgm.core/src/main/java/com/io7m/jvgm/core/VGMCommandType.java:38-193 | `ofInt(t.tag()) == t` for every constant but EOF; EOF's tag 0 is rejected |
| CommandType.TagInjective | com.io7m.jvgm.core/src/main/java/com/io7m/jvgm/core/VGMCommandType.java:38-81 | constants with equal tags are the same constant |
| CommandType.NibbleTags | com.io7m.jvgm.core/src/main/java/com/io7m/jvgm/core/VGMCommandType.java:50-81 | WAIT_SHORT_n has tag 0x70 + n and YM2612_PCM_WRITE_WAIT_n has tag 0x80 + n, for n in 0..15 |
| CommandType.AllTypes | com.io7m.jvgm.core/src/main/java/com/io7m/jvgm/core/VGMCommandType.java:38-81 | the declaration-order list of constants has 44 entries |
| CommandType.AllTypesComplete | com.io7m.jvgm.core/src/main/java/com/io7m/jvgm/core/VGMCommandType.java:35-81 | every constant of the enum is in that list |
| CommandType.AllTypesDistinct | com.io7m.jvgm.core/src/main/java/com/io7m/jvgm/core/VGMCommandType.java:38-81 | the 44 constants carry pairwise distinct tags |
| Command.WaitShortSamples | com.io7m.jvgm.core/src/main/java/com/io7m/jvgm/core/VGMCommandWaitShort7Type.java:30-41 | the record of every short wait reports the type with tag 0x70 + n and waits the low nibble of that tag plus one samples |
| Command.PCMWriteWaitSamples | com.io7m.jvgm.core/src/main/java/com/io7m/jvgm/core/VGMCommandYM2612PCMWriteWait1Type.java:31-41 | a PCM write-and-wait reports the type with tag 0x80 + n and waits exactly tag - 0x80 samples, with no + 1 |
| Command.WaitShort7 | com.io7m.jvgm.core/src/main/java/com/io7m/jvgm/core/VGMCommandWaitShort7Type.java:26-42 | the (parameterless) WAIT_SHORT_7 record has type WAIT_SHORT_7, tag 0x77, and waits 8 samples |
| Command.PCMWriteWait1 | com.io7m.jvgm.core/src/main/java/com/io7m/jvgm/core/VGMCommandYM2612PCMWriteWait1Type.java:26-42 | the parameterless record has type YM2612_PCM_WRITE_WAIT_1, tag 0x81, and waits 1 sample |
| Command.Wait882Samples | com.io7m.jvgm.core/src/main/java/com/io7m/jvgm/core/VGMCommandWait882Type.java:26-41 | the parameterless record has type WAIT_882, tag 0x63, and waits 882 samples |
| Command.GameGearPSGStereo | com.io7m.jvgm.core/src/main/java/com/io7m/jvgm/core/VGMCommandGameGearPSGStereoWriteType.java:26-41 | the type is GAME_GEAR_PSG_STEREO_WRITE (tag 0x4F) whatever the payload; `value()` returns the payload; two records are equal exactly when their payloads are |
| Command.TypeIsEOF | com.io7m.jvgm.core/src/main/java/com/io7m/jvgm/core/VGMCommandType.java:38 | a record reports type EOF exactly when it is the EOF record |
| Version.Version.CompareTo | com.io7m.jvgm.core/src/main/java/com/io7m/jvgm/core/VGMVersionType.java:37-42 | `compareTo` (Integer.compareUnsigned) returns -1, 0 or 1; negative, zero or positive exactly as the unsigned 32-bit values compare |
| Version.CompareToAntisymmetric | com.io7m.jvgm.core/src/main/java/com/io7m/jvgm/core/VGMVersionType.java:37-42 | `a.compareTo(b) == -b.compareTo(a)` |
| Version.CompareToTransitive | com.io7m.jvgm.core/src/main/java/com/io7m/jvgm/core/VGMVersionType.java:37-42 | `<` and `<=` under `compareTo` are transitive |
| Version.CompareToEquality | com.io7m.jvgm.core/src/main/java/com/io7m/jvgm/core/VGMVersionType.java:26-42 | `compareTo` is zero exactly on value-equal versions |
| Version.NegativeVersionIsLarge | com.io7m.jvgm.core/src/main/java/com/io7m/jvgm/core/VGMVersionType.java:41 | a version stored as a negative int (such as 0xFFFFFFFF) orders above every non-negative one, e.g. 0x150 |
| Supported.ContainsExactly | com.io7m.jvgm.parser.vanilla/src/main/java/com/io7m/jvgm/parser/vanilla/VGMParserVanillaSupported.java:26-29 | the supported set contains 0x150 and 0x170 and nothing else |
| Supported.AscendingOrder | com.io7m.jvgm.parser.vanilla/src/main/java/com/io7m/jvgm/parser/vanilla/VGMParserVanillaSupported.java:26-29 | the set iterates in strictly ascending `compareTo` order (0x150 before 0x170) |
| Header.Build | com.io7m.jvgm.core/src/main/java/com/io7m/jvgm/core/VGMHeaderType.java:30-149 | building a header succeeds exactly when the five mandatory attributes (eofOffset, version, sampleCount, rate, dataOffset) are set, and a failure names exactly the unset ones; a built header holds every attribute the builder was given, and the default of each defaulted one left unset |
| Header.BuildDefaults | com.io7m.jvgm.core/src/main/java/com/io7m/jvgm/core/VGMHeaderType.java:90-148 | unset defaulted attributes read 0x0009 (SN76489 feedback), 16 (shift register width), 0 (SN76489 flags) and 0 (Sega PCM interface register); each of the four, when set, reads its set value |
| Header.OptionalsStayAbsent | com.io7m.jvgm.core/src/main/java/com/io7m/jvgm/core/VGMHeaderType.java:36-138 | a header built from the mandatory attributes only has no GD3 offset, loop offset or loop sample count, and no YM2413, SN76489, YM2612, YM2151 or Sega PCM clock |
| ParseError.Error | com.io7m.jvgm.parser.vanilla/src/main/java/com/io7m/jvgm/parser/vanilla/VGMParserVanillaBase.java:50-58 | `error(msg)` is the error at the stream's byte count, with the path present, the message, and no exception |
| ParseError.ErrorV | com.io7m.jvgm.parser.vanilla/src/main/java/com/io7m/jvgm/parser/vanilla/VGMParserVanillaBase.java:44-48 | `errorV` is an invalid result holding exactly one error, at the byte count, with the path, the given message and no exception |
| ParseError.ErrorException | com.io7m.jvgm.parser.vanilla/src/main/java/com/io7m/jvgm/parser/vanilla/VGMParserVanillaBase.java:66-74 | `errorException(e)` is the error at the byte count, with the path, `e.getMessage()` and `e` |
| ParseError.ErrorExceptionV | com.io7m.jvgm.parser.vanilla/src/main/java/com/io7m/jvgm/parser/vanilla/VGMParserVanillaBase.java:60-64 | `errorExceptionV` is an invalid result holding exactly one error, at the byte count, with the path, `e.getMessage()` and the exception |
| ByteStream.LittleEndianRoundTrip | com.io7m.jvgm.parser.vanilla/src/main/java/com/io7m/jvgm/parser/vanilla/VGMParserVanillaHeader.java:107 | encoding a value that fits into `width` little-endian bytes and decoding it gives the value back |
| ByteStream.LittleEndianBytesRoundTrip | com.io7m.jvgm.parser.vanilla/src/main/java/com/io7m/jvgm/parser/vanilla/VGMParserVanillaHeader.java:107 | decoding a byte sequence little-endian and encoding it again gives the sequence back |
| ByteStream.Stream.constructor | com.io7m.jvgm.parser.vanilla/src/main/java/com/io7m/jvgm/parser/vanilla/VGMParserVanillaHeader.java:67 | a fresh counting stream over the input has delivered nothing |
| ByteStream.Stream.ReadUnsignedByte | com.io7m.jvgm.parser.vanilla/src/main/java/com/io7m/jvgm/parser/vanilla/VGMParserVanillaBody.java:113 | `readUnsignedByte` of the swapped stream is `read()`: the next byte and a count one higher, or -1 at the end of the input with the count unchanged, and no exception |
| ByteStream.Stream.ReadBytes | com.io7m.jvgm.parser.vanilla/src/main/java/com/io7m/jvgm/parser/vanilla/VGMParserVanillaHeader.java:300 | `n` bytes read one at a time, each -1 an EOFException: the next `n` bytes, or on a short read nothing, with every remaining byte consumed |
| ByteStream.Stream.ReadInt | com.io7m.jvgm.parser.vanilla/src/main/java/com/io7m/jvgm/parser/vanilla/VGMParserVanillaHeader.java:107 | `readInt` of the swapped stream: the int whose unsigned value is the next four bytes little-endian; a short read consumes the rest and fails |
| ByteStream.Stream.ReadUnsignedShort | com.io7m.jvgm.parser.vanilla/src/main/java/com/io7m/jvgm/parser/vanilla/VGMParserVanillaHeader.java:183 | the next two bytes little-endian; a short read consumes the rest and fails |
| ByteStream.Stream.Skip | com.io7m.jvgm.parser.vanilla/src/main/java/com/io7m/jvgm/parser/vanilla/VGMParserVanillaBody.java:194 | `skip(n)` advances by `n` or to the end of the input, whichever is nearer, and never fails |
| ByteStream.LittleEndian | com.io7m.jvgm.parser.vanilla/src/main/java/com/io7m/jvgm/parser/vanilla/VGMParserVanillaBody.java:154 | the little-endian value of n bytes is below 256^n |
| ByteStream.LittleEndianBytes | com.io7m.jvgm.parser.vanilla/src/main/java/com/io7m/jvgm/parser/vanilla/VGMParserVanillaBody.java:154 | the little-endian layout of a value has the requested width |
| HeaderParser.VersionSupportedExactly | com.io7m.jvgm.parser.vanilla/src/main/java/com/io7m/jvgm/parser/vanilla/VGMParserVanillaHeader.java:266-267 | the version check accepts exactly the raw words 0x150 and 0x170 |
| HeaderParser.EndOfInputError | com.io7m.jvgm.parser.vanilla/src/main/java/com/io7m/jvgm/parser/vanilla/VGMParserVanillaHeader.java:115-116 | a short read inside the header is reported as an EOFException error at the end of the input |
| HeaderParser.Initial | com.io7m.jvgm.parser.vanilla/src/main/java/com/io7m/jvgm/parser/vanilla/VGMParserVanillaHeader.java:99-120 | after the first three stages the builder holds the EOF offset and the version |
| HeaderParser.HeaderParser.constructor | com.io7m.jvgm.parser.vanilla/src/main/java/com/io7m/jvgm/parser/vanilla/VGMParserVanillaHeader.java:63-75 | a new parser has a fresh counting stream over the input, an empty builder and `header_done` false |
| HeaderParser.HeaderParser.Parse | com.io7m.jvgm.parser.vanilla/src/main/java/com/io7m/jvgm/parser/vanilla/VGMParserVanillaHeader.java:78-89 | a second call throws "already executed" and changes nothing; the first call returns (or throws) the outcome of the header specification, leaves the stream at its end count and the builder as the specification says, and sets `header_done` either way |
| HeaderParser.HeaderParser.ParseHeader | com.io7m.jvgm.parser.vanilla/src/main/java/com/io7m/jvgm/parser/vanilla/VGMParserVanillaHeader.java:91-97 | the four stages run in order, each only when the one before succeeded, and the result is the specification's |
| HeaderParser.HeaderParser.ParseHeaderMagicNumber | com.io7m.jvgm.parser.vanilla/src/main/java/com/io7m/jvgm/parser/vanilla/VGMParserVanillaHeader.java:297-323 | reads four bytes; valid exactly when they are "Vgm ", else one error with the position and the received and expected bytes (or the end-of-input error on a short read) |
| HeaderParser.HeaderParser.ParseHeaderEOFOffset | com.io7m.jvgm.parser.vanilla/src/main/java/com/io7m/jvgm/parser/vanilla/VGMParserVanillaHeader.java:99-120 | from byte 4, stores the unsigned little-endian word plus 4 as the EOF offset, or fails at the end of input leaving the builder alone |
| HeaderParser.HeaderParser.ParseHeaderVersionNumber | com.io7m.jvgm.parser.vanilla/src/main/java/com/io7m/jvgm/parser/vanilla/VGMParserVanillaHeader.java:256-295 | reads the version word; an unsupported one is one error listing the received value and 0x150, 0x170; a supported one is stored unsigned and returned |
| HeaderParser.HeaderParser.ParseHeaderVersioned | com.io7m.jvgm.parser.vanilla/src/main/java/com/io7m/jvgm/parser/vanilla/VGMParserVanillaHeader.java:122-254 | from byte 12 it fills the versioned fields, builds the header, skips forward to the data offset and returns the body parser over the shared stream; a short read is an error; a position other than the data offset after the skip throws the invariant failure |
| HeaderParser.HeaderParser.ReadClocks | com.io7m.jvgm.parser.vanilla/src/main/java/com/io7m/jvgm/parser/vanilla/VGMParserVanillaHeader.java:131-175 | bytes 12 to 32: SN76489 and YM2413 clocks, GD3 offset (raw + 20, or 0), sample count and loop offset (raw + 28, or 0); succeeds exactly when the input reaches byte 32 |
| HeaderParser.HeaderParser.ReadTimings | com.io7m.jvgm.parser.vanilla/src/main/java/com/io7m/jvgm/parser/vanilla/VGMParserVanillaHeader.java:177-187 | bytes 32 to 44: loop sample count, rate, SN76489 feedback (u16), shift register width and flags (unsigned bytes, -1 once the input has ended); fails exactly when the input ends before byte 42, and otherwise leaves the stream at 44 or at the end |
| HeaderParser.HeaderParser.ReadChips | com.io7m.jvgm.parser.vanilla/src/main/java/com/io7m/jvgm/parser/vanilla/VGMParserVanillaHeader.java:189-221 | bytes 44 to 64, entered at 44 or at an end short of it: YM2612 and YM2151 clocks, data offset (raw + 52, or 12), Sega PCM clock and interface register; succeeds exactly when the input reaches byte 64 |
| HeaderParser.AcceptsExactly | com.io7m.jvgm.parser.vanilla/src/main/java/com/io7m/jvgm/parser/vanilla/VGMParserVanillaHeader.java:91-254 | a header is accepted exactly when the input holds 64 bytes, starts with "Vgm ", has version 0x150 or 0x170, and its data offset lies between 64 and the input's end |
| HeaderParser.AcceptedFields | com.io7m.jvgm.parser.vanilla/src/main/java/com/io7m/jvgm/parser/vanilla/VGMParserVanillaHeader.java:99-216 | an accepted header holds EOF offset = word at 4 plus 4, the unsigned version, the relative offsets made absolute, the raw field values, and every optional attribute present |
| HeaderParser.ZeroOffsetsStayPresent | com.io7m.jvgm.parser.vanilla/src/main/java/com/io7m/jvgm/parser/vanilla/VGMParserVanillaHeader.java:136-175 | a raw GD3 or loop offset of 0 is stored as a present 0 with no base added |
| HeaderParser.SmallDataOffsetViolates | com.io7m.jvgm.parser.vanilla/src/main/java/com/io7m/jvgm/parser/vanilla/VGMParserVanillaHeader.java:194-251 | a raw data offset below 12 (including 0, which means 12) points inside the header, so the position invariant fails at 64 and the parse aborts instead of returning an error |
| HeaderParser.TruncatedDataViolates | com.io7m.jvgm.parser.vanilla/src/main/java/com/io7m/jvgm/parser/vanilla/VGMParserVanillaHeader.java:230-251 | a data offset past the input's end stops the skip at the end and the position invariant fails there |
| HeaderParser.RejectionKinds | com.io7m.jvgm.parser.vanilla/src/main/java/com/io7m/jvgm/parser/vanilla/VGMParserVanillaHeader.java:91-225 | every returned error is a single error with the path: a bad magic number at offset 4, an unsupported version at offset 12 listing 0x150 and 0x170, or the end of input inside the header at the input's end |
| HeaderParser.EndCountBounds | com.io7m.jvgm.parser.vanilla/src/main/java/com/io7m/jvgm/parser/vanilla/VGMParserVanillaHeader.java:230-251 | the stream never passes the input's end, and after an accepted header it sits at the data offset, at least 64 |
| BodyParser.ReservedWidth | com.io7m.jvgm.parser.vanilla/src/main/java/com/io7m/jvgm/parser/vanilla/VGMParserVanillaBody.java:284-332 | the payload width of a reserved opcode is at most four bytes: 1 for 0x30-0x3F, 1 or (from version 0x160) 2 for 0x40-0x4E, 2 for 0xA1-0xAF, 3 for 0xC9-0xCF and 0xD7-0xDF, 4 for 0xE2-0xFF |
| BodyParser.DecodeAt | com.io7m.jvgm.parser.vanilla/src/main/java/com/io7m/jvgm/parser/vanilla/VGMParserVanillaBody.java:111-277 | one corrected `parse` call (the tag read past the end is EOF, see Findings) while not finished never moves the cursor back or past the end, consumes at least one byte when input remains, and leaves the parser unfinished only after consuming something |
| BodyParser.FinishedIsSticky | com.io7m.jvgm.parser.vanilla/src/main/java/com/io7m/jvgm/parser/vanilla/VGMParserVanillaBody.java:107-109 | once `finished` is set, `parse` returns EOF without reading a byte |
| BodyParser.FinishedExactlyOnEnd | com.io7m.jvgm.parser.vanilla/src/main/java/com/io7m/jvgm/parser/vanilla/VGMParserVanillaBody.java:111-277 | for the corrected `parse` (see Findings): it finishes exactly when it returns EOF or END_OF_SOUND_DATA; EOF means all input is consumed (running out, even mid-payload, is EOF, never an error); an error leaves the parser unfinished and is one error at the cursor, an unrecognized tag or a bad data-block compatibility byte |
| BodyParser.DecodedTag | com.io7m.jvgm.parser.vanilla/src/main/java/com/io7m/jvgm/parser/vanilla/VGMParserVanillaBody.java:113-266 | a returned command other than EOF has `type().tag()` equal to the last tag byte read, which the cursor has passed; an unrecognized-tag error names that byte, which is not catalogued |
| BodyParser.ReservedSkipped | com.io7m.jvgm.parser.vanilla/src/main/java/com/io7m/jvgm/parser/vanilla/VGMParserVanillaBody.java:112-117 | a reserved opcode with its whole payload present produces no command: parsing continues right after its payload |
| BodyParser.UnrecognizedTagError | com.io7m.jvgm.parser.vanilla/src/main/java/com/io7m/jvgm/parser/vanilla/VGMParserVanillaBody.java:119-277 | a tag neither reserved nor catalogued (e.g. 0x00, 0x54-0x60, 0x90-0xA0, 0xE1) gives the "Unrecognized tag" error one byte on and leaves the parser unfinished |
| BodyParser.DataBlockCompatibility | com.io7m.jvgm.parser.vanilla/src/main/java/com/io7m/jvgm/parser/vanilla/VGMParserVanillaBody.java:168-190 | 0x67 followed by anything but 0x66 is an error right after that byte, reporting the received and expected bytes, with the parser unfinished |
| BodyParser.BodyParser.constructor | com.io7m.jvgm.parser.vanilla/src/main/java/com/io7m/jvgm/parser/vanilla/VGMParserVanillaBody.java:87-100 | the body parser keeps the header, path and shared stream and starts unfinished |
| BodyParser.BodyParser.ReadByte | com.io7m.jvgm.parser.vanilla/src/main/java/com/io7m/jvgm/parser/vanilla/VGMParserVanillaBody.java:335-344 | `readByte` returns the next byte as a Java byte and advances by one; the -1 of the end of the input is its EOFException, without advancing |
| BodyParser.BodyParser.SkipReservedCommand | com.io7m.jvgm.parser.vanilla/src/main/java/com/io7m/jvgm/parser/vanilla/VGMParserVanillaBody.java:284-332 | returns true exactly for reserved opcodes, then consumes their payload width (all that is left if the input ends inside it); other tags consume nothing |
| BodyParser.BodyParser.Parse | com.io7m.jvgm.parser.vanilla/src/main/java/com/io7m/jvgm/parser/vanilla/VGMParserVanillaBody.java:105-278 | `parse` as written: the result, the new cursor and the new `finished` flag are exactly those of the as-written one-call specification (sticky EOF, reserved skipping, decoding the first other tag, and the -1 tag read at the end of the input reported as an unrecognized tag) |
| BodyParser.BodyParser.ParseCorrected | com.io7m.jvgm.parser.vanilla/src/main/java/com/io7m/jvgm/parser/vanilla/VGMParserVanillaBody.java:105-344 | `parse` with the tag read at the end of the input going through the -1 check of `readByte`: the result, cursor and `finished` flag are those of the corrected one-call specification, so running out where a tag is expected is EOF and finishes the parser |
| BodyParser.BodyParser.ParseCommand | com.io7m.jvgm.parser.vanilla/src/main/java/com/io7m/jvgm/parser/vanilla/VGMParserVanillaBody.java:119-269 | the switch on the tag's type reads exactly the payload shape of that command (one byte for 0x4F/0x50, two for 0x51-0x53, u32 for 0xE0, u16 for 0x61, none for 0x62, 0x63, 0x70-0x8F; data block: 0x66, type, u32 size, then skips size bytes) and returns it, or EOF on a short read; a tag `ofInt` rejects, -1 included, is the "Unrecognized tag" error |
| BodyParser.DecodeCommand | com.io7m.jvgm.parser.vanilla/src/main/java/com/io7m/jvgm/parser/vanilla/VGMParserVanillaBody.java:119-266 | the switch on a non-reserved tag never moves the cursor back nor past the end |
| BodyParser.TagPosition | com.io7m.jvgm.parser.vanilla/src/main/java/com/io7m/jvgm/parser/vanilla/VGMParserVanillaBody.java:112-117 | skipping reserved opcodes stops at a position between the start and the end of the input |
| BodyParser.DecodeAtAsWritten | com.io7m.jvgm.parser.vanilla/src/main/java/com/io7m/jvgm/parser/vanilla/VGMParserVanillaBody.java:111-277 | one as-written `parse` call while not finished never moves the cursor back or past the end |
| BodyParser.ParseStepAsWritten | com.io7m.jvgm.parser.vanilla/src/main/java/com/io7m/jvgm/parser/vanilla/VGMParserVanillaBody.java:105-278 | the as-written `parse` never moves the cursor past the end |
| BodyParser.TagPastEndUnfinished | com.io7m.jvgm.parser.vanilla/src/main/java/com/io7m/jvgm/parser/vanilla/VGMParserVanillaBody.java:113-119 | the tag read of an exhausted input is -1, which is no reserved opcode and which `ofInt` rejects: one "Unrecognized tag" error for -1 at the end of the input, nothing consumed, the parser unfinished |
| BodyParser.AsWrittenDiffersOnlyPastEnd | com.io7m.jvgm.parser.vanilla/src/main/java/com/io7m/jvgm/parser/vanilla/VGMParserVanillaBody.java:111-277 | the as-written and the corrected call agree except where the as-written one reads a tag past the end; there the as-written one reports the -1 error and the corrected one returns EOF, finished |
| BodyParser.StuckPastEnd | com.io7m.jvgm.parser.vanilla/src/main/java/com/io7m/jvgm/parser/vanilla/VGMParserVanillaBody.java:105-278 | as written, once the whole input is consumed without finishing, every later call returns the same -1 error and neither moves nor finishes |
| BodyParser.WaitThenPastEnd | com.io7m.jvgm.parser.vanilla/src/main/java/com/io7m/jvgm/parser/vanilla/VGMParserVanillaBody.java:105-278 | for the body 0x62 alone: the first call gives WAIT_735; the second, as written, is an error with the parser unfinished, and, corrected, EOF with the parser finished |
| BodyEncoding.ByteOf | com.io7m.jvgm.parser.vanilla/src/main/java/com/io7m/jvgm/parser/vanilla/VGMParserVanillaBody.java:343 | the unsigned byte a Java byte is written as casts back to that byte |
| BodyEncoding.Encode | com.io7m.jvgm.parser.vanilla/src/main/java/com/io7m/jvgm/parser/vanilla/VGMParserVanillaBody.java:126-266 | a command's layout is its type's tag byte followed by its payload |
| BodyEncoding.CataloguedNotReserved | com.io7m.jvgm.parser.vanilla/src/main/java/com/io7m/jvgm/parser/vanilla/VGMParserVanillaBody.java:112-119 | no catalogued tag lies in a reserved range, so a catalogued tag always reaches the switch |
| BodyEncoding.DecodeEncoded | com.io7m.jvgm.parser.vanilla/src/main/java/com/io7m/jvgm/parser/vanilla/VGMParserVanillaBody.java:111-269 | decoding the layout of any command other than EOF, wherever it sits in the input, yields that command and moves the cursor exactly past it; only END_OF_SOUND_DATA finishes the parser |
| BodyEncoding.DecodeEncodedWide | com.io7m.jvgm.parser.vanilla/src/main/java/com/io7m/jvgm/parser/vanilla/VGMParserVanillaBody.java:153-196 | the same round trip for the commands with a little-endian number: seek (u32), long wait (u16) and data block (0x66, type, u32 size, content) |
| BodyEncoding.DecodeEncodedNarrow | com.io7m.jvgm.parser.vanilla/src/main/java/com/io7m/jvgm/parser/vanilla/VGMParserVanillaBody.java:126-266 | the same round trip for the commands with no payload or a payload of one or two bytes |
| BodyEncoding.Trace | com.io7m.jvgm.parser.vanilla/src/main/java/com/io7m/jvgm/parser/vanilla/VGMParserVanillaBody.java:105-278 | the successive results of `parse` until it finishes hold at least one result |
| BodyEncoding.DecodeEncodedStream | com.io7m.jvgm.parser.vanilla/src/main/java/com/io7m/jvgm/parser/vanilla/VGMParserVanillaBody.java:105-278 | a stream laid out as commands followed by the end tag 0x66 parses back into exactly those commands and then END_OF_SOUND_DATA, whatever follows the end tag |
| BodyEncoding.OneByteWaits | com.io7m.jvgm.parser.vanilla/src/main/java/com/io7m/jvgm/parser/vanilla/VGMParserVanillaBody.java:126-238 | 0x77 gives WAIT_SHORT_7, 0x81 gives YM2612_PCM_WRITE_WAIT_1 and 0x63 gives WAIT_882, each consuming just the tag; 0x4F consumes exactly one payload byte |
| YM2612State.OperatorState.Snapshot | com.io7m.jvgm.interpreter.ym2612/src/main/java/com/io7m/jvgm/interpreter/ym2612/VGMYM2612Operator.java:75-88 | the snapshot reports the secondary amplitude as decay-1 level, decay 0 as decay-1 rate, decay 1 as decay-2 rate, plus attack, release, multiply, detune, the unmasked volume and the index |
| YM2612State.OperatorState.SetDetuneAndMultiple | com.io7m.jvgm.interpreter.ym2612/src/main/java/com/io7m/jvgm/interpreter/ym2612/VGMYM2612Operator.java:96-110 | multiply = v & 0xF and detune = (v >>> 4) & 7, the two together being the low seven bits of v; no other field changes |
| YM2612State.OperatorState.SetVolumeInverse | com.io7m.jvgm.interpreter.ym2612/src/main/java/com/io7m/jvgm/interpreter/ym2612/VGMYM2612Operator.java:118-128 | v is stored unmasked, so the snapshot's volume is 127 - v with Java wrap-around; no other field changes |
| YM2612State.OperatorState.SetRateScalingAndAttackRate | com.io7m.jvgm.interpreter.ym2612/src/main/java/com/io7m/jvgm/interpreter/ym2612/VGMYM2612Operator.java:136-148 | attack = v & 0x1F and scale = (v >>> 6) & 3; no other field changes |
| YM2612State.OperatorState.SetRateDecayAndAmplitudeModulation | com.io7m.jvgm.interpreter.ym2612/src/main/java/com/io7m/jvgm/interpreter/ym2612/VGMYM2612Operator.java:156-168 | decay 0 = v & 0x1F and AM = bit 7; no other field changes |
| YM2612State.OperatorState.SetRateDecaySecondary | com.io7m.jvgm.interpreter.ym2612/src/main/java/com/io7m/jvgm/interpreter/ym2612/VGMYM2612Operator.java:176-186 | decay 1 = v & 0x1F; no other field changes |
| YM2612State.OperatorState.SetRateReleaseAndSecondaryAmplitude | com.io7m.jvgm.interpreter.ym2612/src/main/java/com/io7m/jvgm/interpreter/ym2612/VGMYM2612Operator.java:194-206 | release = v & 0xF and secondary = (v >>> 4) & 0xF, together the low byte of v; no other field changes |
| YM2612State.OperatorState.SetFrequencyLSB | com.io7m.jvgm.interpreter.ym2612/src/main/java/com/io7m/jvgm/interpreter/ym2612/VGMYM2612Operator.java:214-224 | v is stored unmasked and the snapshot does not change |
| YM2612State.OperatorState.SetFrequencyMSB | com.io7m.jvgm.interpreter.ym2612/src/main/java/com/io7m/jvgm/interpreter/ym2612/VGMYM2612Operator.java:232-244 | msb = v & 7 and octave = (v >>> 3) & 7, together the low six bits; the snapshot does not change |
| YM2612State.OperatorState.SetEnabled | com.io7m.jvgm.interpreter.ym2612/src/main/java/com/io7m/jvgm/interpreter/ym2612/VGMYM2612Operator.java:252-260 | only `enabled` changes, and the snapshot does not |
| YM2612State.InitialOperator | com.io7m.jvgm.interpreter.ym2612/src/main/java/com/io7m/jvgm/interpreter/ym2612/VGMYM2612Operator.java:30-69 | a new operator has its index, Java's zero field defaults, is disabled and well-formed |
| YM2612State.SetOperator | com.io7m.jvgm.interpreter.ym2612/src/main/java/com/io7m/jvgm/interpreter/ym2612/VGMYM2612Operator.java:96-206 | every operator-block setter keeps the index, the enabled flag and the frequency fields, and keeps every masked field within its mask |
| YM2612State.SetOperatorTwice | com.io7m.jvgm.interpreter.ym2612/src/main/java/com/io7m/jvgm/interpreter/ym2612/VGMYM2612Operator.java:96-206 | writing one operator register twice leaves only the second value |
| YM2612State.SetOperatorCommutes | com.io7m.jvgm.interpreter.ym2612/src/main/java/com/io7m/jvgm/interpreter/ym2612/VGMYM2612Operator.java:96-206 | setters of different registers commute: each changes only its own fields |
| YM2612State.DetuneMultipleRoundTrip | com.io7m.jvgm.interpreter.ym2612/src/main/java/com/io7m/jvgm/interpreter/ym2612/VGMYM2612Operator.java:96-110 | writing detune * 16 + multiply sets exactly that detune and multiply |
| YM2612State.ScalingAttackRoundTrip | com.io7m.jvgm.interpreter.ym2612/src/main/java/com/io7m/jvgm/interpreter/ym2612/VGMYM2612Operator.java:136-148 | writing scale * 64 + attack sets exactly that scale and attack |
| YM2612State.AmplitudeModulationDecayRoundTrip | com.io7m.jvgm.interpreter.ym2612/src/main/java/com/io7m/jvgm/interpreter/ym2612/VGMYM2612Operator.java:156-168 | writing am * 128 + decay sets exactly that AM flag and decay 0 |
| YM2612State.SecondaryReleaseRoundTrip | com.io7m.jvgm.interpreter.ym2612/src/main/java/com/io7m/jvgm/interpreter/ym2612/VGMYM2612Operator.java:194-206 | writing secondary * 16 + release sets exactly those two fields |
| YM2612State.OperatorOctaveRoundTrip | com.io7m.jvgm.interpreter.ym2612/src/main/java/com/io7m/jvgm/interpreter/ym2612/VGMYM2612Operator.java:232-244 | writing octave * 8 + msb sets exactly that octave and msb |
| YM2612State.ChannelState.Snapshot | com.io7m.jvgm.interpreter.ym2612/src/main/java/com/io7m/jvgm/interpreter/ym2612/VGMYM2612Channel.java:178-189 | the snapshot holds the algorithm, feedback, index and the four operator snapshots under keys 0..3, and is what the snapshot's own checked construction returns |
| YM2612State.ChannelState.SetFrequencyLSB | com.io7m.jvgm.interpreter.ym2612/src/main/java/com/io7m/jvgm/interpreter/ym2612/VGMYM2612Channel.java:99-108 | v is stored unmasked; nothing else changes |
| YM2612State.ChannelState.SetFrequencyMSB | com.io7m.jvgm.interpreter.ym2612/src/main/java/com/io7m/jvgm/interpreter/ym2612/VGMYM2612Channel.java:116-128 | msb = v & 7 and octave = (v >>> 3) & 7, together the low six bits; nothing else changes |
| YM2612State.ChannelState.SetAlgorithmAndFeedback | com.io7m.jvgm.interpreter.ym2612/src/main/java/com/io7m/jvgm/interpreter/ym2612/VGMYM2612Channel.java:136-148 | algorithm = v & 7 and feedback = (v >>> 3) & 7, together the low six bits; nothing else changes |
| YM2612State.ChannelState.SetStereoAndLFOSensitivity | com.io7m.jvgm.interpreter.ym2612/src/main/java/com/io7m/jvgm/interpreter/ym2612/VGMYM2612Channel.java:156-172 | left = bit 7, right = bit 6, AMS = (v >>> 3) & 7 and FMS = v & 3, only two bits; nothing else changes |
| YM2612State.ChannelState.WithOperator | com.io7m.jvgm.interpreter.ym2612/src/main/java/com/io7m/jvgm/interpreter/ym2612/VGMYM2612Channel.java:77-82 | replacing operator i leaves the other three operators and the channel's own registers as they were |
| YM2612State.StereoLFOFields | com.io7m.jvgm.interpreter.ym2612/src/main/java/com/io7m/jvgm/interpreter/ym2612/VGMYM2612Channel.java:156-172 | left, right, AMS and FMS, with bit 2 between them, make up the low byte: only bit 2 is dropped |
| YM2612State.ChannelRegistersOutsideSnapshot | com.io7m.jvgm.interpreter.ym2612/src/main/java/com/io7m/jvgm/interpreter/ym2612/VGMYM2612Channel.java:99-189 | the frequency, stereo and LFO setters leave the channel snapshot unchanged |
| YM2612State.OperatorSnapshots | com.io7m.jvgm.interpreter.ym2612/src/main/java/com/io7m/jvgm/interpreter/ym2612/VGMYM2612Channel.java:184-187 | the operator snapshots are keyed exactly 0..3, key i holding operator i's snapshot |
| YM2612State.StereoFieldsJoin | com.io7m.jvgm.interpreter.ym2612/src/main/java/com/io7m/jvgm/interpreter/ym2612/VGMYM2612Channel.java:159-162 | the four stereo/LFO fields plus bit 2 recompose the low byte of the value |
| YM2612State.AlgorithmFeedbackRoundTrip | com.io7m.jvgm.interpreter.ym2612/src/main/java/com/io7m/jvgm/interpreter/ym2612/VGMYM2612Channel.java:136-148 | writing feedback * 8 + algorithm sets exactly that feedback and algorithm |
| YM2612State.ChannelOctaveRoundTrip | com.io7m.jvgm.interpreter.ym2612/src/main/java/com/io7m/jvgm/interpreter/ym2612/VGMYM2612Channel.java:116-128 | writing octave * 8 + msb sets exactly that channel octave and msb |
| YM2612State.StereoLFORoundTrip | com.io7m.jvgm.interpreter.ym2612/src/main/java/com/io7m/jvgm/interpreter/ym2612/VGMYM2612Channel.java:156-172 | writing the packed left/right/AMS/FMS value sets exactly those four fields |
| YM2612State.InitialChannel | com.io7m.jvgm.interpreter.ym2612/src/main/java/com/io7m/jvgm/interpreter/ym2612/VGMYM2612Channel.java:46-69 | a new channel has its index and four fresh operators indexed 0..3, and is well-formed |
| YM2612State.ChannelState.KeyOn | com.io7m.jvgm.interpreter.ym2612/src/main/java/com/io7m/jvgm/interpreter/ym2612/VGMYM2612Interpreter.java:1234-1242 | operator k of the selected channel is enabled exactly when bit 4 + k of the value is set; nothing else of the channel changes |
| YM2612State.ChipState.Snapshots | com.io7m.jvgm.interpreter.ym2612/src/main/java/com/io7m/jvgm/interpreter/ym2612/VGMYM2612Channel.java:178-189 | the six channel snapshots, entry i being channel i's |
| YM2612State.ChipState.WithChannel | com.io7m.jvgm.interpreter.ym2612/src/main/java/com/io7m/jvgm/interpreter/ym2612/VGMYM2612Interpreter.java:304-309 | replacing channel c leaves the other five channels and the globals as they were |
| YM2612State.ChipState.WithOperator | com.io7m.jvgm.interpreter.ym2612/src/main/java/com/io7m/jvgm/interpreter/ym2612/VGMYM2612Channel.java:77-82 | replacing one operator of channel c leaves the other channels and the globals as they were |
| YM2612State.ChipState.SetLFO | com.io7m.jvgm.interpreter.ym2612/src/main/java/com/io7m/jvgm/interpreter/ym2612/VGMYM2612Interpreter.java:1310-1322 | lfo_enable = bit 3 and lfo_frequency = bits 0-2, together the low four bits; nothing else changes |
| YM2612State.ChipState.SetTimerBTime | com.io7m.jvgm.interpreter.ym2612/src/main/java/com/io7m/jvgm/interpreter/ym2612/VGMYM2612Interpreter.java:1189-1199 | the timer B value is stored unmasked; nothing else changes |
| YM2612State.ChipState.SetDAC | com.io7m.jvgm.interpreter.ym2612/src/main/java/com/io7m/jvgm/interpreter/ym2612/VGMYM2612Interpreter.java:1298-1308 | dac_enable = bit 7; nothing else changes |
| YM2612State.ChipState.SetTimersAndMode | com.io7m.jvgm.interpreter.ym2612/src/main/java/com/io7m/jvgm/interpreter/ym2612/VGMYM2612Interpreter.java:1255-1296 | mode bits 6-7 of 00 clear special mode, 01 set it, 10 and 11 keep it; the six timer bits are stored as single bits; nothing else changes |
| YM2612State.ChipState.SetKeyOnOff | com.io7m.jvgm.interpreter.ym2612/src/main/java/com/io7m/jvgm/interpreter/ym2612/VGMYM2612Interpreter.java:1209-1253 | the low three bits select a channel through the discontinuous decode; codes 3 and 7 change nothing; a selected channel is keyed from the high nibble and nothing else changes |
| YM2612State.WellFormedShaped | com.io7m.jvgm.interpreter.ym2612/src/main/java/com/io7m/jvgm/interpreter/ym2612/VGMYM2612Interpreter.java:290-296 | a well-formed chip has six channels of four operators |
| YM2612State.WithChannelWellFormed | com.io7m.jvgm.interpreter.ym2612/src/main/java/com/io7m/jvgm/interpreter/ym2612/VGMYM2612Interpreter.java:290-296 | replacing a channel by a well-formed one with the same index keeps the chip well-formed |
| YM2612State.WithOperatorWellFormed | com.io7m.jvgm.interpreter.ym2612/src/main/java/com/io7m/jvgm/interpreter/ym2612/VGMYM2612Channel.java:54-60 | replacing an operator by a well-formed one with the same index keeps the chip well-formed |
| YM2612State.SameChannelSnapshot | com.io7m.jvgm.interpreter.ym2612/src/main/java/com/io7m/jvgm/interpreter/ym2612/VGMYM2612Channel.java:178-189 | a channel snapshot depends only on algorithm, feedback, index and the four operator snapshots |
| YM2612State.WithChannelSnapshots | com.io7m.jvgm.interpreter.ym2612/src/main/java/com/io7m/jvgm/interpreter/ym2612/VGMYM2612Channel.java:178-189 | replacing one channel leaves the other snapshots alone, and all of them when the new channel has the old one's snapshot |
| YM2612State.WithOperatorSnapshots | com.io7m.jvgm.interpreter.ym2612/src/main/java/com/io7m/jvgm/interpreter/ym2612/VGMYM2612Operator.java:75-88 | replacing an operator by one with the same snapshot leaves every channel snapshot alone |
| YM2612State.WithChannelTwice | com.io7m.jvgm.interpreter.ym2612/src/main/java/com/io7m/jvgm/interpreter/ym2612/VGMYM2612Interpreter.java:304-309 | replacing the same channel twice keeps the second replacement only |
| YM2612State.WithOperatorTwice | com.io7m.jvgm.interpreter.ym2612/src/main/java/com/io7m/jvgm/interpreter/ym2612/VGMYM2612Channel.java:77-82 | replacing the same operator twice keeps the second replacement only |
| YM2612State.TimerBitsStored | com.io7m.jvgm.interpreter.ym2612/src/main/java/com/io7m/jvgm/interpreter/ym2612/VGMYM2612Interpreter.java:1274-1279 | the six timer bits stored by 0x27 are exactly the low six bits of the value |
| YM2612State.TimerFieldsJoin | com.io7m.jvgm.interpreter.ym2612/src/main/java/com/io7m/jvgm/interpreter/ym2612/VGMYM2612Interpreter.java:1274-1279 | the six one-bit timer fields recompose the low six bits |
| YM2612State.KeyOnChannel | com.io7m.jvgm.interpreter.ym2612/src/main/java/com/io7m/jvgm/interpreter/ym2612/VGMYM2612Interpreter.java:1213-1232 | codes 0, 1, 2 select channels 0-2 and 4, 5, 6 select channels 3-5; exactly 3 and 7 (and nothing above 7) select none |
| YM2612State.KeyOnCode | com.io7m.jvgm.interpreter.ym2612/src/main/java/com/io7m/jvgm/interpreter/ym2612/VGMYM2612Interpreter.java:1213-1226 | every channel has a key-on code other than 3 and 7 |
| YM2612State.KeyOnCodeRoundTrip | com.io7m.jvgm.interpreter.ym2612/src/main/java/com/io7m/jvgm/interpreter/ym2612/VGMYM2612Interpreter.java:1213-1226 | the key-on code of channel c selects c, and it is the only code that does |
| YM2612State.KeyOnRoundTrip | com.io7m.jvgm.interpreter.ym2612/src/main/java/com/io7m/jvgm/interpreter/ym2612/VGMYM2612Interpreter.java:1209-1242 | a value packed from a channel's code and four key bits selects that channel and keys each operator as its bit says |
| YM2612State.TimersAndModeRoundTrip | com.io7m.jvgm.interpreter.ym2612/src/main/java/com/io7m/jvgm/interpreter/ym2612/VGMYM2612Interpreter.java:1255-1279 | writing mode bit 6 and six timer bits sets special mode to that bit and exactly those timer bits |
| YM2612State.InvalidModeKeepsSpecialMode | com.io7m.jvgm.interpreter.ym2612/src/main/java/com/io7m/jvgm/interpreter/ym2612/VGMYM2612Interpreter.java:1263-1272 | mode patterns 10 and 11 leave special mode as it was |
| YM2612State.InitialChipWellFormed | com.io7m.jvgm.interpreter.ym2612/src/main/java/com/io7m/jvgm/interpreter/ym2612/VGMYM2612Interpreter.java:290-296 | the power-on state is well-formed with special mode off and channel i in its initial state with index i |
| YM2612Registers.KindBase | com.io7m.jvgm.interpreter.ym2612/src/main/java/com/io7m/jvgm/interpreter/ym2612/VGMYM2612Interpreter.java:431-718 | each operator block starts at a multiple of 16 between 0x30 and 0x80 |
| YM2612Registers.KindOfBase | com.io7m.jvgm.interpreter.ym2612/src/main/java/com/io7m/jvgm/interpreter/ym2612/VGMYM2612Interpreter.java:431-718 | the block starting at a given base is the one whose base it is (inverse of KindBase) |
| YM2612Registers.KindBaseInjective | com.io7m.jvgm.interpreter.ym2612/src/main/java/com/io7m/jvgm/interpreter/ym2612/VGMYM2612Interpreter.java:431-718 | distinct operator blocks have distinct bases |
| YM2612Registers.Decode | com.io7m.jvgm.interpreter.ym2612/src/main/java/com/io7m/jvgm/interpreter/ym2612/VGMYM2612Interpreter.java:320-1174 | every register of either port reaches a setter on a channel 0-5 and operator 0-3 that exist |
| YM2612Registers.Port0TableAgrees | com.io7m.jvgm.interpreter.ym2612/src/main/java/com/io7m/jvgm/interpreter/ym2612/VGMYM2612Interpreter.java:740-1174 | every case of the port-0 switch, and its default, calls the setter the register map names |
| YM2612Registers.Port1TableAgrees | com.io7m.jvgm.interpreter.ym2612/src/main/java/com/io7m/jvgm/interpreter/ym2612/VGMYM2612Interpreter.java:320-738 | every case of the port-1 switch, and its default, calls the setter the register map names |
| YM2612Registers.ChannelFrequencySetter | com.io7m.jvgm.interpreter.ym2612/src/main/java/com/io7m/jvgm/interpreter/ym2612/VGMYM2612Channel.java:99-128 | a channel frequency write leaves the channel's operators alone |
| YM2612Registers.OperatorFrequencySetter | com.io7m.jvgm.interpreter.ym2612/src/main/java/com/io7m/jvgm/interpreter/ym2612/VGMYM2612Operator.java:214-244 | an operator frequency write leaves the operator's snapshot and index alone and keeps it well-formed |
| YM2612Registers.Apply | com.io7m.jvgm.interpreter.ym2612/src/main/java/com/io7m/jvgm/interpreter/ym2612/VGMYM2612Interpreter.java:329-1174 | a write keeps the chip's shape; setters that only log change nothing |
| YM2612Registers.Write | com.io7m.jvgm.interpreter.ym2612/src/main/java/com/io7m/jvgm/interpreter/ym2612/VGMYM2612Interpreter.java:320-1174 | a register write is total, dispatches on the register's low byte, and a logged or unrecognized register changes nothing |
| YM2612Registers.DecodeOperatorRegister | com.io7m.jvgm.interpreter.ym2612/src/main/java/com/io7m/jvgm/interpreter/ym2612/VGMYM2612Interpreter.java:431-718 | register r reaches operator op of channel c in block k exactly when r = base(k) + 4*op + (c - 3*port) with c on that port |
| YM2612Registers.DecodedOperatorRegister | com.io7m.jvgm.interpreter.ym2612/src/main/java/com/io7m/jvgm/interpreter/ym2612/VGMYM2612Interpreter.java:877-1164 | a register that decodes to an operator is base + 4*op + c for the decoded block, operator and channel |
| YM2612Registers.OperatorRegisterDecodes | com.io7m.jvgm.interpreter.ym2612/src/main/java/com/io7m/jvgm/interpreter/ym2612/VGMYM2612Interpreter.java:877-1164 | base + 4*op + c with c below 3 reaches operator op of channel 3*port + c |
| YM2612Registers.OperatorRowGap | com.io7m.jvgm.interpreter.ym2612/src/main/java/com/io7m/jvgm/interpreter/ym2612/VGMYM2612Interpreter.java:877-1164 | slot 3 of every operator row takes the default branch |
| YM2612Registers.DecodeChannelRegister | com.io7m.jvgm.interpreter.ym2612/src/main/java/com/io7m/jvgm/interpreter/ym2612/VGMYM2612Interpreter.java:775-814 | 0xA0-0xA1, 0xA4-0xA5, 0xB0-0xB2 and 0xB4-0xB6 reach the frequency, algorithm/feedback and stereo/LFO setters of channel 3*port + (reg & 3) |
| YM2612Registers.DecodeSharedChannelFrequency | com.io7m.jvgm.interpreter.ym2612/src/main/java/com/io7m/jvgm/interpreter/ym2612/VGMYM2612Interpreter.java:815-856 | 0xA2 and 0xA6 are the shared frequency registers of channel 3*port + 2 |
| YM2612Registers.DecodeOperatorFrequency | com.io7m.jvgm.interpreter.ym2612/src/main/java/com/io7m/jvgm/interpreter/ym2612/VGMYM2612Interpreter.java:815-856 | 0xA8-0xAA and 0xAC-0xAE reach operators 1-3 of channel 3*port + 2 |
| YM2612Registers.SpecialModeRouting | com.io7m.jvgm.interpreter.ym2612/src/main/java/com/io7m/jvgm/interpreter/ym2612/VGMYM2612Interpreter.java:389-430 | with special mode set 0xA2/0xA6 write operator 0's frequency, otherwise the channel's, on either port |
| YM2612Registers.OperatorFrequencyIgnoresMode | com.io7m.jvgm.interpreter.ym2612/src/main/java/com/io7m/jvgm/interpreter/ym2612/VGMYM2612Interpreter.java:815-856 | the operator frequency registers reach the same operator whatever the special-mode flag |
| YM2612Registers.GlobalsOnPortZeroOnly | com.io7m.jvgm.interpreter.ym2612/src/main/java/com/io7m/jvgm/interpreter/ym2612/VGMYM2612Interpreter.java:770-876 | registers 0x22-0x2B change nothing on port 1, and on port 0 exactly 0x22, 0x26, 0x27, 0x28, 0x2A and 0x2B have a case |
| YM2612Registers.LoggedRegisters | com.io7m.jvgm.interpreter.ym2612/src/main/java/com/io7m/jvgm/interpreter/ym2612/VGMYM2612Interpreter.java:1177-1207 | 0x90-0x9E on either port and 0x2A on port 0 leave the chip unchanged |
| YM2612Registers.RegisterLowByteOnly | com.io7m.jvgm.interpreter.ym2612/src/main/java/com/io7m/jvgm/interpreter/ym2612/VGMYM2612Interpreter.java:329-329 | a write depends on the register only through its low byte |
| YM2612Registers.ModeRegister | com.io7m.jvgm.interpreter.ym2612/src/main/java/com/io7m/jvgm/interpreter/ym2612/VGMYM2612Interpreter.java:1255-1296 | register 0x27 sets special mode for mode 01, clears it for 00 and keeps it for 10 and 11 |
| YM2612Registers.KeyOnRegister | com.io7m.jvgm.interpreter.ym2612/src/main/java/com/io7m/jvgm/interpreter/ym2612/VGMYM2612Interpreter.java:1209-1253 | register 0x28 is the key-on setter; channel codes 3 and 7 change nothing |
| YM2612Registers.PortSymmetry | com.io7m.jvgm.interpreter.ym2612/src/main/java/com/io7m/jvgm/interpreter/ym2612/VGMYM2612Interpreter.java:320-1174 | port 1 reaches the port-0 target moved up three channels, and has none of the port-0 globals |
| YM2612Registers.ApplyKeepsWellFormed | com.io7m.jvgm.interpreter.ym2612/src/main/java/com/io7m/jvgm/interpreter/ym2612/VGMYM2612Interpreter.java:329-1174 | every setter keeps each masked field within its mask and every index in place |
| YM2612Registers.ChannelSetterKeepsWellFormed | com.io7m.jvgm.interpreter.ym2612/src/main/java/com/io7m/jvgm/interpreter/ym2612/VGMYM2612Channel.java:99-172 | the four channel setters keep the chip well-formed |
| YM2612Registers.KeyOnKeepsWellFormed | com.io7m.jvgm.interpreter.ym2612/src/main/java/com/io7m/jvgm/interpreter/ym2612/VGMYM2612Interpreter.java:1209-1253 | a key-on write keeps the chip well-formed |
| YM2612Registers.WriteKeepsWellFormed | com.io7m.jvgm.interpreter.ym2612/src/main/java/com/io7m/jvgm/interpreter/ym2612/VGMYM2612Interpreter.java:320-1174 | any register write on either port keeps the chip well-formed |
| YM2612Registers.ApplySnapshots | com.io7m.jvgm.interpreter.ym2612/src/main/java/com/io7m/jvgm/interpreter/ym2612/VGMYM2612Channel.java:178-189 | a write changes at most the snapshot of the channel it addresses, and only operator-block and algorithm/feedback writes change one |
| YM2612Registers.KeyOnSnapshots | com.io7m.jvgm.interpreter.ym2612/src/main/java/com/io7m/jvgm/interpreter/ym2612/VGMYM2612Operator.java:75-88 | key-on writes change no snapshot (the enabled flag is not part of one) |
| YM2612Registers.ApplyTwice | com.io7m.jvgm.interpreter.ym2612/src/main/java/com/io7m/jvgm/interpreter/ym2612/VGMYM2612Interpreter.java:329-1174 | writing a register twice equals writing the second value, for mode values 00/01 and same-channel key-on |
| YM2612Registers.ModeSurvivesInvalidPattern | com.io7m.jvgm.interpreter.ym2612/src/main/java/com/io7m/jvgm/interpreter/ym2612/VGMYM2612Interpreter.java:1263-1272 | mode bits 11 after 01 leave special mode on, though 11 alone leaves it off |
| YM2612Snapshots.OperatorSnapshot.Volume | com.io7m.jvgm.interpreter.ym2612/src/main/java/com/io7m/jvgm/interpreter/ym2612/VGMYM2612OperatorSnapshotType.java:41-44 | volume plus the inverse is 127 modulo 2^32, and exactly 127 when no wrap-around occurs |
| YM2612Snapshots.VolumeOfFullInverse | com.io7m.jvgm.interpreter.ym2612/src/main/java/com/io7m/jvgm/interpreter/ym2612/VGMYM2612OperatorSnapshotType.java:34-100 | no range check: an inverse of 255 gives volume -128 |
| YM2612Snapshots.ChannelSnapshot.Operator | com.io7m.jvgm.interpreter.ym2612/src/main/java/com/io7m/jvgm/interpreter/ym2612/VGMYM2612ChannelSnapshotType.java:53-62 | the lookup succeeds exactly for a present key, returns its entry, and reports the index otherwise |
| YM2612Snapshots.MakeChannelSnapshot | com.io7m.jvgm.interpreter.ym2612/src/main/java/com/io7m/jvgm/interpreter/ym2612/VGMYM2612ChannelSnapshotType.java:75-90 | a successful construction holds exactly the given fields |
| YM2612Snapshots.MakeChannelSnapshotKeys | com.io7m.jvgm.interpreter.ym2612/src/main/java/com/io7m/jvgm/interpreter/ym2612/VGMYM2612ChannelSnapshotType.java:75-90 | construction succeeds exactly when the operator keys are 0, 1, 2 and 3 |
| YM2612Snapshots.MakeChannelSnapshotErrors | com.io7m.jvgm.interpreter.ym2612/src/main/java/com/io7m/jvgm/interpreter/ym2612/VGMYM2612ChannelSnapshotType.java:75-90 | a failure reports the operator count when it is not four, else a missing index 0-3 |
| YM2612Interpreter.Operator.constructor | com.io7m.jvgm.interpreter.ym2612/src/main/java/com/io7m/jvgm/interpreter/ym2612/VGMYM2612Operator.java:49-69 | a new operator has the given index and every register zero, keyed off |
| YM2612Interpreter.Operator.Snapshot | com.io7m.jvgm.interpreter.ym2612/src/main/java/com/io7m/jvgm/interpreter/ym2612/VGMYM2612Operator.java:75-88 | the snapshot of the object is the snapshot of its value |
| YM2612Interpreter.Operator.SetDetuneAndMultiple | com.io7m.jvgm.interpreter.ym2612/src/main/java/com/io7m/jvgm/interpreter/ym2612/VGMYM2612Operator.java:96-110 | the new state is the value model's detune/multiple write of the old state |
| YM2612Interpreter.Operator.SetVolumeInverse | com.io7m.jvgm.interpreter.ym2612/src/main/java/com/io7m/jvgm/interpreter/ym2612/VGMYM2612Operator.java:118-128 | the new state is the value model's inverse-volume write of the old state |
| YM2612Interpreter.Operator.SetRateScalingAndAttackRate | com.io7m.jvgm.interpreter.ym2612/src/main/java/com/io7m/jvgm/interpreter/ym2612/VGMYM2612Operator.java:136-148 | the new state is the value model's rate-scaling/attack write of the old state |
| YM2612Interpreter.Operator.SetRateDecayAndAmplitudeModulation | com.io7m.jvgm.interpreter.ym2612/src/main/java/com/io7m/jvgm/interpreter/ym2612/VGMYM2612Operator.java:156-168 | the new state is the value model's decay/AM write of the old state |
| YM2612Interpreter.Operator.SetRateDecaySecondary | com.io7m.jvgm.interpreter.ym2612/src/main/java/com/io7m/jvgm/interpreter/ym2612/VGMYM2612Operator.java:176-186 | the new state is the value model's secondary decay write of the old state |
| YM2612Interpreter.Operator.SetRateReleaseAndSecondaryAmplitude | com.io7m.jvgm.interpreter.ym2612/src/main/java/com/io7m/jvgm/interpreter/ym2612/VGMYM2612Operator.java:194-206 | the new state is the value model's release/sustain write of the old state |
| YM2612Interpreter.Operator.SetFrequencyLSB | com.io7m.jvgm.interpreter.ym2612/src/main/java/com/io7m/jvgm/interpreter/ym2612/VGMYM2612Operator.java:214-224 | the new state is the value model's frequency LSB write of the old state |
| YM2612Interpreter.Operator.SetFrequencyMSB | com.io7m.jvgm.interpreter.ym2612/src/main/java/com/io7m/jvgm/interpreter/ym2612/VGMYM2612Operator.java:232-244 | the new state is the value model's frequency MSB/octave write of the old state |
| YM2612Interpreter.Operator.SetEnabled | com.io7m.jvgm.interpreter.ym2612/src/main/java/com/io7m/jvgm/interpreter/ym2612/VGMYM2612Operator.java:252-260 | the new state is the old one with the enabled flag set as given |
| YM2612Interpreter.Operator.Set | com.io7m.jvgm.interpreter.ym2612/src/main/java/com/io7m/jvgm/interpreter/ym2612/VGMYM2612Interpreter.java:431-718 | the operator block setter of each kind performs that block's write of the value model |
| YM2612Interpreter.Operator.SetFrequency | com.io7m.jvgm.interpreter.ym2612/src/main/java/com/io7m/jvgm/interpreter/ym2612/VGMYM2612Interpreter.java:389-430 | the LSB or MSB frequency setter, as the value model's frequency write |
| YM2612Interpreter.Channel.State | com.io7m.jvgm.interpreter.ym2612/src/main/java/com/io7m/jvgm/interpreter/ym2612/VGMYM2612Channel.java:46-69 | the channel's value has four operators, each the state of the operator object under that index |
| YM2612Interpreter.Channel.constructor | com.io7m.jvgm.interpreter.ym2612/src/main/java/com/io7m/jvgm/interpreter/ym2612/VGMYM2612Channel.java:46-69 | four fresh operators 0..3 that belong to this channel, every register zero |
| YM2612Interpreter.Channel.Operator | com.io7m.jvgm.interpreter.ym2612/src/main/java/com/io7m/jvgm/interpreter/ym2612/VGMYM2612Channel.java:77-82 | operator(i) succeeds exactly for 0 <= i < 4, returns the operator of index i, and reports the index otherwise |
| YM2612Interpreter.Channel.Snapshot | com.io7m.jvgm.interpreter.ym2612/src/main/java/com/io7m/jvgm/interpreter/ym2612/VGMYM2612Channel.java:178-189 | the snapshot of the object is the snapshot of its value |
| YM2612Interpreter.Channel.SetFrequencyLSB | com.io7m.jvgm.interpreter.ym2612/src/main/java/com/io7m/jvgm/interpreter/ym2612/VGMYM2612Channel.java:99-108 | the new state is the value model's frequency LSB write of the old state |
| YM2612Interpreter.Channel.SetFrequencyMSB | com.io7m.jvgm.interpreter.ym2612/src/main/java/com/io7m/jvgm/interpreter/ym2612/VGMYM2612Channel.java:116-128 | the new state is the value model's frequency MSB/octave write of the old state |
| YM2612Interpreter.Channel.SetAlgorithmAndFeedback | com.io7m.jvgm.interpreter.ym2612/src/main/java/com/io7m/jvgm/interpreter/ym2612/VGMYM2612Channel.java:136-148 | the new state is the value model's algorithm/feedback write of the old state |
| YM2612Interpreter.Channel.SetStereoAndLFOSensitivity | com.io7m.jvgm.interpreter.ym2612/src/main/java/com/io7m/jvgm/interpreter/ym2612/VGMYM2612Channel.java:156-172 | the new state is the value model's stereo/LFO write of the old state |
| YM2612Interpreter.Channel.OnlyOperatorsChanged | com.io7m.jvgm.interpreter.ym2612/src/main/java/com/io7m/jvgm/interpreter/ym2612/VGMYM2612Channel.java:46-69 | when the channel object is untouched only its operators' states can differ |
| YM2612Interpreter.Channel.OperatorChanged | com.io7m.jvgm.interpreter.ym2612/src/main/java/com/io7m/jvgm/interpreter/ym2612/VGMYM2612Channel.java:77-82 | when only operator op's object is written only that operator's state differs |
| YM2612Interpreter.Channel.SetFrequency | com.io7m.jvgm.interpreter.ym2612/src/main/java/com/io7m/jvgm/interpreter/ym2612/VGMYM2612Interpreter.java:349-388 | the LSB or MSB channel frequency setter, as the value model's frequency write |
| YM2612Interpreter.Interpreter.ChannelStates | com.io7m.jvgm.interpreter.ym2612/src/main/java/com/io7m/jvgm/interpreter/ym2612/VGMYM2612Interpreter.java:290-296 | the six channel states, entry c being channel c's |
| YM2612Interpreter.Interpreter.State | com.io7m.jvgm.interpreter.ym2612/src/main/java/com/io7m/jvgm/interpreter/ym2612/VGMYM2612Interpreter.java:290-296 | the interpreter's value has six channels, those of its channel objects |
| YM2612Interpreter.Interpreter.constructor | com.io7m.jvgm.interpreter.ym2612/src/main/java/com/io7m/jvgm/interpreter/ym2612/VGMYM2612Interpreter.java:290-296 | six fresh channels 0..5 with fresh operators; the state is the power-on chip |
| YM2612Interpreter.Interpreter.MakeChannels | com.io7m.jvgm.interpreter.ym2612/src/main/java/com/io7m/jvgm/interpreter/ym2612/VGMYM2612Interpreter.java:290-296 | six fresh channels, channel j with index j in its initial state |
| YM2612Interpreter.Interpreter.FreshObjects | com.io7m.jvgm.interpreter.ym2612/src/main/java/com/io7m/jvgm/interpreter/ym2612/VGMYM2612Interpreter.java:290-296 | every object of a newly built interpreter is fresh |
| YM2612Interpreter.Interpreter.InitialState | com.io7m.jvgm.interpreter.ym2612/src/main/java/com/io7m/jvgm/interpreter/ym2612/VGMYM2612Interpreter.java:290-296 | initial channels and zero globals make up the power-on chip |
| YM2612Interpreter.Interpreter.ChannelSnapshots | com.io7m.jvgm.interpreter.ym2612/src/main/java/com/io7m/jvgm/interpreter/ym2612/VGMYM2612Channel.java:178-189 | the six channel snapshots are those of the value model |
| YM2612Interpreter.Interpreter.Channel | com.io7m.jvgm.interpreter.ym2612/src/main/java/com/io7m/jvgm/interpreter/ym2612/VGMYM2612Interpreter.java:304-309 | channel(i) succeeds exactly for 0 <= i < 6, returns the channel of index i, and reports the index otherwise |
| YM2612Interpreter.Interpreter.ChannelsUnchanged | com.io7m.jvgm.interpreter.ym2612/src/main/java/com/io7m/jvgm/interpreter/ym2612/VGMYM2612Interpreter.java:1177-1322 | the global setters, which touch no channel object, leave every channel state alone |
| YM2612Interpreter.Interpreter.StateUnchanged | com.io7m.jvgm.interpreter.ym2612/src/main/java/com/io7m/jvgm/interpreter/ym2612/VGMYM2612Interpreter.java:1166-1172 | writing none of the interpreter's objects leaves its state alone |
| YM2612Interpreter.Interpreter.OneChannelChanged | com.io7m.jvgm.interpreter.ym2612/src/main/java/com/io7m/jvgm/interpreter/ym2612/VGMYM2612Interpreter.java:304-309 | writing the objects of one channel changes only that channel's state |
| YM2612Interpreter.Interpreter.SetLFO | com.io7m.jvgm.interpreter.ym2612/src/main/java/com/io7m/jvgm/interpreter/ym2612/VGMYM2612Interpreter.java:1310-1322 | the new state is the value model's LFO write of the old state |
| YM2612Interpreter.Interpreter.SetTimerBTime | com.io7m.jvgm.interpreter.ym2612/src/main/java/com/io7m/jvgm/interpreter/ym2612/VGMYM2612Interpreter.java:1189-1199 | the new state is the value model's timer B write of the old state |
| YM2612Interpreter.Interpreter.SetDAC | com.io7m.jvgm.interpreter.ym2612/src/main/java/com/io7m/jvgm/interpreter/ym2612/VGMYM2612Interpreter.java:1298-1308 | the new state is the value model's DAC enable write of the old state |
| YM2612Interpreter.Interpreter.SetTimersAndMode | com.io7m.jvgm.interpreter.ym2612/src/main/java/com/io7m/jvgm/interpreter/ym2612/VGMYM2612Interpreter.java:1255-1296 | the new state is the value model's timers/mode write of the old state |
| YM2612Interpreter.Interpreter.SetKeyOnOff | com.io7m.jvgm.interpreter.ym2612/src/main/java/com/io7m/jvgm/interpreter/ym2612/VGMYM2612Interpreter.java:1209-1253 | the new state is the value model's key-on write of the old state |
| YM2612Interpreter.Interpreter.KeyOperators | com.io7m.jvgm.interpreter.ym2612/src/main/java/com/io7m/jvgm/interpreter/ym2612/VGMYM2612Interpreter.java:1234-1242 | the four setEnabled calls key the channel as the value model's KeyOn does |
| YM2612Interpreter.Interpreter.WriteOperator | com.io7m.jvgm.interpreter.ym2612/src/main/java/com/io7m/jvgm/interpreter/ym2612/VGMYM2612Interpreter.java:431-718 | an operator block case changes the state as the register map's write does |
| YM2612Interpreter.Interpreter.WriteOperatorFrequency | com.io7m.jvgm.interpreter.ym2612/src/main/java/com/io7m/jvgm/interpreter/ym2612/VGMYM2612Interpreter.java:815-856 | an operator frequency case changes only that operator, by the frequency write |
| YM2612Interpreter.Interpreter.WriteChannelFrequency | com.io7m.jvgm.interpreter.ym2612/src/main/java/com/io7m/jvgm/interpreter/ym2612/VGMYM2612Interpreter.java:349-388 | a channel frequency case changes only that channel, by the frequency write |
| YM2612Interpreter.Interpreter.WriteAlgorithmFeedback | com.io7m.jvgm.interpreter.ym2612/src/main/java/com/io7m/jvgm/interpreter/ym2612/VGMYM2612Interpreter.java:775-814 | an algorithm/feedback case changes the state as the register map's write does |
| YM2612Interpreter.Interpreter.WriteStereoLFO | com.io7m.jvgm.interpreter.ym2612/src/main/java/com/io7m/jvgm/interpreter/ym2612/VGMYM2612Interpreter.java:775-814 | a stereo/LFO case changes the state as the register map's write does |
| YM2612Interpreter.Interpreter.Perform | com.io7m.jvgm.interpreter.ym2612/src/main/java/com/io7m/jvgm/interpreter/ym2612/VGMYM2612Interpreter.java:329-1174 | performing a decoded target changes the state as the value model's write does, special-mode routing included |
| YM2612Interpreter.Interpreter.WriteRegisterPort0 | com.io7m.jvgm.interpreter.ym2612/src/main/java/com/io7m/jvgm/interpreter/ym2612/VGMYM2612Interpreter.java:740-1174 | any port-0 register write changes the state exactly as the register map says |
| YM2612Interpreter.Interpreter.WriteRegisterPort1 | com.io7m.jvgm.interpreter.ym2612/src/main/java/com/io7m/jvgm/interpreter/ym2612/VGMYM2612Interpreter.java:320-738 | any port-1 register write changes the state exactly as the register map says |
| Dx7Adaption.AdaptAlgorithm | com.io7m.jvgm.interpreter.ym2612.dx7/src/main/java/com/io7m/jvgm/interpreter/ym2612/dx7/VGMDx7Adaption.java:65-83 | algorithms 0..7 adapt and nothing else does; the error names the algorithm; the chosen DX7 algorithm reads back as the YM2612 one |
| Dx7Adaption.YM2612AlgorithmOf | com.io7m.jvgm.interpreter.ym2612.dx7/src/main/java/com/io7m/jvgm/interpreter/ym2612/dx7/VGMDx7Adaption.java:65-81 | the reverse reading of the table yields only YM2612 algorithms 0..7 |
| Dx7Adaption.AdaptAlgorithmInverse | com.io7m.jvgm.interpreter.ym2612.dx7/src/main/java/com/io7m/jvgm/interpreter/ym2612/dx7/VGMDx7Adaption.java:65-81 | exactly DX7 algorithms 1, 7, 8, 14, 22, 29, 31 and 32 are chosen, each by the YM2612 algorithm it reads back as |
| Dx7Adaption.AdaptAlgorithmInjective | com.io7m.jvgm.interpreter.ym2612.dx7/src/main/java/com/io7m/jvgm/interpreter/ym2612/dx7/VGMDx7Adaption.java:65-81 | different YM2612 algorithms become different DX7 algorithms |
| Dx7Adaption.AdaptSnapshot | com.io7m.jvgm.interpreter.ym2612.dx7/src/main/java/com/io7m/jvgm/interpreter/ym2612/dx7/VGMDx7Adaption.java:56-59 | a snapshot adapts exactly when its algorithm is 0..7, to a voice with the given name, no optional part and the table's algorithm; otherwise it fails naming the algorithm |
| Dx7Adaption.AdaptSnapshotReadsAlgorithmOnly | com.io7m.jvgm.interpreter.ym2612.dx7/src/main/java/com/io7m/jvgm/interpreter/ym2612/dx7/VGMDx7Adaption.java:56-59 | snapshots agreeing on the algorithm give the same voice |
| Dx7Adaption.WellFormedChannelsAdapt | com.io7m.jvgm.interpreter.ym2612/src/main/java/com/io7m/jvgm/interpreter/ym2612/VGMYM2612Channel.java:136-148 | every channel snapshot of a well-formed chip adapts, since the algorithm is stored masked to three bits |
| FileNames.DigitChar | com.io7m.jvgm.cmdline/src/main/java/com/io7m/jvgm/cmdline/JVGMCommandInterpret.java:189-193 | the character of a digit is a digit of that value |
| FileNames.Decimal | com.io7m.jvgm.cmdline/src/main/java/com/io7m/jvgm/cmdline/JVGMCommandInterpret.java:189-193 | decimal digits of a number: at least one, two or more from 10 on |
| FileNames.Zeros | com.io7m.jvgm.cmdline/src/main/java/com/io7m/jvgm/cmdline/JVGMCommandInterpret.java:189-193 | k zero digits |
| FileNames.DecimalValue | com.io7m.jvgm.cmdline/src/main/java/com/io7m/jvgm/cmdline/JVGMCommandInterpret.java:189-193 | the decimal digits of n read back as n |
| FileNames.DecimalLength | com.io7m.jvgm.cmdline/src/main/java/com/io7m/jvgm/cmdline/JVGMCommandInterpret.java:189-193 | a number below 10^k has at most k digits |
| FileNames.Power10 | com.io7m.jvgm.cmdline/src/main/java/com/io7m/jvgm/cmdline/JVGMCommandInterpret.java:189-193 | powers of ten are positive |
| FileNames.LeadingZeros | com.io7m.jvgm.cmdline/src/main/java/com/io7m/jvgm/cmdline/JVGMCommandInterpret.java:189-193 | leading zeros do not change the value of a digit string |
| FileNames.ZerosValue | com.io7m.jvgm.cmdline/src/main/java/com/io7m/jvgm/cmdline/JVGMCommandInterpret.java:189-193 | a string of zeros has value zero |
| FileNames.ZeroPaddedValue | com.io7m.jvgm.cmdline/src/main/java/com/io7m/jvgm/cmdline/JVGMCommandInterpret.java:189-193 | `%0wd` of a number of at most w digits is w digits that read back as the number |
| FileNames.FileNameFields | com.io7m.jvgm.cmdline/src/main/java/com/io7m/jvgm/cmdline/JVGMCommandInterpret.java:189-193 | for channels below 100 and counts below 10000 the name is "chII-CCCC.txt" and index and count read back from it |
| FileNames.FileNameInjective | com.io7m.jvgm.cmdline/src/main/java/com/io7m/jvgm/cmdline/JVGMCommandInterpret.java:189-193 | different (channel, count) pairs in range get different file names |
| FileNames.FirstFileOfChannel3 | com.io7m.jvgm.cmdline/src/main/java/com/io7m/jvgm/cmdline/JVGMCommandInterpret.java:189-193 | the first snapshot of channel 3 is "ch03-0001.txt" |
| FileNames.NegativeCount | com.io7m.jvgm.cmdline/src/main/java/com/io7m/jvgm/cmdline/JVGMCommandInterpret.java:189-193 | a negative count puts its sign before the zeros ("-005") |
| Interpret.ByteMaskRoundTrip | com.io7m.jvgm.cmdline/src/main/java/com/io7m/jvgm/cmdline/JVGMCommandInterpret.java:104-106 | `(byte) (x & 0xff)` of a byte is the byte itself |
| Interpret.LowByteOfNonNegative | com.io7m.jvgm.cmdline/src/main/java/com/io7m/jvgm/cmdline/JVGMCommandInterpret.java:104-106 | `x & 0xff` of a value 0..255 is the value |
| Interpret.LowByteOfByte | com.io7m.jvgm.cmdline/src/main/java/com/io7m/jvgm/cmdline/JVGMCommandInterpret.java:104-106 | `x & 0xff` of a byte is its value modulo 256 |
| Interpret.AsWrittenEffect | com.io7m.jvgm.cmdline/src/main/java/com/io7m/jvgm/cmdline/JVGMCommandInterpret.java:93-163 | the chip keeps its shape, and only the two port-write commands change it |
| Interpret.MaskedEffect | com.io7m.jvgm.cmdline/src/main/java/com/io7m/jvgm/cmdline/JVGMCommandInterpret.java:93-163 | the same with unsigned bytes: shape kept, only port writes change the chip |
| Interpret.PortWrite | com.io7m.jvgm.cmdline/src/main/java/com/io7m/jvgm/cmdline/JVGMCommandInterpret.java:102-115 | builds a port-0 or port-1 write command |
| Interpret.DoCommand | com.io7m.jvgm.cmdline/src/main/java/com/io7m/jvgm/cmdline/JVGMCommandInterpret.java:93-163 | as written: the result is true exactly for EOF, and the interpreter's new state is that of the sign-extended port write (or unchanged) |
| Interpret.DoCommandMasked | com.io7m.jvgm.cmdline/src/main/java/com/io7m/jvgm/cmdline/JVGMCommandInterpret.java:93-163 | corrected: the result is true exactly for EOF, and port writes reach the interpreter with unsigned register and value |
| Interpret.Port0Effects | com.io7m.jvgm.cmdline/src/main/java/com/io7m/jvgm/cmdline/JVGMCommandInterpret.java:102-108 | a port-0 command writes port 0, with the signed byte as written and with the low byte corrected |
| Interpret.Port1Effects | com.io7m.jvgm.cmdline/src/main/java/com/io7m/jvgm/cmdline/JVGMCommandInterpret.java:109-115 | a port-1 command writes port 1, with the signed byte as written and with the low byte corrected |
| Interpret.RegisterSignIsHarmless | com.io7m.jvgm.cmdline/src/main/java/com/io7m/jvgm/cmdline/JVGMCommandInterpret.java:104-106 | the sign of the register byte makes no difference, since the switch masks it: only the value differs |
| Interpret.NonNegativeBytesAgree | com.io7m.jvgm.cmdline/src/main/java/com/io7m/jvgm/cmdline/JVGMCommandInterpret.java:104-106 | for values 0..127 the as-written and corrected effects agree |
| Interpret.VolumeRegister | com.io7m.jvgm.interpreter.ym2612/src/main/java/com/io7m/jvgm/interpreter/ym2612/VGMYM2612Interpreter.java:877-1164 | the inverse-volume register of an operator lies in 0x40-0x4F |
| Interpret.VolumeRegisterDecodes | com.io7m.jvgm.interpreter.ym2612/src/main/java/com/io7m/jvgm/interpreter/ym2612/VGMYM2612Interpreter.java:877-1164 | that register reaches exactly the inverse volume of operator op of channel 3*port + c |
| Interpret.AsWrittenVolume | com.io7m.jvgm.cmdline/src/main/java/com/io7m/jvgm/cmdline/JVGMCommandInterpret.java:104-106 | as written, the inverse volume stored is the signed byte |
| Interpret.MaskedVolume | com.io7m.jvgm.cmdline/src/main/java/com/io7m/jvgm/cmdline/JVGMCommandInterpret.java:104-106 | corrected, the inverse volume stored is the unsigned byte 0..255 |
| Interpret.SignExtendedVolumeInverse | com.io7m.jvgm.cmdline/src/main/java/com/io7m/jvgm/cmdline/JVGMCommandInterpret.java:104-106 | the byte 0x90 to register 0x40 leaves inverse volume -112 (printed unsigned as 4294967184) as written, 144 corrected |
| Interpret.Replay | com.io7m.jvgm.cmdline/src/main/java/com/io7m/jvgm/cmdline/JVGMCommandInterpret.java:349-366 | replaying parse results on a chip keeps its shape |
| Interpret.ReplayAppend | com.io7m.jvgm.cmdline/src/main/java/com/io7m/jvgm/cmdline/JVGMCommandInterpret.java:349-366 | one more result applies its command, or nothing for an error; the run has an error exactly when a part has |
| Interpret.ReplayConcat | com.io7m.jvgm.cmdline/src/main/java/com/io7m/jvgm/cmdline/JVGMCommandInterpret.java:349-366 | replaying two runs one after the other is replaying their concatenation |
| Interpret.ReplayKeepsWellFormed | com.io7m.jvgm.cmdline/src/main/java/com/io7m/jvgm/cmdline/JVGMCommandInterpret.java:349-366 | any run of commands keeps a well-formed chip well-formed |
| Interpret.MaskedEffectKeepsWellFormed | com.io7m.jvgm.cmdline/src/main/java/com/io7m/jvgm/cmdline/JVGMCommandInterpret.java:93-163 | a single command keeps a well-formed chip well-formed |
| Interpret.Recorded | com.io7m.jvgm.cmdline/src/main/java/com/io7m/jvgm/cmdline/JVGMCommandInterpret.java:182-188 | after a dump step the record holds the current snapshot |
| Interpret.RecordedIdempotent | com.io7m.jvgm.cmdline/src/main/java/com/io7m/jvgm/cmdline/JVGMCommandInterpret.java:182-188 | recording the same snapshot twice records it once; a step changes nothing exactly when the snapshot is already stored |
| Interpret.Changes | com.io7m.jvgm.cmdline/src/main/java/com/io7m/jvgm/cmdline/JVGMCommandInterpret.java:182-188 | there are no more changes than snapshots in the run |
| Interpret.CountIsChanges | com.io7m.jvgm.cmdline/src/main/java/com/io7m/jvgm/cmdline/JVGMCommandInterpret.java:182-188 | over a run of dumps the count goes up once per changed snapshot, and the record ends with the last snapshot |
| Interpret.Dumped | com.io7m.jvgm.cmdline/src/main/java/com/io7m/jvgm/cmdline/JVGMCommandInterpret.java:180-188 | a dump records the current snapshot of every channel |
| Interpret.Written | com.io7m.jvgm.cmdline/src/main/java/com/io7m/jvgm/cmdline/JVGMCommandInterpret.java:180-193 | the written (channel, count) pairs are at most one per channel |
| Interpret.Names | com.io7m.jvgm.cmdline/src/main/java/com/io7m/jvgm/cmdline/JVGMCommandInterpret.java:189-193 | one `ch%02d-%04d.txt` name per (channel, count) pair, in order |
| Interpret.DumpedFilesStep | com.io7m.jvgm.cmdline/src/main/java/com/io7m/jvgm/cmdline/JVGMCommandInterpret.java:180-193 | one more channel adds its file exactly when its snapshot changed, named with the incremented count |
| Interpret.InitialRecords | com.io7m.jvgm.cmdline/src/main/java/com/io7m/jvgm/cmdline/JVGMCommandInterpret.java:313-316 | six records with count 0 and no snapshot |
| Interpret.FirstDump | com.io7m.jvgm.cmdline/src/main/java/com/io7m/jvgm/cmdline/JVGMCommandInterpret.java:180-193 | the first dump records every channel with count 1 and writes ch00-0001.txt to ch05-0001.txt in channel order |
| Interpret.FirstWritten | com.io7m.jvgm.cmdline/src/main/java/com/io7m/jvgm/cmdline/JVGMCommandInterpret.java:180-193 | before any record every channel is written with count 1 |
| Interpret.DumpAgain | com.io7m.jvgm.cmdline/src/main/java/com/io7m/jvgm/cmdline/JVGMCommandInterpret.java:182-188 | a second dump with no change records nothing new and writes no file |
| Interpret.WrittenChannels | com.io7m.jvgm.cmdline/src/main/java/com/io7m/jvgm/cmdline/JVGMCommandInterpret.java:182-193 | every written channel is in range and changed, and is written with its incremented count |
| Interpret.WrittenComplete | com.io7m.jvgm.cmdline/src/main/java/com/io7m/jvgm/cmdline/JVGMCommandInterpret.java:182-193 | every changed channel is written |
| Interpret.WrittenOrdered | com.io7m.jvgm.cmdline/src/main/java/com/io7m/jvgm/cmdline/JVGMCommandInterpret.java:180-193 | files are written in increasing channel order |
| Interpret.DumpedFilesDistinct | com.io7m.jvgm.cmdline/src/main/java/com/io7m/jvgm/cmdline/JVGMCommandInterpret.java:189-193 | the files of one dump have distinct names |
| Interpret.ChannelState.constructor | com.io7m.jvgm.cmdline/src/main/java/com/io7m/jvgm/cmdline/JVGMCommandInterpret.java:165-174 | a new record has count 0 and no snapshot |
| Interpret.ChannelState.Dump | com.io7m.jvgm.cmdline/src/main/java/com/io7m/jvgm/cmdline/JVGMCommandInterpret.java:182-193 | a different snapshot is stored with the count incremented and names the file; the same one changes nothing and names none |
| Interpret.Records | com.io7m.jvgm.cmdline/src/main/java/com/io7m/jvgm/cmdline/JVGMCommandInterpret.java:313-316 | the values of the channel records, in channel order |
| Interpret.RecordsUnchanged | com.io7m.jvgm.cmdline/src/main/java/com/io7m/jvgm/cmdline/JVGMCommandInterpret.java:313-316 | untouched record objects keep their values |
| Interpret.NewChannelStates | com.io7m.jvgm.cmdline/src/main/java/com/io7m/jvgm/cmdline/JVGMCommandInterpret.java:313-316 | six distinct fresh records with count 0 and no snapshot |
| Interpret.DumpChannels | com.io7m.jvgm.cmdline/src/main/java/com/io7m/jvgm/cmdline/JVGMCommandInterpret.java:180-209 | the loop leaves every record dumped and returns the files of the changed channels, in order |
| Interpret.DumpChannel | com.io7m.jvgm.cmdline/src/main/java/com/io7m/jvgm/cmdline/JVGMCommandInterpret.java:181-209 | one round of the loop dumps channel index and adds its file, if any |
| Interpret.DumpStep | com.io7m.jvgm.cmdline/src/main/java/com/io7m/jvgm/cmdline/JVGMCommandInterpret.java:180-209 | changing only channel index moves the border between dumped and old records by one |
| Interpret.DumpPreset | com.io7m.jvgm.cmdline/src/main/java/com/io7m/jvgm/cmdline/JVGMCommandInterpret.java:176-210 | the records become the dump of the interpreter's snapshots and the files are the changed channels' |
| Interpret.MutableBoolean.constructor | com.io7m.jvgm.cmdline/src/main/java/com/io7m/jvgm/cmdline/JVGMCommandInterpret.java:312-312 | holds the given flag |
| Interpret.MaybeDumpPreset | com.io7m.jvgm.cmdline/src/main/java/com/io7m/jvgm/cmdline/JVGMCommandInterpret.java:371-383 | dumps exactly when the preset changed and the stored flag was false, then stores the flag |
| Interpret.Dumps | com.io7m.jvgm.cmdline/src/main/java/com/io7m/jvgm/cmdline/JVGMCommandInterpret.java:377-382 | one dump decision per call |
| Interpret.DumpsOnRisingEdges | com.io7m.jvgm.cmdline/src/main/java/com/io7m/jvgm/cmdline/JVGMCommandInterpret.java:377-382 | a call dumps exactly when its flag is set and the flag before it was not |
| Interpret.NoTwoDumpsInARow | com.io7m.jvgm.cmdline/src/main/java/com/io7m/jvgm/cmdline/JVGMCommandInterpret.java:377-382 | two calls in a row never both dump |
| Interpret.FinalChip | com.io7m.jvgm.cmdline/src/main/java/com/io7m/jvgm/cmdline/JVGMCommandInterpret.java:349-366 | the chip after the body has run keeps its shape |
| Interpret.RunBody | com.io7m.jvgm.cmdline/src/main/java/com/io7m/jvgm/cmdline/JVGMCommandInterpret.java:349-366 | the loop leaves the interpreter in the state of the body's commands replayed, and fails exactly when some result was an error |
| Interpret.ParseAndPerform | com.io7m.jvgm.cmdline/src/main/java/com/io7m/jvgm/cmdline/JVGMCommandInterpret.java:350-364 | one round moves one result from the rest of the trace to the done part, replays it, and ends at EOF |
| Interpret.ParseNext | com.io7m.jvgm.cmdline/src/main/java/com/io7m/jvgm/cmdline/JVGMCommandInterpret.java:350-350 | a body parse is one step of the parser's specification and leaves the interpreter alone |
| Interpret.TraceStep | com.io7m.jvgm.parser.vanilla/src/main/java/com/io7m/jvgm/parser/vanilla/VGMParserVanillaBody.java:105-278 | one parse moves a result off the rest of the trace; once finished the parser returns EOF and nothing moves |
| Interpret.Execute | com.io7m.jvgm.cmdline/src/main/java/com/io7m/jvgm/cmdline/JVGMCommandInterpret.java:302-369 | a rejected header fails with no files, a violated header invariant is thrown, an accepted one runs the body and the final dump |
| Interpret.NewInterpreter | com.io7m.jvgm.interpreter.ym2612/src/main/java/com/io7m/jvgm/interpreter/ym2612/VGMYM2612Interpreter.java:290-296 | a new interpreter at power-on made of new objects |
| Interpret.RunFresh | com.io7m.jvgm.cmdline/src/main/java/com/io7m/jvgm/cmdline/JVGMCommandInterpret.java:313-366 | fresh records and interpreter, the body loop and the final dump give the status and files of the body's specification |
| Interpret.ParseHeader | com.io7m.jvgm.cmdline/src/main/java/com/io7m/jvgm/cmdline/JVGMCommandInterpret.java:330-348 | the header parse agrees with the header specification and hands over a new body parser at the data offset |
| Interpret.RunAndDump | com.io7m.jvgm.cmdline/src/main/java/com/io7m/jvgm/cmdline/JVGMCommandInterpret.java:349-366 | the body loop then the dump give the status and files of the body's specification |
| Interpret.ExecuteStatus | com.io7m.jvgm.cmdline/src/main/java/com/io7m/jvgm/cmdline/JVGMCommandInterpret.java:333-365 | rejected header: failure; violated invariant: thrown; accepted: finished, failing exactly when a body command was an error |
| Interpret.BodyWritesSixFiles | com.io7m.jvgm.cmdline/src/main/java/com/io7m/jvgm/cmdline/JVGMCommandInterpret.java:361-364 | the one dump at EOF writes ch00-0001.txt to ch05-0001.txt |
| Interpret.ExecuteWritesSixFiles | com.io7m.jvgm.cmdline/src/main/java/com/io7m/jvgm/cmdline/JVGMCommandInterpret.java:302-369 | no file when the header fails, six otherwise |
| Interpret.FinalChipWellFormed | com.io7m.jvgm.cmdline/src/main/java/com/io7m/jvgm/cmdline/JVGMCommandInterpret.java:349-366 | the final chip is well-formed, so every channel of the dump adapts to a DX7 voice |

## Left out

- Logging, the log messages of every setter and of `execute`, and the `dumpChannel` text format: a dump returns the names of the files it would write, and nothing is written to disk.
- The file system, gzip detection in `openStream`, and the command-line parsing of JVGMCommandRoot and JVGMMain: the input is a byte sequence and a path.
- The instruction callback of `execute`. The constructor `execute` calls takes a callback, but the VGMYM2612Interpreter in this repository has only a no-argument constructor and never calls back. So `maybeDumpPreset` is modelled on its own, with `preset_changed` as its input, and `execute` dumps only once, at EOF.
- The `MutableBoolean` flag created in `execute`: it is only used by that callback.
- The `HashMap`s of channels, operators and channel states are sequences indexed by the key: the keys are exactly 0..5 or 0..3, and every lookup is within them.
- `Objects.requireNonNull` checks: no value in the model can be null.
- The DX7 library types are reduced to the algorithm ID, the name and the presence of the optional part, which is the part of the voice the adapter sets.
- VGMYM2612ChannelSnapshotType declares no feedback field, yet VGMYM2612Channel.java:182 sets one and JVGMCommandInterpret.java:231 reads one. The model's channel snapshot carries it as the channel's feedback.
- VGMParserVanillaHeader.java:240-246 passes five arguments to a body-parser constructor that takes four (VGMParserVanillaBody.java:87-100). The model passes the header, the path and the shared stream.
- The little-endian stream's reads are those of commons-io's SwappedDataInputStream, which is not part of this model: `readUnsignedByte` returns the underlying `read()`, so -1 at the end of the input, while `readInt`, `readUnsignedShort` and `readFully` throw EOFException on a short read.
- FileNames.ZeroPadded: writes ASCII digits; `String.format` uses the zero digit of the default locale, which differs from `0` in some locales.
- Interpret.DumpPreset: takes the six channel snapshots before its loop, not one per iteration. The loop writes only the records, so the snapshots are the same.
- Interpret.Execute: feeds commands through the corrected Interpret.DoCommandMasked and reads them with the corrected BodyParser.BodyParser.ParseCorrected (see Findings). It also parses the header before it creates the channel records and the interpreter, which `execute` creates first. Neither is observable from a failed header, which returns without using them.
- Interpret.CountIsChanges: holds only while the count stays below 2^31 - 1; beyond that `++count` wraps, which the model's Wrap32 does but the lemma does not cover.
- Interpret.DumpedFilesDistinct: assumes at most 100 channels and counts below 9999, where the names are fixed-width. Past 9999 `%04d` grows to five digits, which is not covered.
- The header's GD3 and loop offsets: a raw 0 is stored as a present 0, as the code does, not as absent.
- JVGMCommandDump and JVGMStringConsole, the other command and its console, are not part of this model.
- Concurrency. The parsers and the interpreter are single-threaded objects.

## Findings

| source | as written | input that shows it | evidently intended | confidence | as-written member | corrected member |
|---|---|---|---|---|---|---|
| com.io7m.jvgm.cmdline/src/main/java/com/io7m/jvgm/cmdline/JVGMCommandInterpret.java:104-106 | `doCommand` passes `(byte) (x & 0xff)` to the interpreter. Register values 0x80-0xFF arrive sign-extended (negative), and unmasked fields store them as such | port-0 write of 0x90 to register 0x40: the inverse volume of operator 0 of channel 0 becomes -112, which the dump prints as 4294967184 (Interpret.SignExtendedVolumeInverse) | pass the unsigned byte `x & 0xff`, so the inverse volume is 144 | not executed | Interpret.DoCommand | Interpret.DoCommandMasked |
| com.io7m.jvgm.parser.vanilla/src/main/java/com/io7m/jvgm/parser/vanilla/VGMParserVanillaBody.java:113-119 | the tag is read with `readUnsignedByte`, which gives -1 at the end of the input instead of throwing. -1 is not reserved, and `ofInt(-1)` throws "Unrecognized tag: 0xffffffff", which `parse` returns as an error without finishing. `execute` (JVGMCommandInterpret.java:349-360) sets `failed` and calls `parse` again, which returns the same error forever | a body of the single byte 0x62, with no 0x66: WAIT_735, then the same error on every call (BodyParser.WaitThenPastEnd, BodyParser.StuckPastEnd), so `execute` never returns | read the tag through a -1 check, as `readByte` does (lines 338-339), so running out between commands is EOF like running out inside one | not executed | BodyParser.BodyParser.Parse | BodyParser.BodyParser.ParseCorrected |
