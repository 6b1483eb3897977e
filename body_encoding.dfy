/** The byte layout of each command, as the VGM format lays it out, and
    the proof that the body parser decodes exactly what was laid out. */
module BodyEncoding {
  import opened JavaInt
  import opened ParseError
  import opened Command
  import CT = CommandType
  import BS = ByteStream
  import opened BodyParser

  /** The byte a Java byte is written as. */
  function ByteOf(x: Int8): (b: UInt8)
    ensures ByteCast(b) == x
  {
    x % 0x100
  }

  /** The bytes after the tag; a data block carries `size` bytes of content
      (zeros here). */
  function Payload(c: Command): seq<UInt8> {
    match c
    case GameGearPSGStereoWrite(v) => [ByteOf(v)]
    case PSGWrite(v) => [ByteOf(v)]
    case YM2413Write(reg, v) => [ByteOf(reg), ByteOf(v)]
    case YM2612WritePort0(reg, v) => [ByteOf(reg), ByteOf(v)]
    case YM2612WritePort1(reg, v) => [ByteOf(reg), ByteOf(v)]
    case YM2612SeekPCM(offset) => BS.LittleEndianBytes(offset, 4)
    case WaitLong(duration) => BS.LittleEndianBytes(duration, 2)
    case DataBlock(t, size) =>
      [0x66, ByteOf(t)] + BS.LittleEndianBytes(size, 4) + seq(size, _ => 0)
    case _ => []
  }

  /** The layout of a command: its tag byte, then its payload. */
  function Encode(c: Command): (r: seq<UInt8>)
    requires c != EOF
    ensures |r| >= 1 && r[0] == c.Type().Tag() && r[1..] == Payload(c)
  {
    [c.Type().Tag()] + Payload(c)
  }

  /** A catalogued tag is never a reserved opcode. */
  lemma CataloguedNotReserved(t: CT.Type, version: int)
    requires t != CT.EOF
    ensures ReservedWidth(t.Tag(), version) == 0
  {
  }

  /** Decoding the layout of any command other than EOF, wherever it sits
      in the input, yields that command and moves the cursor exactly past
      it; only END_OF_SOUND_DATA finishes the parser. */
  lemma DecodeEncoded(path: string, data: seq<UInt8>, pos: nat, version: int, c: Command)
    requires c != EOF
    requires pos + |Encode(c)| <= |data| && data[pos..pos + |Encode(c)|] == Encode(c)
    ensures DecodeAt(path, data, pos, version)
            == Step(Valid(c), pos + |Encode(c)|, c == EndOfSoundData)
  {
    if c.YM2612SeekPCM? || c.WaitLong? || c.DataBlock? {
      DecodeEncodedWide(path, data, pos, version, c);
    } else {
      DecodeEncodedNarrow(path, data, pos, version, c);
    }
  }

  /** The commands whose payload holds a little-endian number. */
  lemma DecodeEncodedWide(path: string, data: seq<UInt8>, pos: nat, version: int, c: Command)
    requires c.YM2612SeekPCM? || c.WaitLong? || c.DataBlock?
    requires pos + |Encode(c)| <= |data| && data[pos..pos + |Encode(c)|] == Encode(c)
    ensures DecodeAt(path, data, pos, version) == Step(Valid(c), pos + |Encode(c)|, false)
  {
    var e := Encode(c);
    assert data[pos] == e[0] == c.Type().Tag();
    CataloguedNotReserved(c.Type(), version);
    CT.OfIntRoundTrip(c.Type());
    assert data[pos + 1..pos + |e|] == Payload(c);
    match c
    case YM2612SeekPCM(offset) => DecodeNumber(data, pos + 1, offset, 4);
    case WaitLong(duration) => DecodeNumber(data, pos + 1, duration, 2);
    case DataBlock(t, size) => DecodeDataBlockHeader(data, pos + 1, t, size);
  }

  /** A little-endian number laid out at `p` reads back as itself. */
  lemma DecodeNumber(data: seq<UInt8>, p: nat, x: nat, n: nat)
    requires x < BS.Pow256(n)
    requires p + n <= |data| && data[p..p + n] == BS.LittleEndianBytes(x, n)
    ensures BS.LittleEndian(data[p..p + n]) == x
  {
    BS.LittleEndianRoundTrip(x, n);
  }

  /** The size of a data block sits after its 0x66 and type bytes. */
  lemma DecodeDataBlockHeader(data: seq<UInt8>, p: nat, t: Int8, size: nat)
    requires size < 0x1_0000_0000
    requires p + 6 + size <= |data|
    requires data[p..p + 6 + size] == [0x66, ByteOf(t)] + BS.LittleEndianBytes(size, 4) + seq(size, _ => 0)
    ensures data[p] == 0x66 && data[p + 1] == ByteOf(t)
    ensures BS.LittleEndian(data[p + 2..p + 6]) == size
  {
    var le := BS.LittleEndianBytes(size, 4);
    var head := [0x66, ByteOf(t)];
    SplitSlice(data, p, head + le, seq(size, _ => 0));
    SplitSlice(data, p, head, le);
    assert data[p] == head[0] && data[p + 1] == head[1];
    BS.LittleEndianRoundTrip(size, 4);
  }

  /** The commands with no payload or a payload of one or two bytes. */
  lemma DecodeEncodedNarrow(path: string, data: seq<UInt8>, pos: nat, version: int, c: Command)
    requires c != EOF && !(c.YM2612SeekPCM? || c.WaitLong? || c.DataBlock?)
    requires pos + |Encode(c)| <= |data| && data[pos..pos + |Encode(c)|] == Encode(c)
    ensures DecodeAt(path, data, pos, version)
            == Step(Valid(c), pos + |Encode(c)|, c == EndOfSoundData)
  {
    var e := Encode(c);
    assert data[pos] == e[0] == c.Type().Tag();
    CataloguedNotReserved(c.Type(), version);
    CT.OfIntRoundTrip(c.Type());
    var p := pos + 1;
    var payload := Payload(c);
    assert data[p..pos + |e|] == payload;
    match c
    case YM2413Write(_, _) => assert data[p] == payload[0] && data[p + 1] == payload[1];
    case YM2612WritePort0(_, _) => assert data[p] == payload[0] && data[p + 1] == payload[1];
    case YM2612WritePort1(_, _) => assert data[p] == payload[0] && data[p + 1] == payload[1];
    case GameGearPSGStereoWrite(_) => assert data[p] == payload[0];
    case PSGWrite(_) => assert data[p] == payload[0];
    case _ =>
  }

  /** The successive results of `parse` from `pos` until it finishes. */
  function Trace(path: string, data: seq<UInt8>, pos: nat, version: int): (r: seq<Validation<Command>>)
    requires pos <= |data|
    ensures |r| >= 1
    decreases |data| - pos
  {
    var s := DecodeAt(path, data, pos, version);
    if s.finished then [s.result] else [s.result] + Trace(path, data, s.next, version)
  }

  /** Commands that may appear before the end tag of a stream. */
  predicate Streamable(c: Command) {
    c != EOF && c != EndOfSoundData
  }

  predicate AllStreamable(cs: seq<Command>) {
    forall i :: 0 <= i < |cs| ==> Streamable(cs[i])
  }

  /** The layouts of `cs`, one after the other. */
  function EncodeAll(cs: seq<Command>): seq<UInt8>
    requires AllStreamable(cs)
  {
    if cs == [] then []
    else
      assert Streamable(cs[0]);
      assert AllStreamable(cs[1..]) by {
        forall i | 0 <= i < |cs| - 1 ensures Streamable(cs[1..][i]) {
          assert cs[1..][i] == cs[i + 1];
        }
      }
      Encode(cs[0]) + EncodeAll(cs[1..])
  }

  function Valids(cs: seq<Command>): (r: seq<Validation<Command>>)
    ensures |r| == |cs| && forall i :: 0 <= i < |cs| ==> r[i] == Valid(cs[i])
  {
    if cs == [] then [] else [Valid(cs[0])] + Valids(cs[1..])
  }

  /** A stream laid out as the commands `cs` followed by the end tag parses
      back into exactly `cs` and then END_OF_SOUND_DATA, whatever follows
      the end tag. */
  lemma {:induction false} DecodeEncodedStream(path: string, data: seq<UInt8>, pos: nat, version: int, cs: seq<Command>)
    requires AllStreamable(cs)
    requires pos + |EncodeAll(cs)| < |data|
    requires data[pos..pos + |EncodeAll(cs)| + 1] == EncodeAll(cs) + [0x66]
    ensures Trace(path, data, pos, version) == Valids(cs) + [Valid(EndOfSoundData)]
    decreases |cs|
  {
    if cs == [] {
      assert data[pos..pos + |Encode(EndOfSoundData)|] == Encode(EndOfSoundData);
      DecodeEncoded(path, data, pos, version, EndOfSoundData);
    } else {
      var c, tail := cs[0], cs[1..];
      var next := pos + |Encode(c)|;
      EncodeAllCons(cs);
      SplitStream(data, pos, Encode(c), EncodeAll(tail), next);
      TraceCons(path, data, pos, version, c, next);
      DecodeEncodedStream(path, data, next, version, tail);
      ConsAppend(Valid(c), Valids(tail), Valid(EndOfSoundData));
      ValidsCons(cs);
    }
  }

  /** The bytes `a`, then `b` and the end tag, split after `a`. */
  lemma SplitStream(data: seq<UInt8>, pos: nat, a: seq<UInt8>, b: seq<UInt8>, next: nat)
    requires next == pos + |a| && next + |b| < |data|
    requires data[pos..next + |b| + 1] == a + b + [0x66]
    ensures data[pos..next] == a
    ensures data[next..next + |b| + 1] == b + [0x66]
  {
    assert a + b + [0x66] == a + (b + [0x66]);
    SplitSlice(data, pos, a, b + [0x66]);
  }

  /** Putting `x` in front before or after appending the last element
      gives the same sequence. */
  lemma ConsAppend<T>(x: T, a: seq<T>, e: T)
    ensures [x] + (a + [e]) == ([x] + a) + [e]
  {
  }

  /** The layout of a command other than the end tag puts that command
      in front of the trace from just past it. */
  lemma TraceCons(path: string, data: seq<UInt8>, pos: nat, version: int, c: Command, next: nat)
    requires Streamable(c)
    requires next == pos + |Encode(c)| <= |data| && data[pos..next] == Encode(c)
    ensures Trace(path, data, pos, version) == [Valid(c)] + Trace(path, data, next, version)
  {
    DecodeEncoded(path, data, pos, version, c);
  }

  lemma ValidsCons(cs: seq<Command>)
    requires cs != []
    ensures Valids(cs) == [Valid(cs[0])] + Valids(cs[1..])
  {
  }

  lemma EncodeAllCons(cs: seq<Command>)
    requires AllStreamable(cs) && cs != []
    ensures Streamable(cs[0]) && AllStreamable(cs[1..])
    ensures EncodeAll(cs) == Encode(cs[0]) + EncodeAll(cs[1..])
  {
    assert Streamable(cs[0]);
    forall i | 0 <= i < |cs| - 1 ensures Streamable(cs[1..][i]) {
      assert cs[1..][i] == cs[i + 1];
    }
  }

  lemma SplitSlice(data: seq<UInt8>, pos: nat, a: seq<UInt8>, b: seq<UInt8>)
    requires pos + |a| + |b| <= |data| && data[pos..pos + |a| + |b|] == a + b
    ensures data[pos..pos + |a|] == a
    ensures data[pos + |a|..pos + |a| + |b|] == b
  {
    assert data[pos..pos + |a|] == data[pos..pos + |a| + |b|][..|a|];
    assert data[pos + |a|..pos + |a| + |b|] == data[pos..pos + |a| + |b|][|a|..];
  }

  /** The wait records of one-byte layout consume just their tag: a 0x77
      gives WAIT_SHORT_7, 0x81 gives YM2612_PCM_WRITE_WAIT_1 and 0x63 gives
      WAIT_882, each one byte on; 0x4F consumes one payload byte. */
  lemma OneByteWaits(path: string, data: seq<UInt8>, pos: nat, version: int)
    requires pos < |data|
    ensures data[pos] == 0x77 ==> DecodeAt(path, data, pos, version) == Step(Valid(WaitShort(7)), pos + 1, false)
    ensures data[pos] == 0x81 ==> DecodeAt(path, data, pos, version) == Step(Valid(YM2612PCMWriteWait(1)), pos + 1, false)
    ensures data[pos] == 0x63 ==> DecodeAt(path, data, pos, version) == Step(Valid(Wait882), pos + 1, false)
    ensures data[pos] == 0x4F && pos + 1 < |data| ==>
      DecodeAt(path, data, pos, version) == Step(Valid(GameGearPSGStereoWrite(ByteCast(data[pos + 1]))), pos + 2, false)
  {
    if data[pos] == 0x77 {
      assert data[pos..pos + 1] == Encode(WaitShort(7));
      DecodeEncoded(path, data, pos, version, WaitShort(7));
    } else if data[pos] == 0x81 {
      assert data[pos..pos + 1] == Encode(YM2612PCMWriteWait(1));
      DecodeEncoded(path, data, pos, version, YM2612PCMWriteWait(1));
    } else if data[pos] == 0x63 {
      assert data[pos..pos + 1] == Encode(Wait882);
      DecodeEncoded(path, data, pos, version, Wait882);
    } else if data[pos] == 0x4F && pos + 1 < |data| {
      var c := GameGearPSGStereoWrite(ByteCast(data[pos + 1]));
      assert data[pos..pos + 2] == Encode(c);
      DecodeEncoded(path, data, pos, version, c);
    }
  }
}
