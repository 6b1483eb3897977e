/** The interpret command (JVGMCommandInterpret): the body commands of a
    VGM file are fed to a YM2612 interpreter; at the end the six channel
    snapshots are compared with the ones recorded before, a file name is
    chosen for every channel whose snapshot changed, and the run fails
    when the header was rejected or any body command failed to parse.
    The writing of the files is left out: a dump yields the names of the
    files it would write. */
module Interpret {
  import opened Wrappers
  import opened JavaInt
  import opened ParseError
  import opened Command
  import CT = CommandType
  import opened YM2612Snapshots
  import ST = YM2612State
  import opened YM2612Registers
  import opened YM2612Interpreter
  import opened FileNames
  import HP = HeaderParser
  import BP = BodyParser
  import BE = BodyEncoding

  // ---------------------------------------------------------------------
  // doCommand

  /** `(byte) (x & 0xff)` gives a byte back unchanged. */
  lemma ByteMaskRoundTrip(x: Int8)
    ensures ByteCast(Field(x, 1, 256)) == x
  {
    var u := ToUnsigned(x);
    assert u / 1 == u;
    if x < 0 {
      assert u == (x + 256) + 256 * 0xFF_FFFF;
      ModAddMultiple(x + 256, 256, 0xFF_FFFF);
    }
  }

  /** For a non-negative byte, `x & 0xff` is the byte itself. */
  lemma LowByteOfNonNegative(x: int)
    requires 0 <= x < 256
    ensures Field(x, 1, 256) == x
  {
    assert ToUnsigned(x) / 1 == x;
  }

  /** The low byte of a Java byte: its value modulo 256. */
  lemma LowByteOfByte(x: Int8)
    ensures Field(x, 1, 256) == if x < 0 then x + 256 else x
  {
    ByteMaskRoundTrip(x);
  }

  /** The effect of `doCommand` as written on the chip: a port write
      reaches the interpreter with its register and value sign-extended from
      their bytes; every other command leaves the chip alone. */
  function AsWrittenEffect(s: ST.ChipState, c: Command): (r: ST.ChipState)
    requires s.Shaped()
    ensures r.Shaped()
    ensures !(c.YM2612WritePort0? || c.YM2612WritePort1?) ==> r == s
  {
    match c
    case YM2612WritePort0(register, value) => Write(s, 0, register, value)
    case YM2612WritePort1(register, value) => Write(s, 1, register, value)
    case _ => s
  }

  /** The effect with the bytes read as unsigned values, `x & 0xff` without
      the cast back to `byte`, as the parser demo passes them. */
  function MaskedEffect(s: ST.ChipState, c: Command): (r: ST.ChipState)
    requires s.Shaped()
    ensures r.Shaped()
    ensures !(c.YM2612WritePort0? || c.YM2612WritePort1?) ==> r == s
  {
    match c
    case YM2612WritePort0(register, value) => Write(s, 0, Field(register, 1, 256), Field(value, 1, 256))
    case YM2612WritePort1(register, value) => Write(s, 1, Field(register, 1, 256), Field(value, 1, 256))
    case _ => s
  }

  /** The port write of `register` and `value` to `port`. */
  function PortWrite(port: Port, register: Int8, value: Int8): (c: Command)
    ensures c.YM2612WritePort0? || c.YM2612WritePort1?
  {
    if port == 0 then YM2612WritePort0(register, value) else YM2612WritePort1(register, value)
  }

  /** `doCommand` as written: the result is true exactly for EOF, and
      only port writes reach the interpreter, through `(byte) (x & 0xff)`. */
  method DoCommand(interp: Interpreter, c: Command) returns (eof: bool)
    requires interp.Valid()
    modifies interp.Repr()
    ensures eof <==> c.Type() == CT.EOF
    ensures interp.State() == AsWrittenEffect(old(interp.State()), c)
  {
    match c {
      case YM2612WritePort0(register, value) =>
        ByteMaskRoundTrip(register);
        ByteMaskRoundTrip(value);
        interp.WriteRegisterPort0(ByteCast(Field(register, 1, 256)), ByteCast(Field(value, 1, 256)));
      case YM2612WritePort1(register, value) =>
        ByteMaskRoundTrip(register);
        ByteMaskRoundTrip(value);
        interp.WriteRegisterPort1(ByteCast(Field(register, 1, 256)), ByteCast(Field(value, 1, 256)));
      case _ =>
    }
    eof := c.Type() == CT.EOF;
  }

  /** `doCommand` with the unsigned bytes handed over: the corrected
      version, which the rest of the model uses. */
  method DoCommandMasked(interp: Interpreter, c: Command) returns (eof: bool)
    requires interp.Valid()
    modifies interp.Repr()
    ensures eof <==> c == EOF
    ensures interp.State() == MaskedEffect(old(interp.State()), c)
  {
    match c {
      case YM2612WritePort0(register, value) =>
        interp.WriteRegisterPort0(Field(register, 1, 256), Field(value, 1, 256));
      case YM2612WritePort1(register, value) =>
        interp.WriteRegisterPort1(Field(register, 1, 256), Field(value, 1, 256));
      case _ =>
    }
    TypeIsEOF(c);
    eof := c.Type() == CT.EOF;
  }

  lemma Port0Effects(s: ST.ChipState, register: Int8, value: Int8)
    requires s.Shaped()
    ensures AsWrittenEffect(s, YM2612WritePort0(register, value)) == Write(s, 0, register, value)
    ensures MaskedEffect(s, YM2612WritePort0(register, value))
            == Write(s, 0, Field(register, 1, 256), Field(value, 1, 256))
  {
  }

  lemma Port1Effects(s: ST.ChipState, register: Int8, value: Int8)
    requires s.Shaped()
    ensures AsWrittenEffect(s, YM2612WritePort1(register, value)) == Write(s, 1, register, value)
    ensures MaskedEffect(s, YM2612WritePort1(register, value))
            == Write(s, 1, Field(register, 1, 256), Field(value, 1, 256))
  {
  }

  /** The sign extension of the register is harmless: the switch masks it
      again, so only the value differs between the two versions. */
  lemma RegisterSignIsHarmless(s: ST.ChipState, c: Command)
    requires s.Shaped()
    ensures c.YM2612WritePort0? ==>
      && AsWrittenEffect(s, c) == Write(s, 0, Field(c.register, 1, 256), c.value)
      && MaskedEffect(s, c) == Write(s, 0, c.register, Field(c.value, 1, 256))
    ensures c.YM2612WritePort1? ==>
      && AsWrittenEffect(s, c) == Write(s, 1, Field(c.register, 1, 256), c.value)
      && MaskedEffect(s, c) == Write(s, 1, c.register, Field(c.value, 1, 256))
  {
    match c
    case YM2612WritePort0(register, value) =>
      Port0Effects(s, register, value);
      RegisterLowByteOnly(s, 0, register, value);
      RegisterLowByteOnly(s, 0, register, Field(value, 1, 256));
    case YM2612WritePort1(register, value) =>
      Port1Effects(s, register, value);
      RegisterLowByteOnly(s, 1, register, value);
      RegisterLowByteOnly(s, 1, register, Field(value, 1, 256));
    case _ =>
  }

  /** Bytes 0x00-0x7F reach the chip the same way in both versions. */
  lemma NonNegativeBytesAgree(s: ST.ChipState, c: Command)
    requires s.Shaped()
    requires c.YM2612WritePort0? || c.YM2612WritePort1? ==> c.value >= 0
    ensures AsWrittenEffect(s, c) == MaskedEffect(s, c)
  {
    match c
    case YM2612WritePort0(register, value) =>
      LowByteOfNonNegative(value);
      RegisterLowByteOnly(s, 0, register, value);
    case YM2612WritePort1(register, value) =>
      LowByteOfNonNegative(value);
      RegisterLowByteOnly(s, 1, register, value);
    case _ =>
  }

  /** The register of operator `op` of channel `c` (of three) in the
      inverse-volume block. */
  function VolumeRegister(op: int, c: int): (register: Int8)
    requires 0 <= op < 4 && 0 <= c < 3
    ensures 0x40 <= register < 0x50
  {
    0x40 + 4 * op + c
  }

  lemma VolumeRegisterDecodes(port: Port, op: int, c: int)
    requires 0 <= op < 4 && 0 <= c < 3
    ensures Field(VolumeRegister(op, c), 1, 256) == VolumeRegister(op, c)
    ensures Decode(port, VolumeRegister(op, c)) == OperatorRegister(3 * port + c, op, ST.VolumeInverse)
  {
    LowByteOfNonNegative(VolumeRegister(op, c));
    OperatorRegisterDecodes(port, ST.VolumeInverse, op, c);
  }

  /** As written, an inverse-volume write stores the sign-extended byte:
      bytes 0x80-0xFF leave a negative inverse volume behind. */
  lemma AsWrittenVolume(s: ST.ChipState, port: Port, op: int, c: int, value: Int8)
    requires s.Shaped() && 0 <= op < 4 && 0 <= c < 3
    ensures AsWrittenEffect(s, PortWrite(port, VolumeRegister(op, c), value))
              .channels[3 * port + c].operators[op].volume == value
  {
    VolumeRegisterDecodes(port, op, c);
  }

  /** Masked, the inverse volume is the unsigned byte, 0..255. */
  lemma MaskedVolume(s: ST.ChipState, port: Port, op: int, c: int, value: Int8)
    requires s.Shaped() && 0 <= op < 4 && 0 <= c < 3
    ensures var v := MaskedEffect(s, PortWrite(port, VolumeRegister(op, c), value))
                       .channels[3 * port + c].operators[op].volume;
      && 0 <= v < 256 && v == (if value < 0 then value + 256 else value)
  {
    VolumeRegisterDecodes(port, op, c);
    LowByteOfByte(value);
  }

  /** The byte 0x90 written to the inverse volume of operator 0 of channel
      0: as written the snapshot holds -112, which the dump prints as the
      unsigned 4294967184; masked it holds 144. */
  lemma SignExtendedVolumeInverse()
    ensures var c := YM2612WritePort0(0x40, -112);
      && AsWrittenEffect(ST.InitialChip(), c).Snapshots()[0].operators[0].volumeInverse == -112
      && ToUnsigned(-112) == 4294967184
      && MaskedEffect(ST.InitialChip(), c).Snapshots()[0].operators[0].volumeInverse == 144
  {
    var s := ST.InitialChip();
    AsWrittenVolume(s, 0, 0, 0, -112);
    MaskedVolume(s, 0, 0, 0, -112);
    assert PortWrite(0, VolumeRegister(0, 0), -112) == YM2612WritePort0(0x40, -112);
    assert 0 in OPERATOR_KEYS;
  }

  // ---------------------------------------------------------------------
  // Replaying a command trace

  /** The chip after the valid commands of `results`, in order; error
      results are skipped, as `execute` skips them. */
  function Replay(s: ST.ChipState, results: seq<Validation<Command>>): (r: ST.ChipState)
    requires s.Shaped()
    ensures r.Shaped()
    decreases |results|
  {
    if results == [] then s
    else
      var before := Replay(s, results[..|results| - 1]);
      var last := results[|results| - 1];
      if last.Valid? then MaskedEffect(before, last.value) else before
  }

  /** Some result of the trace is a parse error. */
  predicate HasErrors(results: seq<Validation<Command>>) {
    exists i :: 0 <= i < |results| && results[i].Invalid?
  }

  lemma ReplayAppend(s: ST.ChipState, results: seq<Validation<Command>>, result: Validation<Command>)
    requires s.Shaped()
    ensures Replay(s, results + [result])
            == if result.Valid? then MaskedEffect(Replay(s, results), result.value) else Replay(s, results)
    ensures HasErrors(results + [result]) <==> HasErrors(results) || result.Invalid?
  {
    var t := results + [result];
    assert t[..|t| - 1] == results;
    if HasErrors(t) && !result.Invalid? {
      var i :| 0 <= i < |t| && t[i].Invalid?;
      assert results[i].Invalid?;
    }
    if HasErrors(results) {
      var i :| 0 <= i < |results| && results[i].Invalid?;
      assert t[i].Invalid?;
    }
    if result.Invalid? {
      assert t[|results|].Invalid?;
    }
  }

  /** Replaying a trace in two parts is replaying it whole. */
  lemma {:induction false} ReplayConcat(s: ST.ChipState, a: seq<Validation<Command>>, b: seq<Validation<Command>>)
    requires s.Shaped()
    ensures Replay(s, a + b) == Replay(Replay(s, a), b)
    decreases |b|
  {
    if b == [] {
      assert a + b == a;
    } else {
      var init, last := b[..|b| - 1], b[|b| - 1];
      assert a + b == (a + init) + [last];
      assert b == init + [last];
      ReplayAppend(s, a + init, last);
      ReplayAppend(Replay(s, a), init, last);
      ReplayConcat(s, a, init);
    }
  }

  /** A well-formed chip stays well formed through any trace. */
  lemma {:induction false} ReplayKeepsWellFormed(s: ST.ChipState, results: seq<Validation<Command>>)
    requires s.WellFormed()
    ensures s.Shaped() && Replay(s, results).WellFormed()
    decreases |results|
  {
    ST.WellFormedShaped(s);
    if results != [] {
      var init, last := results[..|results| - 1], results[|results| - 1];
      ReplayKeepsWellFormed(s, init);
      if last.Valid? {
        MaskedEffectKeepsWellFormed(Replay(s, init), last.value);
      }
    }
  }

  lemma MaskedEffectKeepsWellFormed(s: ST.ChipState, c: Command)
    requires s.WellFormed()
    ensures s.Shaped() && MaskedEffect(s, c).WellFormed()
  {
    ST.WellFormedShaped(s);
    match c
    case YM2612WritePort0(register, value) =>
      WriteKeepsWellFormed(s, 0, Field(register, 1, 256), Field(value, 1, 256));
    case YM2612WritePort1(register, value) =>
      WriteKeepsWellFormed(s, 1, Field(register, 1, 256), Field(value, 1, 256));
    case _ =>
  }

  // ---------------------------------------------------------------------
  // The channel records and dumpPreset

  /** What `execute` records per channel: the number of snapshots taken
      and the last one (null, here None, before the first). */
  datatype Record = Record(count: Int32, snapshot: Option<ChannelSnapshot>)

  /** A fresh `ChannelState`. */
  const NO_RECORD: Record := Record(0, None)

  /** One channel of `dumpPreset`: a snapshot different from the recorded
      one replaces it, and the count (a Java `int`) goes up by one. */
  function Recorded(r: Record, current: ChannelSnapshot): (n: Record)
    ensures n.snapshot == Some(current)
  {
    if r.snapshot == Some(current) then r else Record(Wrap32(r.count + 1), Some(current))
  }

  /** Recording the same snapshot twice records it once. */
  lemma RecordedIdempotent(r: Record, current: ChannelSnapshot)
    ensures Recorded(Recorded(r, current), current) == Recorded(r, current)
    ensures Recorded(r, current) == r <==> r.snapshot == Some(current)
  {
  }

  /** How many snapshots of a run differ from the one before, the first
      compared with `previous`. */
  function Changes(previous: Option<ChannelSnapshot>, run: seq<ChannelSnapshot>): (n: nat)
    ensures n <= |run|
    decreases |run|
  {
    if run == [] then 0
    else (if previous == Some(run[0]) then 0 else 1) + Changes(Some(run[0]), run[1..])
  }

  /** The record after a run of dumps of one channel. */
  function RecordedRun(r: Record, run: seq<ChannelSnapshot>): (n: Record)
    decreases |run|
  {
    if run == [] then r else RecordedRun(Recorded(r, run[0]), run[1..])
  }

  /** Over a run of dumps, the count goes up once per change of snapshot,
      and the record holds the last snapshot, as long as the count does
      not reach the end of the `int` range. */
  lemma {:induction false} CountIsChanges(r: Record, run: seq<ChannelSnapshot>)
    requires 0 <= r.count && r.count + |run| < 0x8000_0000
    ensures RecordedRun(r, run).count == r.count + Changes(r.snapshot, run)
    ensures RecordedRun(r, run).snapshot == if run == [] then r.snapshot else Some(run[|run| - 1])
    decreases |run|
  {
    if run != [] {
      var next := Recorded(r, run[0]);
      assert 0 <= next.count <= r.count + 1;
      CountIsChanges(next, run[1..]);
      if |run| > 1 {
        assert run[1..][|run[1..]| - 1] == run[|run| - 1];
      }
    }
  }

  /** The records after a dump of every channel, with `snapshots` the
      channels' snapshots at that moment. */
  function Dumped(records: seq<Record>, snapshots: seq<ChannelSnapshot>): (r: seq<Record>)
    requires |records| == |snapshots|
    ensures |r| == |records|
    ensures forall i :: 0 <= i < |r| ==> r[i] == Recorded(records[i], snapshots[i])
  {
    seq(|records|, i requires 0 <= i < |records| => Recorded(records[i], snapshots[i]))
  }

  /** The snapshots a dump writes for the channels below `n`, in channel
      order: one per changed channel, as the channel and its new count. */
  function Written(records: seq<Record>, snapshots: seq<ChannelSnapshot>, n: nat): (w: seq<(int, Int32)>)
    requires |records| == |snapshots| && n <= |records|
    ensures |w| <= n
  {
    if n == 0 then []
    else
      var i := n - 1;
      Written(records, snapshots, i)
      + (if records[i].snapshot == Some(snapshots[i]) then [] else [(i, Wrap32(records[i].count + 1))])
  }

  /** The names of the files for a list of (channel, count) pairs. */
  function Names(w: seq<(int, Int32)>): (files: seq<string>)
    ensures |files| == |w| && forall k :: 0 <= k < |w| ==> files[k] == FileName(w[k].0, w[k].1)
  {
    seq(|w|, k requires 0 <= k < |w| => FileName(w[k].0, w[k].1))
  }

  /** The files a dump writes for the channels below `n`. */
  function DumpedFiles(records: seq<Record>, snapshots: seq<ChannelSnapshot>, n: nat): (files: seq<string>)
    requires |records| == |snapshots| && n <= |records|
  {
    Names(Written(records, snapshots, n))
  }

  /** One more channel adds its file when its snapshot changed. */
  lemma DumpedFilesStep(records: seq<Record>, snapshots: seq<ChannelSnapshot>, i: nat)
    requires |records| == |snapshots| && i < |records|
    ensures DumpedFiles(records, snapshots, i + 1)
            == DumpedFiles(records, snapshots, i)
               + (if records[i].snapshot == Some(snapshots[i]) then []
                  else [FileName(i, Wrap32(records[i].count + 1))])
  {
    var w, w' := Written(records, snapshots, i), Written(records, snapshots, i + 1);
    if records[i].snapshot != Some(snapshots[i]) {
      assert w' == w + [(i, Wrap32(records[i].count + 1))];
      var want := Names(w) + [FileName(i, Wrap32(records[i].count + 1))];
      forall k | 0 <= k < |w'| ensures Names(w')[k] == want[k] {
        if k < |w| {
          assert w'[k] == w[k];
        }
      }
    } else {
      assert w' == w;
    }
  }

  /** The channel records before the first dump. */
  function InitialRecords(): (r: seq<Record>)
    ensures |r| == 6 && forall i :: 0 <= i < 6 ==> r[i] == NO_RECORD
  {
    [NO_RECORD, NO_RECORD, NO_RECORD, NO_RECORD, NO_RECORD, NO_RECORD]
  }

  /** The first dump records every channel with count 1 and writes the
      six files chNN-0001.txt, in channel order. */
  lemma FirstDump(snapshots: seq<ChannelSnapshot>)
    requires |snapshots| == 6
    ensures forall i :: 0 <= i < 6 ==> Dumped(InitialRecords(), snapshots)[i] == Record(1, Some(snapshots[i]))
    ensures var files := DumpedFiles(InitialRecords(), snapshots, 6);
      |files| == 6 && forall i :: 0 <= i < 6 ==> files[i] == FileName(i, 1)
  {
    FirstWritten(snapshots, 6);
  }

  /** Before any record, every channel below `n` is written with count 1. */
  lemma {:induction false} FirstWritten(snapshots: seq<ChannelSnapshot>, n: nat)
    requires |snapshots| == 6 && n <= 6
    ensures Written(InitialRecords(), snapshots, n) == seq(n, i => (i, 1))
    decreases n
  {
    if n > 0 {
      FirstWritten(snapshots, n - 1);
      assert InitialRecords()[n - 1] == NO_RECORD && Wrap32(NO_RECORD.count + 1) == 1;
    }
  }

  /** A second dump with nothing changed records nothing and writes no file. */
  lemma {:induction false} DumpAgain(records: seq<Record>, snapshots: seq<ChannelSnapshot>, n: nat)
    requires |records| == |snapshots| && n <= |records|
    ensures Dumped(Dumped(records, snapshots), snapshots) == Dumped(records, snapshots)
    ensures Written(Dumped(records, snapshots), snapshots, n) == []
    ensures DumpedFiles(Dumped(records, snapshots), snapshots, n) == []
    decreases n
  {
    if n > 0 {
      DumpAgain(records, snapshots, n - 1);
    }
  }

  /** Every channel a dump writes is below `n` and changed, and is written
      with its new count. */
  lemma {:induction false} WrittenChannels(records: seq<Record>, snapshots: seq<ChannelSnapshot>, n: nat)
    requires |records| == |snapshots| && n <= |records|
    ensures forall k :: 0 <= k < |Written(records, snapshots, n)| ==>
      var c := Written(records, snapshots, n)[k].0;
      && 0 <= c < n && records[c].snapshot != Some(snapshots[c])
      && Written(records, snapshots, n)[k].1 == Wrap32(records[c].count + 1)
    decreases n
  {
    if n > 0 {
      var i := n - 1;
      WrittenChannels(records, snapshots, i);
      var w, w' := Written(records, snapshots, i), Written(records, snapshots, n);
      if records[i].snapshot != Some(snapshots[i]) {
        assert w' == w + [(i, Wrap32(records[i].count + 1))];
        forall k | 0 <= k < |w'|
          ensures && 0 <= w'[k].0 < n && records[w'[k].0].snapshot != Some(snapshots[w'[k].0])
                  && w'[k].1 == Wrap32(records[w'[k].0].count + 1)
        {
          if k < |w| {
            assert w'[k] == w[k];
          }
        }
      } else {
        assert w' == w;
      }
    }
  }

  /** The channels of a list of (channel, count) pairs. */
  function Channels(w: seq<(int, Int32)>): set<int> {
    set k | 0 <= k < |w| :: w[k].0
  }

  /** Every changed channel below `n` is written. */
  lemma {:induction false} WrittenComplete(records: seq<Record>, snapshots: seq<ChannelSnapshot>, n: nat)
    requires |records| == |snapshots| && n <= |records|
    ensures forall c :: 0 <= c < n && records[c].snapshot != Some(snapshots[c]) ==>
      c in Channels(Written(records, snapshots, n))
    decreases n
  {
    if n > 0 {
      var i := n - 1;
      WrittenComplete(records, snapshots, i);
      var w, w' := Written(records, snapshots, i), Written(records, snapshots, n);
      assert w' == w + (if records[i].snapshot == Some(snapshots[i]) then [] else [(i, Wrap32(records[i].count + 1))]);
      forall c | 0 <= c < n && records[c].snapshot != Some(snapshots[c]) ensures c in Channels(w') {
        var k := |w|;
        if c != i {
          k :| 0 <= k < |w| && w[k].0 == c;
        }
        assert w'[k].0 == c;
      }
    }
  }

  /** A dump writes the channels in increasing order. */
  lemma {:induction false} WrittenOrdered(records: seq<Record>, snapshots: seq<ChannelSnapshot>, n: nat)
    requires |records| == |snapshots| && n <= |records|
    ensures forall a, b :: 0 <= a < b < |Written(records, snapshots, n)| ==>
      Written(records, snapshots, n)[a].0 < Written(records, snapshots, n)[b].0
    decreases n
  {
    if n > 0 {
      var i := n - 1;
      WrittenOrdered(records, snapshots, i);
      WrittenChannels(records, snapshots, i);
      var w, w' := Written(records, snapshots, i), Written(records, snapshots, n);
      if records[i].snapshot != Some(snapshots[i]) {
        assert w' == w + [(i, Wrap32(records[i].count + 1))];
        forall a, b | 0 <= a < b < |w'| ensures w'[a].0 < w'[b].0 {
          assert w'[a] == w[a];
          if b < |w| {
            assert w'[b] == w[b];
          }
        }
      } else {
        assert w' == w;
      }
    }
  }

  /** A dump never writes the same file twice, as long as there are at most
      100 channels (two digits) and the counts stay below 9999 (four digits). */
  lemma DumpedFilesDistinct(records: seq<Record>, snapshots: seq<ChannelSnapshot>, n: nat)
    requires |records| == |snapshots| && n <= |records| <= 100
    requires forall i :: 0 <= i < |records| ==> 0 <= records[i].count < 9999
    ensures forall a, b :: 0 <= a < b < |DumpedFiles(records, snapshots, n)| ==>
      DumpedFiles(records, snapshots, n)[a] != DumpedFiles(records, snapshots, n)[b]
  {
    var w := Written(records, snapshots, n);
    WrittenChannels(records, snapshots, n);
    WrittenOrdered(records, snapshots, n);
    forall a, b | 0 <= a < b < |w| ensures Names(w)[a] != Names(w)[b] {
      var i, c, j, d := w[a].0, w[a].1, w[b].0, w[b].1;
      assert 0 <= i < |records| && c == Wrap32(records[i].count + 1) && 0 <= c < 10000;
      assert 0 <= j < |records| && d == Wrap32(records[j].count + 1) && 0 <= d < 10000;
      if Names(w)[a] == Names(w)[b] {
        FileNameInjective(i, c, j, d);
      }
    }
  }

  /** `ChannelState`: the mutable record of one channel. */
  class ChannelState {
    var count: Int32
    var snapshot: Option<ChannelSnapshot>

    constructor ()
      ensures Value() == NO_RECORD
    {
      count := 0;
      snapshot := None;
    }

    function Value(): Record
      reads this
    {
      Record(count, snapshot)
    }

    /** The body of the `dumpPreset` loop for this channel: a different
        snapshot replaces the stored one and the count goes up by one; the
        name of the file to write is returned, if any. */
    method Dump(index: int, current: ChannelSnapshot) returns (file: Option<string>)
      modifies this
      ensures Value() == Recorded(old(Value()), current)
      ensures file == if old(snapshot) == Some(current) then None
                      else Some(FileName(index, Wrap32(old(count) + 1)))
    {
      file := None;
      if Some(current) != snapshot {
        snapshot := Some(current);
        count := Wrap32(count + 1);
        file := Some(FileName(index, count));
      }
    }
  }

  /** Distinct objects. */
  predicate Distinct(states: seq<ChannelState>) {
    forall i, j :: 0 <= i < j < |states| ==> states[i] != states[j]
  }

  /** The records of a sequence of channel states. */
  function Records(states: seq<ChannelState>): (r: seq<Record>)
    reads states
    ensures |r| == |states| && forall i :: 0 <= i < |r| ==> r[i] == states[i].Value()
  {
    seq(|states|, i requires 0 <= i < |states| reads states => states[i].Value())
  }

  /** Records of channel states that did not change. */
  twostate lemma RecordsUnchanged(states: seq<ChannelState>)
    requires forall i :: 0 <= i < |states| ==> unchanged(states[i])
    ensures Records(states) == old(Records(states))
  {
  }

  /** The loop of `execute` that puts a new state for each channel 0..5
      into the map (here a sequence indexed by channel). */
  method NewChannelStates() returns (states: seq<ChannelState>)
    ensures |states| == 6 && Distinct(states)
    ensures forall i :: 0 <= i < 6 ==> fresh(states[i])
    ensures Records(states) == InitialRecords()
  {
    states := [];
    var index := 0;
    while index < 6
      invariant 0 <= index <= 6 && |states| == index && Distinct(states)
      invariant forall i :: 0 <= i < index ==> fresh(states[i]) && states[i].Value() == NO_RECORD
    {
      var state := new ChannelState();
      states := states + [state];
      index := index + 1;
    }
  }

  /** The loop of `dumpPreset` over the channels 0..5, with `snapshots`
      the channels' current snapshots. */
  method DumpChannels(states: seq<ChannelState>, snapshots: seq<ChannelSnapshot>) returns (files: seq<string>)
    requires |states| == 6 && Distinct(states) && |snapshots| == 6
    modifies states
    ensures Records(states) == Dumped(old(Records(states)), snapshots)
    ensures files == DumpedFiles(old(Records(states)), snapshots, 6)
  {
    ghost var before := Records(states);
    files := [];
    var index := 0;
    while index < 6
      invariant 0 <= index <= 6
      invariant Records(states) == Dumped(before, snapshots)[..index] + before[index..]
      invariant files == DumpedFiles(before, snapshots, index)
    {
      files := DumpChannel(states, snapshots, before, index, files);
      index := index + 1;
    }
  }

  /** The body of the loop for channel `index`: the channels below it are
      dumped, and the dump of `index` moves the border by one. */
  method DumpChannel(states: seq<ChannelState>, snapshots: seq<ChannelSnapshot>, ghost before: seq<Record>,
                     index: nat, files: seq<string>) returns (files': seq<string>)
    requires |states| == 6 && Distinct(states) && |snapshots| == 6 && |before| == 6 && index < 6
    requires Records(states) == Dumped(before, snapshots)[..index] + before[index..]
    requires files == DumpedFiles(before, snapshots, index)
    modifies states[index]
    ensures Records(states) == Dumped(before, snapshots)[..index + 1] + before[index + 1..]
    ensures files' == DumpedFiles(before, snapshots, index + 1)
  {
    ghost var pre := Records(states);
    var file := states[index].Dump(index, snapshots[index]);
    ghost var post := Records(states);
    forall i | 0 <= i < 6 && i != index ensures post[i] == pre[i] {
      assert states[i] != states[index];
    }
    DumpStep(pre, post, before, Dumped(before, snapshots), index);
    DumpedFilesStep(before, snapshots, index);
    files' := files;
    if file.Some? {
      files' := files + [file.value];
    }
  }

  /** One channel of the loop: the records so far are the dumped ones
      below `index` and the old ones from it, and a dump of `index` alone
      moves the border by one. */
  lemma DumpStep(pre: seq<Record>, post: seq<Record>, before: seq<Record>, after: seq<Record>, index: nat)
    requires |before| == |after| == |pre| == |post| && index < |pre|
    requires pre == after[..index] + before[index..]
    requires post[index] == after[index]
    requires forall i :: 0 <= i < |pre| && i != index ==> post[i] == pre[i]
    ensures post == after[..index + 1] + before[index + 1..]
  {
    var want := after[..index + 1] + before[index + 1..];
    forall i | 0 <= i < |post| ensures post[i] == want[i] {
      if i < index {
        assert pre[i] == after[i];
      } else if i > index {
        assert pre[i] == before[i];
      }
    }
  }

  /** `dumpPreset`: each channel 0..5 whose current snapshot differs from
      the recorded one gets the new snapshot and count, and a file.  The
      six snapshots are taken before the loop, which changes only the
      records and so leaves them as they are. */
  method DumpPreset(states: seq<ChannelState>, interp: Interpreter) returns (files: seq<string>)
    requires |states| == 6 && Distinct(states) && interp.Valid()
    modifies states
    ensures Records(states) == Dumped(old(Records(states)), old(interp.State()).Snapshots())
    ensures files == DumpedFiles(old(Records(states)), old(interp.State()).Snapshots(), 6)
  {
    var snapshots := interp.ChannelSnapshots();
    files := DumpChannels(states, snapshots);
  }

  // ---------------------------------------------------------------------
  // maybeDumpPreset

  /** The `MutableBoolean` holding the last `preset_changed` flag. */
  class MutableBoolean {
    var value: bool

    constructor (value: bool)
      ensures this.value == value
    {
      this.value := value;
    }
  }

  /** `maybeDumpPreset`: a dump when the preset changed and had not
      changed at the call before; the flag is then stored. */
  method MaybeDumpPreset(states: seq<ChannelState>, changed: MutableBoolean, interp: Interpreter, presetChanged: bool)
    returns (files: seq<string>)
    requires |states| == 6 && Distinct(states) && interp.Valid()
    modifies states, changed
    ensures changed.value == presetChanged
    ensures var dumped := Dumps(old(changed.value), [presetChanged])[0];
      && Records(states) == (if dumped then Dumped(old(Records(states)), old(interp.State()).Snapshots())
                             else old(Records(states)))
      && files == (if dumped then DumpedFiles(old(Records(states)), old(interp.State()).Snapshots(), 6) else [])
  {
    files := [];
    if presetChanged {
      if !changed.value {
        files := DumpPreset(states, interp);
      }
    }
    label Stored:
    changed.value := presetChanged;
    RecordsUnchanged@Stored(states);
  }

  /** Which of a run of `maybeDumpPreset` calls dump, given the stored
      flag before the first. */
  function Dumps(flag: bool, presetChanged: seq<bool>): (r: seq<bool>)
    ensures |r| == |presetChanged|
    decreases |presetChanged|
  {
    if presetChanged == [] then []
    else [presetChanged[0] && !flag] + Dumps(presetChanged[0], presetChanged[1..])
  }

  /** A call dumps exactly on a rising edge of the flag. */
  lemma {:induction false} DumpsOnRisingEdges(flag: bool, presetChanged: seq<bool>)
    ensures forall i {:trigger Dumps(flag, presetChanged)[i]} :: 0 <= i < |presetChanged| ==>
      (Dumps(flag, presetChanged)[i]
       <==> presetChanged[i] && !(if i == 0 then flag else presetChanged[i - 1]))
    decreases |presetChanged|
  {
    if presetChanged != [] {
      var tail := presetChanged[1..];
      var r, rest := Dumps(flag, presetChanged), Dumps(presetChanged[0], tail);
      DumpsOnRisingEdges(presetChanged[0], tail);
      assert r == [presetChanged[0] && !flag] + rest;
      forall i | 0 <= i < |presetChanged|
        ensures r[i] <==> presetChanged[i] && !(if i == 0 then flag else presetChanged[i - 1])
      {
        if i > 0 {
          assert r[i] == rest[i - 1] && tail[i - 1] == presetChanged[i];
          if i > 1 {
            assert tail[i - 2] == presetChanged[i - 1];
          }
        }
      }
    }
  }

  /** Two calls in a row never both dump. */
  lemma NoTwoDumpsInARow(flag: bool, presetChanged: seq<bool>, i: nat)
    requires i + 1 < |presetChanged|
    ensures !(Dumps(flag, presetChanged)[i] && Dumps(flag, presetChanged)[i + 1])
  {
    DumpsOnRisingEdges(flag, presetChanged);
    var r := Dumps(flag, presetChanged);
    var j := i + 1;
    assert r[i] ==> presetChanged[i];
    assert r[j] ==> !presetChanged[i];
  }

  // ---------------------------------------------------------------------
  // execute

  /** The command's exit status. */
  datatype Status = Success | Failure

  /** `execute()`: it returns a status, or the header parser throws. */
  datatype Outcome = Finished(status: Status) | Threw(thrown: HP.Thrown)

  /** What `execute` does with an input: a rejected header fails at once, a
      violated header invariant is thrown; otherwise the body is run from
      the header's data offset. */
  function ExecuteSpec(path: string, input: seq<UInt8>): (r: (Outcome, seq<string>))
  {
    match HP.Spec(path, input)
    case Rejected(_) => (Finished(Failure), [])
    case Violated(p, x) => (Threw(HP.InvariantViolation(p, x)), [])
    case Accepted(h) =>
      HP.EndCountBounds(path, input);
      var (status, files) := BodySpec(path, input, h.dataOffset, h.version);
      (Finished(status), files)
  }

  /** The commands of the body from `pos` to its end. */
  function BodyTrace(path: string, data: seq<UInt8>, pos: nat, version: int): seq<Validation<Command>>
    requires pos <= |data|
  {
    BE.Trace(path, data, pos, version)
  }

  /** The chip after the body from `pos` has run on a fresh interpreter. */
  function FinalChip(path: string, data: seq<UInt8>, pos: nat, version: int): (chip: ST.ChipState)
    requires pos <= |data|
    ensures chip.Shaped()
  {
    ST.InitialChipWellFormed();
    ST.WellFormedShaped(ST.InitialChip());
    Replay(ST.InitialChip(), BodyTrace(path, data, pos, version))
  }

  /** The run of the body from `pos`: every command up to the end is fed to
      a fresh interpreter, the final dump writes its files, and the run
      fails exactly when some body command was an error. */
  function BodySpec(path: string, data: seq<UInt8>, pos: nat, version: int): (r: (Status, seq<string>))
    requires pos <= |data|
  {
    (if HasErrors(BodyTrace(path, data, pos, version)) then Failure else Success,
     DumpedFiles(InitialRecords(), FinalChip(path, data, pos, version).Snapshots(), 6))
  }

  /** The parse loop of `execute`: a body error sets `failed` and the loop
      goes on; a command is handed to the interpreter, and the loop ends at
      EOF.  The interpreter ends in the state the trace from the current
      position leads to. */
  method RunBody(body: BP.BodyParser, interp: Interpreter) returns (failed: bool)
    requires body.stream.Valid() && !body.finished && interp.Valid()
    modifies body, body.stream, interp.Repr()
    ensures var trace := BodyTrace(body.path, body.stream.data, old(body.stream.count), body.header.version);
      && interp.State() == Replay(old(interp.State()), trace)
      && (failed <==> HasErrors(trace))
  {
    ghost var all := BE.Trace(body.path, body.stream.data, body.stream.count, body.header.version);
    ghost var start := interp.State();
    ghost var done: seq<Validation<Command>> := [];
    failed := false;
    while true
      invariant body.stream.Valid() && interp.Valid()
      invariant Remaining(body.path, body.stream.data, body.header.version, body.stream.count, body.finished, all, done)
      invariant interp.State() == Replay(start, done)
      invariant failed <==> HasErrors(done)
      decreases if body.finished then 0 else 1 + |body.stream.data| - body.stream.count
    {
      var result, eof;
      result, eof, done := ParseAndPerform(body, interp, start, all, done);
      if result.Invalid? {
        failed := true;
        continue;
      }
      if eof {
        return;
      }
    }
  }

  /** One round of the loop: `parse()`, and `doCommand` on a command; the
      result moves from the rest of the trace to `done`, unless the parser
      had already finished, and EOF ends the trace. */
  method ParseAndPerform(body: BP.BodyParser, interp: Interpreter, ghost start: ST.ChipState,
                         ghost all: seq<Validation<Command>>, ghost done: seq<Validation<Command>>)
    returns (result: Validation<Command>, eof: bool, ghost done': seq<Validation<Command>>)
    requires body.stream.Valid() && interp.Valid() && start.Shaped()
    requires Remaining(body.path, body.stream.data, body.header.version, body.stream.count, body.finished, all, done)
    requires interp.State() == Replay(start, done)
    modifies body, body.stream, interp.Repr()
    ensures body.stream.Valid()
    ensures Remaining(body.path, body.stream.data, body.header.version, body.stream.count, body.finished, all, done')
    ensures interp.State() == Replay(start, done')
    ensures HasErrors(done') <==> HasErrors(done) || result.Invalid?
    ensures eof ==> result.Valid? && all == done'
    ensures old(body.finished) ==> body.finished && result == Valid(EOF) && eof
    ensures !body.finished ==> old(body.stream.count) < body.stream.count
  {
    ghost var pos, finished := body.stream.count, body.finished;
    result := ParseNext(body, interp);
    TraceStep(body.path, body.stream.data, body.header.version, pos, finished, all, done, result,
              body.stream.count, body.finished);
    done' := done;
    if !finished {
      ReplayAppend(start, done, result);
      done' := done + [result];
    }
    eof := false;
    if result.Valid? {
      eof := DoCommandMasked(interp, result.value);
    }
  }

  /** What is left of the trace `all` after the results `done`: the rest
      of the trace from `pos`, or nothing once the parser has finished. */
  ghost predicate Remaining(path: string, data: seq<UInt8>, version: int, pos: nat, finished: bool,
                            all: seq<Validation<Command>>, done: seq<Validation<Command>>)
  {
    pos <= |data| && all == done + (if finished then [] else BE.Trace(path, data, pos, version))
  }

  /** `parse()` on the body parser, corrected (see BodyParser.ParseCorrected),
      which leaves the interpreter alone. */
  method ParseNext(body: BP.BodyParser, interp: Interpreter) returns (result: Validation<Command>)
    requires body.stream.Valid() && interp.Valid()
    modifies body, body.stream
    ensures body.stream.Valid()
    ensures BP.Step(result, body.stream.count, body.finished)
            == BP.ParseStep(body.path, body.stream.data, old(body.stream.count), body.header.version, old(body.finished))
    ensures interp.State() == old(interp.State())
  {
    result := body.ParseCorrected();
  }

  /** One parse moves a result from the rest of the trace to `done`; once
      the parser has finished it returns EOF and nothing moves. */
  lemma TraceStep(path: string, data: seq<UInt8>, version: int, pos: nat, finished: bool,
                  all: seq<Validation<Command>>, done: seq<Validation<Command>>,
                  result: Validation<Command>, next: nat, finished': bool)
    requires Remaining(path, data, version, pos, finished, all, done)
    requires BP.Step(result, next, finished') == BP.ParseStep(path, data, pos, version, finished)
    ensures next <= |data| && (finished ==> result == Valid(EOF) && finished')
    ensures !finished ==> Remaining(path, data, version, next, finished', all, done + [result])
    ensures !finished ==> (finished' <==> result == Valid(EOF) || result == Valid(EndOfSoundData))
    ensures !finished' ==> next > pos
  {
    if !finished {
      BP.FinishedExactlyOnEnd(path, data, pos, version);
      var s := BP.DecodeAt(path, data, pos, version);
      assert BE.Trace(path, data, pos, version)
             == [s.result] + (if s.finished then [] else BE.Trace(path, data, s.next, version));
    }
  }

  /** `execute()`: the header parse; on an accepted header the channel
      records and the interpreter, then the body loop and the final dump. */
  method Execute(path: string, input: seq<UInt8>) returns (r: Outcome, files: seq<string>)
    ensures (r, files) == ExecuteSpec(path, input)
  {
    var result := ParseHeader(path, input);
    if result.Threw? {
      return Threw(result.thrown), [];
    }
    if result.result.Invalid? {
      return Finished(Failure), [];
    }
    var body := result.result.value.0;
    var status;
    status, files := RunFresh(body);
    r := Finished(status);
  }

  /** A new interpreter, at power-on, made of new objects only. */
  method NewInterpreter() returns (interp: Interpreter)
    ensures interp.Valid() && interp.State() == ST.InitialChip() && fresh(interp.Repr())
  {
    interp := new Interpreter();
    Interpreter.FreshObjects(interp);
  }

  /** Six distinct channel records and a valid interpreter that does not
      own any of them, as `execute()` creates them. */
  ghost predicate Ready(states: seq<ChannelState>, interp: Interpreter) {
    && interp.Valid() && |states| == 6 && Distinct(states)
    && forall i :: 0 <= i < 6 ==> states[i] !in interp.Repr()
  }

  /** The new channel records and interpreter of `execute()`, then the
      body loop and the final dump. */
  method RunFresh(body: BP.BodyParser) returns (status: Status, files: seq<string>)
    requires body.stream.Valid() && !body.finished
    modifies body, body.stream
    ensures (status, files) == BodySpec(body.path, body.stream.data, old(body.stream.count), body.header.version)
  {
    var states := NewChannelStates();
    var interp := NewInterpreter();
    status, files := RunAndDump(body, interp, states);
  }

  /** The header parse of `execute()` on a new parser over the input: an
      accepted header hands over a new body parser positioned at the
      header's data offset. */
  method ParseHeader(path: string, input: seq<UInt8>) returns (result: HP.Outcome)
    ensures result.Threw? ==>
      result.thrown.InvariantViolation?
      && HP.Spec(path, input) == HP.Violated(result.thrown.position, result.thrown.expected)
    ensures result.Returned? && result.result.Invalid? ==> HP.Spec(path, input).Rejected?
    ensures result.Returned? && result.result.Valid? ==>
      var body := result.result.value.0;
      && HP.Spec(path, input) == HP.Accepted(body.header)
      && fresh(body) && fresh(body.stream) && body.stream.Valid() && !body.finished
      && body.path == path && body.stream.data == input && body.stream.count == body.header.dataOffset
  {
    var parser := new HP.HeaderParser(path, input);
    result := parser.Parse();
  }

  /** The part of `execute()` after an accepted header: the parse loop on a
      fresh interpreter, then `dumpPreset` on the fresh channel records. */
  method RunAndDump(body: BP.BodyParser, interp: Interpreter, states: seq<ChannelState>)
    returns (status: Status, files: seq<string>)
    requires body.stream.Valid() && !body.finished
    requires Ready(states, interp)
    requires interp.State() == ST.InitialChip() && Records(states) == InitialRecords()
    modifies body, body.stream, interp.Repr(), states
    ensures (status, files) == BodySpec(body.path, body.stream.data, old(body.stream.count), body.header.version)
  {
    ghost var path, data, pos, version := body.path, body.stream.data, body.stream.count, body.header.version;
    label Start:
    var failed := RunBody(body, interp);
    RecordsUnchanged@Start(states);
    files := DumpPreset(states, interp);
    status := if failed then Failure else Success;
  }

  // ---------------------------------------------------------------------
  // Properties of execute

  /** The status: a rejected header fails, a violated header invariant is
      thrown, and an accepted one fails exactly when the body has an error. */
  lemma ExecuteStatus(path: string, input: seq<UInt8>)
    ensures match HP.Spec(path, input)
      case Rejected(_) => ExecuteSpec(path, input) == (Finished(Failure), [])
      case Violated(p, x) => ExecuteSpec(path, input) == (Threw(HP.InvariantViolation(p, x)), [])
      case Accepted(h) =>
        && HP.HEADER_SIZE <= h.dataOffset <= |input|
        && ExecuteSpec(path, input).0.Finished?
        && (ExecuteSpec(path, input).0.status == Failure
            <==> HasErrors(BodyTrace(path, input, h.dataOffset, h.version)))
  {
    HP.EndCountBounds(path, input);
  }

  /** With no callback, the one dump is the one at EOF and it writes the
      six files ch00-0001.txt to ch05-0001.txt. */
  lemma BodyWritesSixFiles(path: string, data: seq<UInt8>, pos: nat, version: int)
    requires pos <= |data|
    ensures var files := BodySpec(path, data, pos, version).1;
      |files| == 6 && forall i :: 0 <= i < 6 ==> files[i] == FileName(i, 1)
  {
    FirstDump(FinalChip(path, data, pos, version).Snapshots());
  }

  /** Nothing is written when the header fails, and six files otherwise. */
  lemma ExecuteWritesSixFiles(path: string, input: seq<UInt8>)
    ensures var files := ExecuteSpec(path, input).1;
      if HP.Spec(path, input).Accepted? then |files| == 6 else files == []
  {
    HP.EndCountBounds(path, input);
    match HP.Spec(path, input)
    case Accepted(h) => BodyWritesSixFiles(path, input, h.dataOffset, h.version);
    case _ =>
  }

  /** The chip at the end of the run is well formed, so every channel of
      the final dump adapts to a DX7 voice. */
  lemma FinalChipWellFormed(path: string, data: seq<UInt8>, pos: nat, version: int)
    requires pos <= |data|
    ensures FinalChip(path, data, pos, version).WellFormed()
  {
    ST.InitialChipWellFormed();
    ReplayKeepsWellFormed(ST.InitialChip(), BodyTrace(path, data, pos, version));
  }
}
