/** Immutable snapshots of YM2612 operators and channels
    (VGMYM2612OperatorSnapshotType, VGMYM2612ChannelSnapshotType), compared
    by value. */
module YM2612Snapshots {
  import opened Wrappers
  import opened JavaInt

  /** The nine parameters of an operator snapshot; no range is checked. */
  datatype OperatorSnapshot = OperatorSnapshot(
    volumeInverse: Int32,
    envelopeRateAttack: Int32,
    envelopeDecay1Rate: Int32,
    envelopeDecay1Level: Int32,
    envelopeDecay2Rate: Int32,
    envelopeReleaseRate: Int32,
    pitchMultiply: Int32,
    pitchDetune: Int32,
    index: Int32)
  {
    /** `volume()`: derived, not stored, as `127 - volumeInverse()` in int
        arithmetic; adding the inverse back gives 127 again. */
    function Volume(): (r: Int32)
      ensures Wrap32(r + volumeInverse) == 127
      ensures -0x8000_0000 + 127 < volumeInverse ==> r + volumeInverse == 127
    {
      var r := Wrap32(127 - volumeInverse);
      Wrap32Congruent(r + volumeInverse, 127);
      r
    }
  }

  /** Values that agree modulo 2^32 wrap to the same int. */
  lemma Wrap32Congruent(x: int, y: int)
    requires (x - y) % TWO_32 == 0
    ensures Wrap32(x) == Wrap32(y)
  {
    var k := (x - y) / TWO_32;
    assert x - y == TWO_32 * k;
    assert x + 0x8000_0000 == (y + 0x8000_0000) + TWO_32 * k;
    ModAddMultiple(y + 0x8000_0000, TWO_32, k);
  }

  /** No range check: an inverse volume of 255 gives the volume -128. */
  lemma VolumeOfFullInverse(s: OperatorSnapshot)
    requires s.volumeInverse == 255
    ensures s.Volume() == -128
  {
  }

  /** The snapshot of a channel: algorithm, feedback, index and operators
      keyed by their index. */
  datatype ChannelSnapshot = ChannelSnapshot(
    algorithm: Int32,
    feedback: Int32,
    operators: map<int, OperatorSnapshot>,
    index: Int32)
  {
    /** `operator(i)`: the entry for `i`, or "Invalid operator index". */
    function Operator(i: int): (r: Result<OperatorSnapshot, SnapshotError>)
      ensures r.Ok? <==> i in operators
      ensures r.Ok? ==> r.value == operators[i]
      ensures r.Err? ==> r.error == InvalidOperatorIndex(i)
    {
      if i in operators then Ok(operators[i]) else Err(InvalidOperatorIndex(i))
    }
  }

  /** The IllegalArgumentExceptions of the channel snapshot. */
  datatype SnapshotError =
    | MustSupplyFourOperators(count: int)
    | InvalidOperatorIndex(index: int)

  /** The generated constructor with `checkPreconditions()`: exactly four
      operators, looked up as 0, 1, 2 and 3 in turn. */
  function MakeChannelSnapshot(
    algorithm: Int32, feedback: Int32, operators: map<int, OperatorSnapshot>, index: Int32)
    : (r: Result<ChannelSnapshot, SnapshotError>)
    ensures r.Ok? ==> r.value == ChannelSnapshot(algorithm, feedback, operators, index)
  {
    var s := ChannelSnapshot(algorithm, feedback, operators, index);
    if |operators| != 4 then Err(MustSupplyFourOperators(|operators|))
    else if s.Operator(0).Err? then Err(s.Operator(0).error)
    else if s.Operator(1).Err? then Err(s.Operator(1).error)
    else if s.Operator(2).Err? then Err(s.Operator(2).error)
    else if s.Operator(3).Err? then Err(s.Operator(3).error)
    else Ok(s)
  }

  /** The operator indices 0..3. */
  const OPERATOR_KEYS: set<int> := {0, 1, 2, 3}

  /** Construction succeeds exactly when the keys are 0, 1, 2 and 3. */
  lemma MakeChannelSnapshotKeys(
    algorithm: Int32, feedback: Int32, operators: map<int, OperatorSnapshot>, index: Int32)
    ensures MakeChannelSnapshot(algorithm, feedback, operators, index).Ok?
            <==> operators.Keys == OPERATOR_KEYS
  {
    var keys := operators.Keys;
    assert |OPERATOR_KEYS| == 4;
    if MakeChannelSnapshot(algorithm, feedback, operators, index).Ok? {
      assert 0 in keys && 1 in keys && 2 in keys && 3 in keys;
      assert OPERATOR_KEYS <= keys;
      var extra := keys - OPERATOR_KEYS;
      assert |keys| == |OPERATOR_KEYS| + |extra| by {
        assert keys == OPERATOR_KEYS + extra;
        assert OPERATOR_KEYS * extra == {};
      }
      assert extra == {};
    }
  }

  /** A failing construction names the missing operator, or the number of
      operators when it is not four. */
  lemma MakeChannelSnapshotErrors(
    algorithm: Int32, feedback: Int32, operators: map<int, OperatorSnapshot>, index: Int32)
    ensures var r := MakeChannelSnapshot(algorithm, feedback, operators, index);
      r.Err? ==>
        (|operators| != 4 && r.error == MustSupplyFourOperators(|operators|))
        || (|operators| == 4 && r.error.InvalidOperatorIndex? && 0 <= r.error.index < 4
            && r.error.index !in operators)
  {
  }
}
