/** Adapting a YM2612 channel snapshot to a DX7 voice (VGMDx7Adaption).
    The DX7 library's voice types are reduced to what the adapter sets:
    the voice's algorithm, the name, and an optional part it leaves empty. */
module Dx7Adaption {
  import opened Wrappers
  import opened JavaInt
  import opened YM2612Snapshots
  import opened YM2612State

  /** Dx7AlgorithmID: one of the 32 DX7 algorithms. */
  type AlgorithmID = x: int | 1 <= x <= 32 witness 1

  /** A voice built with only its algorithm set. */
  datatype Voice = Voice(algorithm: AlgorithmID)

  /** Dx7VoiceNamed: a name, a voice and an optional part whose payload
      belongs to the DX7 library; only its presence is modelled. */
  datatype VoiceNamed = VoiceNamed(name: string, voice: Voice, extra: Option<()>)

  /** UnimplementedCodeException from the default branch of the switch. */
  datatype AdaptError = Unimplemented(algorithm: Int32)

  /** `adaptAlgorithm`: the YM2612 algorithms 0..7 as the DX7 algorithms
      with the same operator routing; any other value is unimplemented. */
  function AdaptAlgorithm(algorithm: Int32): (r: Result<AlgorithmID, AdaptError>)
    ensures r.Ok? <==> 0 <= algorithm < 8
    ensures r.Err? ==> r.error == Unimplemented(algorithm)
    ensures r.Ok? ==> YM2612AlgorithmOf(r.value) == Some(algorithm)
  {
    match algorithm
    case 0 => Ok(1)
    case 1 => Ok(14)
    case 2 => Ok(8)
    case 3 => Ok(7)
    case 4 => Ok(29)
    case 5 => Ok(22)
    case 6 => Ok(31)
    case 7 => Ok(32)
    case _ => Err(Unimplemented(algorithm))
  }

  /** The reverse reading of the table: the YM2612 algorithm a DX7
      algorithm is chosen for, if any. */
  function YM2612AlgorithmOf(id: AlgorithmID): (r: Option<int>)
    ensures r.Some? ==> 0 <= r.value < 8
  {
    if id == 1 then Some(0)
    else if id == 14 then Some(1)
    else if id == 8 then Some(2)
    else if id == 7 then Some(3)
    else if id == 29 then Some(4)
    else if id == 22 then Some(5)
    else if id == 31 then Some(6)
    else if id == 32 then Some(7)
    else None
  }

  /** Exactly the eight DX7 algorithms of the table are chosen, each for
      one YM2612 algorithm. */
  lemma AdaptAlgorithmInverse(id: AlgorithmID)
    ensures YM2612AlgorithmOf(id).Some? <==> id in {1, 7, 8, 14, 22, 29, 31, 32}
    ensures YM2612AlgorithmOf(id).Some? ==> AdaptAlgorithm(YM2612AlgorithmOf(id).value) == Ok(id)
  {
  }

  /** Different YM2612 algorithms become different DX7 algorithms. */
  lemma AdaptAlgorithmInjective(a: Int32, b: Int32)
    requires AdaptAlgorithm(a).Ok? && AdaptAlgorithm(b).Ok?
    requires AdaptAlgorithm(a).value == AdaptAlgorithm(b).value
    ensures a == b
  {
    assert Some(a) == YM2612AlgorithmOf(AdaptAlgorithm(a).value);
    assert Some(b) == YM2612AlgorithmOf(AdaptAlgorithm(b).value);
  }

  /** `adaptSnapshot`: a voice with the adapted algorithm, the given name
      and no optional part; it fails as `adaptAlgorithm` does. */
  function AdaptSnapshot(name: string, snapshot: ChannelSnapshot): (r: Result<VoiceNamed, AdaptError>)
    ensures r.Ok? <==> 0 <= snapshot.algorithm < 8
    ensures r.Err? ==> r.error == Unimplemented(snapshot.algorithm)
    ensures r.Ok? ==>
      && r.value.name == name && r.value.extra == None
      && YM2612AlgorithmOf(r.value.voice.algorithm) == Some(snapshot.algorithm)
  {
    match AdaptAlgorithm(snapshot.algorithm)
    case Ok(id) => Ok(VoiceNamed(name, Voice(id), None))
    case Err(e) => Err(e)
  }

  /** Only the algorithm of the snapshot is read: snapshots that agree on
      it give the same voice. */
  lemma AdaptSnapshotReadsAlgorithmOnly(name: string, s: ChannelSnapshot, t: ChannelSnapshot)
    requires s.algorithm == t.algorithm
    ensures AdaptSnapshot(name, s) == AdaptSnapshot(name, t)
  {
  }

  /** The snapshot of any channel of a well-formed chip adapts: the
      interpreter stores the algorithm masked to three bits. */
  lemma WellFormedChannelsAdapt(name: string, s: ChipState, c: int)
    requires s.WellFormed() && 0 <= c < 6
    ensures s.channels[c].Shaped() && AdaptSnapshot(name, s.channels[c].Snapshot()).Ok?
  {
    assert s.channels[c].WellFormed();
  }
}
