/** The register state of the YM2612 model as values: what an operator, a
    channel and the whole chip hold, and the effect of each setter of
    VGMYM2612Operator, VGMYM2612Channel and VGMYM2612Interpreter on it.  The
    interpreter classes are proved against these functions. */
module YM2612State {
  import opened JavaInt
  import opened Wrappers
  import opened YM2612Snapshots

  /** `(b ? 1 : 0)`, for statements about packed flags. */
  function BitValue(b: bool): nat {
    if b then 1 else 0
  }

  // ---------------------------------------------------------------------
  // Operators

  /** The fields of VGMYM2612Operator (and of the older inner Operator). */
  datatype OperatorState = OperatorState(
    index: Int32,
    pitchMultiply: Int32,
    pitchDetune: Int32,
    volume: Int32,
    rateScale: Int32,
    rateAttack: Int32,
    amplitudeModulation: Int32,
    rateDecay0: Int32,
    rateDecay1: Int32,
    amplitudeSecondary: Int32,
    rateRelease: Int32,
    enabled: bool,
    frequencyLSB: Int32,
    frequencyMSB: Int32,
    frequencyOctave: Int32)
  {
    /** The masked fields hold no more bits than their masks let through. */
    predicate WellFormed() {
      0 <= pitchMultiply < 16 && 0 <= pitchDetune < 8
      && 0 <= rateScale < 4 && 0 <= rateAttack < 32
      && 0 <= amplitudeModulation < 2 && 0 <= rateDecay0 < 32
      && 0 <= rateDecay1 < 32
      && 0 <= amplitudeSecondary < 16 && 0 <= rateRelease < 16
      && 0 <= frequencyMSB < 8 && 0 <= frequencyOctave < 8
    }

    /** `snapshot()`: secondary amplitude is reported as the decay-1 level,
        decay 0 as the decay-1 rate and decay 1 as the decay-2 rate. */
    function Snapshot(): (r: OperatorSnapshot)
      ensures r.volumeInverse == volume && r.index == index
      ensures r.envelopeDecay1Level == amplitudeSecondary
      ensures r.envelopeDecay1Rate == rateDecay0 && r.envelopeDecay2Rate == rateDecay1
      ensures r.envelopeRateAttack == rateAttack && r.envelopeReleaseRate == rateRelease
      ensures r.pitchMultiply == pitchMultiply && r.pitchDetune == pitchDetune
    {
      OperatorSnapshot(volume, rateAttack, rateDecay0, amplitudeSecondary,
                       rateDecay1, rateRelease, pitchMultiply, pitchDetune, index)
    }

    /** `setDetuneAndMultiple`: multiply is bits 0-3 and detune bits 4-6;
        together they are the low seven bits of the value. */
    function SetDetuneAndMultiple(v: Int32): (r: OperatorState)
      ensures r == this.(pitchMultiply := r.pitchMultiply, pitchDetune := r.pitchDetune)
      ensures r.pitchMultiply == ToUnsigned(v) % 16 && 0 <= r.pitchDetune < 8
      ensures r.pitchDetune * 16 + r.pitchMultiply == ToUnsigned(v) % 128
    {
      FieldsJoin(v, 16, 8);
      this.(pitchMultiply := Field(v, 1, 16), pitchDetune := Field(v, 16, 8))
    }

    /** `setVolumeInverse`: the value is stored as it is, unmasked. */
    function SetVolumeInverse(v: Int32): (r: OperatorState)
      ensures r == this.(volume := v)
      ensures r.Snapshot().volumeInverse == v && r.Snapshot().Volume() == Wrap32(127 - v)
    {
      this.(volume := v)
    }

    /** `setRateScalingAndAttackRate`: scale is bits 6-7, attack bits 0-4;
        bit 5 is dropped. */
    function SetRateScalingAndAttackRate(v: Int32): (r: OperatorState)
      ensures r == this.(rateScale := r.rateScale, rateAttack := r.rateAttack)
      ensures r.rateAttack == ToUnsigned(v) % 32
      ensures r.rateScale == ToUnsigned(v) / 64 % 4
    {
      assert ToUnsigned(v) / 1 == ToUnsigned(v);
      this.(rateScale := Field(v, 64, 4), rateAttack := Field(v, 1, 32))
    }

    /** `setRateDecayAndAmplitudeModulation`: AM is bit 7, decay 0 bits
        0-4; bits 5-6 are dropped. */
    function SetRateDecayAndAmplitudeModulation(v: Int32): (r: OperatorState)
      ensures r == this.(amplitudeModulation := r.amplitudeModulation, rateDecay0 := r.rateDecay0)
      ensures r.rateDecay0 == ToUnsigned(v) % 32
      ensures r.amplitudeModulation == ToUnsigned(v) / 128 % 2
    {
      assert ToUnsigned(v) / 1 == ToUnsigned(v);
      this.(amplitudeModulation := Field(v, 128, 2), rateDecay0 := Field(v, 1, 32))
    }

    /** `setRateDecaySecondary`: decay 1 is bits 0-4. */
    function SetRateDecaySecondary(v: Int32): (r: OperatorState)
      ensures r == this.(rateDecay1 := r.rateDecay1)
      ensures r.rateDecay1 == ToUnsigned(v) % 32
    {
      assert ToUnsigned(v) / 1 == ToUnsigned(v);
      this.(rateDecay1 := Field(v, 1, 32))
    }

    /** `setRateReleaseAndSecondaryAmplitude`: release is bits 0-3 and the
        secondary amplitude bits 4-7; together the low byte. */
    function SetRateReleaseAndSecondaryAmplitude(v: Int32): (r: OperatorState)
      ensures r == this.(amplitudeSecondary := r.amplitudeSecondary, rateRelease := r.rateRelease)
      ensures r.rateRelease == ToUnsigned(v) % 16 && 0 <= r.amplitudeSecondary < 16
      ensures r.amplitudeSecondary * 16 + r.rateRelease == ToUnsigned(v) % 256
    {
      FieldsJoin(v, 16, 16);
      this.(amplitudeSecondary := Field(v, 16, 16), rateRelease := Field(v, 1, 16))
    }

    /** `setFrequencyLSB`: stored unmasked; not part of the snapshot. */
    function SetFrequencyLSB(v: Int32): (r: OperatorState)
      ensures r == this.(frequencyLSB := v)
      ensures r.Snapshot() == Snapshot()
    {
      this.(frequencyLSB := v)
    }

    /** `setFrequencyMSB`: msb is bits 0-2, octave bits 3-5; not part of the
        snapshot. */
    function SetFrequencyMSB(v: Int32): (r: OperatorState)
      ensures r == this.(frequencyMSB := r.frequencyMSB, frequencyOctave := r.frequencyOctave)
      ensures r.frequencyMSB == ToUnsigned(v) % 8 && 0 <= r.frequencyOctave < 8
      ensures r.frequencyOctave * 8 + r.frequencyMSB == ToUnsigned(v) % 64
      ensures r.Snapshot() == Snapshot()
    {
      FieldsJoin(v, 8, 8);
      this.(frequencyMSB := Field(v, 1, 8), frequencyOctave := Field(v, 8, 8))
    }

    /** `setEnabled` (key on/off); not part of the snapshot. */
    function SetEnabled(e: bool): (r: OperatorState)
      ensures r == this.(enabled := e)
      ensures r.Snapshot() == Snapshot()
    {
      this.(enabled := e)
    }
  }

  /** A fresh operator: Java's zero defaults. */
  function InitialOperator(index: Int32): (r: OperatorState)
    ensures r.index == index && !r.enabled && r.WellFormed()
  {
    OperatorState(index, 0, 0, 0, 0, 0, 0, 0, 0, 0, 0, false, 0, 0, 0)
  }

  /** The operator registers of one block, by register base. */
  datatype OperatorKind =
    | DetuneMultiple             // 0x30
    | VolumeInverse              // 0x40
    | RateScalingAttack          // 0x50
    | DecayAmplitudeModulation   // 0x60
    | DecaySecondary             // 0x70
    | ReleaseSecondaryAmplitude  // 0x80

  /** The setter the operator block of `kind` calls. */
  function SetOperator(o: OperatorState, kind: OperatorKind, v: Int32): (r: OperatorState)
    ensures r.index == o.index && r.enabled == o.enabled
    ensures o.WellFormed() ==> r.WellFormed()
    ensures r.frequencyLSB == o.frequencyLSB && r.frequencyMSB == o.frequencyMSB
            && r.frequencyOctave == o.frequencyOctave
  {
    match kind
    case DetuneMultiple => o.SetDetuneAndMultiple(v)
    case VolumeInverse => o.SetVolumeInverse(v)
    case RateScalingAttack => o.SetRateScalingAndAttackRate(v)
    case DecayAmplitudeModulation => o.SetRateDecayAndAmplitudeModulation(v)
    case DecaySecondary => o.SetRateDecaySecondary(v)
    case ReleaseSecondaryAmplitude => o.SetRateReleaseAndSecondaryAmplitude(v)
  }

  /** An operator register written twice holds only the second value. */
  lemma SetOperatorTwice(o: OperatorState, kind: OperatorKind, v: Int32, w: Int32)
    ensures SetOperator(SetOperator(o, kind, v), kind, w) == SetOperator(o, kind, w)
  {
  }

  /** The setters of one block commute with those of another: each touches
      only its own fields. */
  lemma SetOperatorCommutes(o: OperatorState, k1: OperatorKind, v1: Int32, k2: OperatorKind, v2: Int32)
    requires k1 != k2
    ensures SetOperator(SetOperator(o, k1, v1), k2, v2) == SetOperator(SetOperator(o, k2, v2), k1, v1)
  {
  }

  // ---------------------------------------------------------------------
  // Register values: the layout each packed setter unpacks

  function PackDetuneMultiple(detune: nat, multiply: nat): (v: Int32)
    requires detune < 8 && multiply < 16
    ensures 0 <= v < 128
  {
    detune * 16 + multiply
  }

  function PackScalingAttack(scale: nat, attack: nat): (v: Int32)
    requires scale < 4 && attack < 32
    ensures 0 <= v < 256
  {
    scale * 64 + attack
  }

  function PackAmplitudeModulationDecay(am: nat, decay: nat): (v: Int32)
    requires am < 2 && decay < 32
    ensures 0 <= v < 256
  {
    am * 128 + decay
  }

  function PackSecondaryRelease(secondary: nat, release: nat): (v: Int32)
    requires secondary < 16 && release < 16
    ensures 0 <= v < 256
  {
    secondary * 16 + release
  }

  function PackOctaveMSB(octave: nat, msb: nat): (v: Int32)
    requires octave < 8 && msb < 8
    ensures 0 <= v < 64
  {
    octave * 8 + msb
  }

  /** Writing a packed detune/multiple value sets exactly those fields. */
  lemma DetuneMultipleRoundTrip(o: OperatorState, detune: nat, multiply: nat)
    requires detune < 8 && multiply < 16
    ensures var r := o.SetDetuneAndMultiple(PackDetuneMultiple(detune, multiply));
      r.pitchDetune == detune && r.pitchMultiply == multiply
  {
    FieldOfPacked(PackDetuneMultiple(detune, multiply), 16, 8, 0, detune, multiply);
  }

  /** Writing a packed scaling/attack value sets exactly those fields. */
  lemma ScalingAttackRoundTrip(o: OperatorState, scale: nat, attack: nat)
    requires scale < 4 && attack < 32
    ensures var r := o.SetRateScalingAndAttackRate(PackScalingAttack(scale, attack));
      r.rateScale == scale && r.rateAttack == attack
  {
    var v := PackScalingAttack(scale, attack);
    FieldOfPacked(v, 64, 4, 0, scale, attack);
    FieldOfPacked(v, 1, 32, scale * 2, attack, 0);
  }

  /** Writing a packed AM/decay value sets exactly those fields. */
  lemma AmplitudeModulationDecayRoundTrip(o: OperatorState, am: nat, decay: nat)
    requires am < 2 && decay < 32
    ensures var r := o.SetRateDecayAndAmplitudeModulation(PackAmplitudeModulationDecay(am, decay));
      r.amplitudeModulation == am && r.rateDecay0 == decay
  {
    var v := PackAmplitudeModulationDecay(am, decay);
    FieldOfPacked(v, 128, 2, 0, am, decay);
    FieldOfPacked(v, 1, 32, am * 4, decay, 0);
  }

  /** Writing a packed secondary/release value sets exactly those fields. */
  lemma SecondaryReleaseRoundTrip(o: OperatorState, secondary: nat, release: nat)
    requires secondary < 16 && release < 16
    ensures var r := o.SetRateReleaseAndSecondaryAmplitude(PackSecondaryRelease(secondary, release));
      r.amplitudeSecondary == secondary && r.rateRelease == release
  {
    FieldOfPacked(PackSecondaryRelease(secondary, release), 16, 16, 0, secondary, release);
  }

  /** Writing a packed octave/msb value sets exactly those fields. */
  lemma OperatorOctaveRoundTrip(o: OperatorState, octave: nat, msb: nat)
    requires octave < 8 && msb < 8
    ensures var r := o.SetFrequencyMSB(PackOctaveMSB(octave, msb));
      r.frequencyOctave == octave && r.frequencyMSB == msb
  {
    FieldOfPacked(PackOctaveMSB(octave, msb), 8, 8, 0, octave, msb);
  }

  // ---------------------------------------------------------------------
  // Channels

  /** The fields of VGMYM2612Channel: its index, its four operators in
      order 0..3 (the HashMap keyed 0..3 in the source) and its own
      registers. */
  datatype ChannelState = ChannelState(
    index: Int32,
    operators: seq<OperatorState>,
    frequencyLSB: Int32,
    frequencyMSB: Int32,
    frequencyOctave: Int32,
    feedback: Int32,
    algorithm: Int32,
    stereoLeft: bool,
    stereoRight: bool,
    lfoAmplitudeSensitivity: Int32,
    lfoFrequencySensitivity: Int32)
  {
    predicate Shaped() {
      |operators| == 4
    }

    predicate WellFormed() {
      && Shaped()
      && (forall i :: 0 <= i < 4 ==> operators[i].WellFormed() && operators[i].index == i)
      && 0 <= frequencyMSB < 8 && 0 <= frequencyOctave < 8
      && 0 <= feedback < 8 && 0 <= algorithm < 8
      && 0 <= lfoAmplitudeSensitivity < 8 && 0 <= lfoFrequencySensitivity < 4
    }

    /** `snapshot()`: algorithm, feedback, index and the four operator
        snapshots under the keys 0..3, which the snapshot's own construction
        check accepts. */
    function Snapshot(): (r: ChannelSnapshot)
      requires Shaped()
      ensures r.algorithm == algorithm && r.feedback == feedback && r.index == index
      ensures r.operators.Keys == OPERATOR_KEYS
      ensures forall i :: 0 <= i < 4 ==> r.operators[i] == operators[i].Snapshot()
      ensures MakeChannelSnapshot(algorithm, feedback, r.operators, index) == Ok(r)
    {
      var m := OperatorSnapshots(operators);
      MakeChannelSnapshotKeys(algorithm, feedback, m, index);
      ChannelSnapshot(algorithm, feedback, m, index)
    }

    /** `setFrequencyLSB`: stored unmasked; not part of the snapshot. */
    function SetFrequencyLSB(v: Int32): (r: ChannelState)
      ensures r == this.(frequencyLSB := v)
    {
      this.(frequencyLSB := v)
    }

    /** `setFrequencyMSB`: msb is bits 0-2, octave bits 3-5. */
    function SetFrequencyMSB(v: Int32): (r: ChannelState)
      ensures r == this.(frequencyMSB := r.frequencyMSB, frequencyOctave := r.frequencyOctave)
      ensures r.frequencyMSB == ToUnsigned(v) % 8 && 0 <= r.frequencyOctave < 8
      ensures r.frequencyOctave * 8 + r.frequencyMSB == ToUnsigned(v) % 64
    {
      FieldsJoin(v, 8, 8);
      this.(frequencyMSB := Field(v, 1, 8), frequencyOctave := Field(v, 8, 8))
    }

    /** `setAlgorithmAndFeedback`: algorithm is bits 0-2, feedback bits 3-5. */
    function SetAlgorithmAndFeedback(v: Int32): (r: ChannelState)
      ensures r == this.(algorithm := r.algorithm, feedback := r.feedback)
      ensures r.algorithm == ToUnsigned(v) % 8 && 0 <= r.feedback < 8
      ensures r.feedback * 8 + r.algorithm == ToUnsigned(v) % 64
    {
      FieldsJoin(v, 8, 8);
      this.(feedback := Field(v, 8, 8), algorithm := Field(v, 1, 8))
    }

    /** `setStereoAndLFOSensitivity`: left is bit 7, right bit 6, AMS bits
        3-5 and FMS only bits 0-1 (bit 2 is dropped); not part of the
        snapshot. */
    function SetStereoAndLFOSensitivity(v: Int32): (r: ChannelState)
      ensures r == this.(stereoLeft := r.stereoLeft, stereoRight := r.stereoRight,
                         lfoAmplitudeSensitivity := r.lfoAmplitudeSensitivity,
                         lfoFrequencySensitivity := r.lfoFrequencySensitivity)
      ensures r.lfoFrequencySensitivity == ToUnsigned(v) % 4
      ensures 0 <= r.lfoAmplitudeSensitivity < 8
    {
      this.(stereoLeft := Bit(v, 128), stereoRight := Bit(v, 64),
            lfoAmplitudeSensitivity := Field(v, 8, 8), lfoFrequencySensitivity := Field(v, 1, 4))
    }

    /** The operators of a channel selected by key on/off: operator k is
        enabled iff bit k of the high nibble is set; nothing else changes. */
    function KeyOn(v: Int32): (r: ChannelState)
      requires Shaped()
      ensures r.Shaped() && r == this.(operators := r.operators)
      ensures forall k :: 0 <= k < 4 ==> r.operators[k] == operators[k].SetEnabled(KeyBit(v, k))
    {
      this.(operators := [operators[0].SetEnabled(KeyBit(v, 0)), operators[1].SetEnabled(KeyBit(v, 1)),
                          operators[2].SetEnabled(KeyBit(v, 2)), operators[3].SetEnabled(KeyBit(v, 3))])
    }

    /** The channel with operator `i` replaced. */
    function WithOperator(i: int, o: OperatorState): (r: ChannelState)
      requires Shaped() && 0 <= i < 4
      ensures r.Shaped() && r.operators[i] == o
      ensures forall j :: 0 <= j < 4 && j != i ==> r.operators[j] == operators[j]
      ensures r == this.(operators := r.operators)
    {
      this.(operators := operators[i := o])
    }
  }

  /** The stereo/LFO register keeps every bit of its low byte but bit 2:
      left, right, AMS and FMS with bit 2 in between make up the byte. */
  lemma StereoLFOFields(c: ChannelState, v: Int32)
    ensures var r := c.SetStereoAndLFOSensitivity(v);
      BitValue(r.stereoLeft) * 128 + BitValue(r.stereoRight) * 64
      + r.lfoAmplitudeSensitivity * 8 + Field(v, 4, 2) * 4
      + r.lfoFrequencySensitivity == ToUnsigned(v) % 256
  {
    StereoFieldsJoin(v);
  }

  /** Frequency, stereo and LFO registers are not part of the channel
      snapshot: their setters leave it as it was. */
  lemma ChannelRegistersOutsideSnapshot(c: ChannelState, v: Int32)
    requires c.Shaped()
    ensures c.SetFrequencyLSB(v).Snapshot() == c.Snapshot()
    ensures c.SetFrequencyMSB(v).Snapshot() == c.Snapshot()
    ensures c.SetStereoAndLFOSensitivity(v).Snapshot() == c.Snapshot()
  {
  }

  /** The operator snapshots keyed by operator index. */
  function OperatorSnapshots(operators: seq<OperatorState>): (m: map<int, OperatorSnapshot>)
    requires |operators| == 4
    ensures m.Keys == OPERATOR_KEYS
    ensures forall i :: 0 <= i < 4 ==> m[i] == operators[i].Snapshot()
  {
    var m := map i | i in OPERATOR_KEYS :: operators[i].Snapshot();
    assert m.Keys == OPERATOR_KEYS;
    m
  }

  /** The four fields of the stereo/LFO register make up the low byte. */
  lemma StereoFieldsJoin(v: Int32)
    ensures BitValue(Bit(v, 128)) * 128 + BitValue(Bit(v, 64)) * 64
            + Field(v, 8, 8) * 8 + Field(v, 4, 2) * 4 + Field(v, 1, 4) == ToUnsigned(v) % 256
  {
    FieldsJoin(v, 128, 2);
    FieldsJoin(v, 64, 2);
    FieldsJoin(v, 8, 8);
    FieldsJoin(v, 4, 2);
    FieldsJoin(v, 1, 4);
    var u := ToUnsigned(v);
    // Each join peels one field off the top of the low bits.
    assert Field(v, 1, 128) == u % 128 && Field(v, 1, 64) == u % 64;
    assert Field(v, 1, 8) == u % 8 && Field(v, 1, 4) == u % 4;
    assert u / 1 == u;
  }

  function PackAlgorithmFeedback(feedback: nat, algorithm: nat): (v: Int32)
    requires feedback < 8 && algorithm < 8
    ensures 0 <= v < 64
  {
    feedback * 8 + algorithm
  }

  function PackStereoLFO(left: bool, right: bool, ams: nat, fms: nat): (v: Int32)
    requires ams < 8 && fms < 4
    ensures 0 <= v < 256
  {
    BitValue(left) * 128 + BitValue(right) * 64 + ams * 8 + fms
  }

  /** Writing a packed algorithm/feedback value sets exactly those fields. */
  lemma AlgorithmFeedbackRoundTrip(c: ChannelState, feedback: nat, algorithm: nat)
    requires feedback < 8 && algorithm < 8
    ensures var r := c.SetAlgorithmAndFeedback(PackAlgorithmFeedback(feedback, algorithm));
      r.feedback == feedback && r.algorithm == algorithm
  {
    FieldOfPacked(PackAlgorithmFeedback(feedback, algorithm), 8, 8, 0, feedback, algorithm);
  }

  /** Writing a packed channel octave/msb value sets exactly those fields. */
  lemma ChannelOctaveRoundTrip(c: ChannelState, octave: nat, msb: nat)
    requires octave < 8 && msb < 8
    ensures var r := c.SetFrequencyMSB(PackOctaveMSB(octave, msb));
      r.frequencyOctave == octave && r.frequencyMSB == msb
  {
    FieldOfPacked(PackOctaveMSB(octave, msb), 8, 8, 0, octave, msb);
  }

  /** Writing a packed stereo/LFO value sets exactly those fields. */
  lemma StereoLFORoundTrip(c: ChannelState, left: bool, right: bool, ams: nat, fms: nat)
    requires ams < 8 && fms < 4
    ensures var r := c.SetStereoAndLFOSensitivity(PackStereoLFO(left, right, ams, fms));
      r.stereoLeft == left && r.stereoRight == right
      && r.lfoAmplitudeSensitivity == ams && r.lfoFrequencySensitivity == fms
  {
    var v := PackStereoLFO(left, right, ams, fms);
    var l, rt := BitValue(left), BitValue(right);
    FieldOfPacked(v, 128, 2, 0, l, rt * 64 + ams * 8 + fms);
    FieldOfPacked(v, 64, 2, l, rt, ams * 8 + fms);
    FieldOfPacked(v, 8, 8, l * 2 + rt, ams, fms);
    FieldOfPacked(v, 1, 4, (l * 128 + rt * 64 + ams * 8) / 4, fms, 0);
  }

  /** A fresh channel: four fresh operators indexed 0..3. */
  function InitialChannel(index: Int32): (r: ChannelState)
    ensures r.index == index && r.WellFormed()
    ensures forall i :: 0 <= i < 4 ==> r.operators[i] == InitialOperator(i)
  {
    ChannelState(index, [InitialOperator(0), InitialOperator(1), InitialOperator(2), InitialOperator(3)],
                 0, 0, 0, 0, 0, false, false, 0, 0)
  }

  // ---------------------------------------------------------------------
  // The chip

  /** The fields of VGMYM2612Interpreter: six channels in order 0..5 (the
      HashMap keyed 0..5 in the source) and the global registers. */
  datatype ChipState = ChipState(
    channels: seq<ChannelState>,
    lfoEnable: Int32,
    lfoFrequency: Int32,
    dacEnable: Int32,
    timerBReset: Int32,
    timerAReset: Int32,
    timerBEnable: Int32,
    timerAEnable: Int32,
    timerBLoad: Int32,
    timerALoad: Int32,
    specialMode: bool,
    timerBTime: Int32)
  {
    predicate Shaped() {
      |channels| == 6 && forall i :: 0 <= i < 6 ==> channels[i].Shaped()
    }

    /** Shaped, every channel and operator carries its own index, and every
        masked field is within its mask. */
    predicate WellFormed() {
      && |channels| == 6
      && (forall i :: 0 <= i < 6 ==> channels[i].WellFormed() && channels[i].index == i)
      && 0 <= lfoEnable < 2 && 0 <= lfoFrequency < 8 && 0 <= dacEnable < 2
      && 0 <= timerBReset < 2 && 0 <= timerAReset < 2
      && 0 <= timerBEnable < 2 && 0 <= timerAEnable < 2
      && 0 <= timerBLoad < 2 && 0 <= timerALoad < 2
    }

    /** The snapshots of channels 0..5. */
    function Snapshots(): (r: seq<ChannelSnapshot>)
      requires Shaped()
      ensures |r| == 6 && forall i :: 0 <= i < 6 ==> r[i] == channels[i].Snapshot()
    {
      seq(6, i requires 0 <= i < 6 => channels[i].Snapshot())
    }

    /** The chip with channel `c` replaced. */
    function WithChannel(c: int, ch: ChannelState): (r: ChipState)
      requires Shaped() && 0 <= c < 6 && ch.Shaped()
      ensures r.Shaped() && r.channels[c] == ch
      ensures forall j :: 0 <= j < 6 && j != c ==> r.channels[j] == channels[j]
      ensures r == this.(channels := r.channels)
    {
      this.(channels := channels[c := ch])
    }

    /** The chip with operator `op` of channel `c` replaced. */
    function WithOperator(c: int, op: int, o: OperatorState): (r: ChipState)
      requires Shaped() && 0 <= c < 6 && 0 <= op < 4
      ensures r.Shaped() && r.channels[c] == channels[c].WithOperator(op, o)
      ensures forall j :: 0 <= j < 6 && j != c ==> r.channels[j] == channels[j]
      ensures r == this.(channels := r.channels)
    {
      WithChannel(c, channels[c].WithOperator(op, o))
    }

    /** `setLFO` (port 0, 0x22): enable is bit 3, frequency bits 0-2. */
    function SetLFO(v: Int32): (r: ChipState)
      ensures r == this.(lfoEnable := r.lfoEnable, lfoFrequency := r.lfoFrequency)
      ensures r.lfoFrequency == ToUnsigned(v) % 8 && 0 <= r.lfoEnable < 2
      ensures r.lfoEnable * 8 + r.lfoFrequency == ToUnsigned(v) % 16
    {
      FieldsJoin(v, 8, 2);
      this.(lfoEnable := Field(v, 8, 2), lfoFrequency := Field(v, 1, 8))
    }

    /** `setTimerBTime` (port 0, 0x26): stored unmasked. */
    function SetTimerBTime(v: Int32): (r: ChipState)
      ensures r == this.(timerBTime := v)
    {
      this.(timerBTime := v)
    }

    /** `setDAC` (port 0, 0x2B): enable is bit 7. */
    function SetDAC(v: Int32): (r: ChipState)
      ensures r == this.(dacEnable := r.dacEnable)
      ensures r.dacEnable == ToUnsigned(v) / 128 % 2
    {
      this.(dacEnable := Field(v, 128, 2))
    }

    /** `setTimersAndChannel3_6Mode` (port 0, 0x27): mode bits 6-7 of 00
        clear special mode and 01 set it, while 10 and 11 leave it as it
        was; the six timer bits 0-5 are always stored. */
    function SetTimersAndMode(v: Int32): (r: ChipState)
      ensures r == this.(specialMode := r.specialMode,
                         timerBReset := r.timerBReset, timerAReset := r.timerAReset,
                         timerBEnable := r.timerBEnable, timerAEnable := r.timerAEnable,
                         timerBLoad := r.timerBLoad, timerALoad := r.timerALoad)
      ensures var mode := ToUnsigned(v) / 64 % 4;
        r.specialMode == (if mode == 0 then false else if mode == 1 then true else specialMode)
      ensures 0 <= r.timerBReset < 2 && 0 <= r.timerAReset < 2 && 0 <= r.timerBEnable < 2
              && 0 <= r.timerAEnable < 2 && 0 <= r.timerBLoad < 2 && 0 <= r.timerALoad < 2
    {
      var mode := Field(v, 64, 4);
      var special := if mode == 0 then false else if mode == 1 then true else specialMode;
      this.(specialMode := special,
            timerBReset := Field(v, 32, 2), timerAReset := Field(v, 16, 2),
            timerBEnable := Field(v, 8, 2), timerAEnable := Field(v, 4, 2),
            timerBLoad := Field(v, 2, 2), timerALoad := Field(v, 1, 2))
    }

    /** `setKeyOnOff` (port 0, 0x28): the low three bits select a channel
        through KeyOnChannel; for a selected channel operator k is enabled
        iff bit k of the high nibble is set, and codes 3 and 7 change
        nothing. */
    function SetKeyOnOff(v: Int32): (r: ChipState)
      requires Shaped()
      ensures r.Shaped()
      ensures KeyOnChannel(Field(v, 1, 8)).None? ==> r == this
      ensures KeyOnChannel(Field(v, 1, 8)).Some? ==>
        var c := KeyOnChannel(Field(v, 1, 8)).value;
        r == WithChannel(c, channels[c].KeyOn(v))
    {
      match KeyOnChannel(Field(v, 1, 8))
      case None => this
      case Some(c) => WithChannel(c, channels[c].KeyOn(v))
    }
  }

  lemma WellFormedShaped(s: ChipState)
    requires s.WellFormed()
    ensures s.Shaped()
  {
    forall i | 0 <= i < 6 ensures s.channels[i].Shaped() {
      assert s.channels[i].WellFormed();
    }
  }

  /** Replacing a channel by a well-formed one with the same index keeps
      the chip well-formed. */
  lemma WithChannelWellFormed(s: ChipState, c: int, ch: ChannelState)
    requires s.WellFormed() && 0 <= c < 6 && ch.WellFormed() && ch.index == c
    ensures s.Shaped() && s.WithChannel(c, ch).WellFormed()
  {
    WellFormedShaped(s);
  }

  /** Replacing an operator by a well-formed one with the same index keeps
      the chip well-formed. */
  lemma WithOperatorWellFormed(s: ChipState, c: int, op: int, o: OperatorState)
    requires s.WellFormed() && 0 <= c < 6 && 0 <= op < 4 && o.WellFormed() && o.index == op
    ensures s.Shaped() && s.WithOperator(c, op, o).WellFormed()
  {
    WellFormedShaped(s);
    assert s.channels[c].WellFormed();
    var ch := s.channels[c].WithOperator(op, o);
    assert ch.WellFormed();
    WithChannelWellFormed(s, c, ch);
  }

  /** A channel's snapshot depends only on its algorithm, feedback, index
      and operator snapshots. */
  lemma SameChannelSnapshot(a: ChannelState, b: ChannelState)
    requires a.Shaped() && b.Shaped()
    requires a.algorithm == b.algorithm && a.feedback == b.feedback && a.index == b.index
    requires forall k :: 0 <= k < 4 ==> a.operators[k].Snapshot() == b.operators[k].Snapshot()
    ensures a.Snapshot() == b.Snapshot()
  {
    var ma, mb := OperatorSnapshots(a.operators), OperatorSnapshots(b.operators);
    forall i | i in ma.Keys ensures ma[i] == mb[i] {
      assert 0 <= i < 4;
    }
    assert ma == mb;
  }

  /** Replacing one channel leaves the other snapshots alone, and all of
      them when the new channel has the old one's snapshot. */
  lemma WithChannelSnapshots(s: ChipState, c: int, ch: ChannelState)
    requires s.Shaped() && 0 <= c < 6 && ch.Shaped()
    ensures forall j :: 0 <= j < 6 && j != c ==> s.WithChannel(c, ch).Snapshots()[j] == s.Snapshots()[j]
    ensures ch.Snapshot() == s.channels[c].Snapshot() ==> s.WithChannel(c, ch).Snapshots() == s.Snapshots()
  {
  }

  /** Replacing an operator by one with the same snapshot leaves every
      channel snapshot alone. */
  lemma WithOperatorSnapshots(s: ChipState, c: int, op: int, o: OperatorState)
    requires s.Shaped() && 0 <= c < 6 && 0 <= op < 4
    ensures forall j :: 0 <= j < 6 && j != c ==> s.WithOperator(c, op, o).Snapshots()[j] == s.Snapshots()[j]
    ensures o.Snapshot() == s.channels[c].operators[op].Snapshot() ==>
      s.WithOperator(c, op, o).Snapshots() == s.Snapshots()
  {
    var ch := s.channels[c].WithOperator(op, o);
    if o.Snapshot() == s.channels[c].operators[op].Snapshot() {
      SameChannelSnapshot(ch, s.channels[c]);
    }
    WithChannelSnapshots(s, c, ch);
  }

  lemma WithChannelTwice(s: ChipState, c: int, a: ChannelState, b: ChannelState)
    requires s.Shaped() && 0 <= c < 6 && a.Shaped() && b.Shaped()
    ensures s.WithChannel(c, a).WithChannel(c, b) == s.WithChannel(c, b)
  {
    assert s.channels[c := a][c := b] == s.channels[c := b];
  }

  lemma WithOperatorTwice(s: ChipState, c: int, op: int, x: OperatorState, y: OperatorState)
    requires s.Shaped() && 0 <= c < 6 && 0 <= op < 4
    ensures s.WithOperator(c, op, x).WithOperator(c, op, y) == s.WithOperator(c, op, y)
  {
    var ch := s.channels[c];
    assert ch.WithOperator(op, x).WithOperator(op, y) == ch.WithOperator(op, y) by {
      assert ch.operators[op := x][op := y] == ch.operators[op := y];
    }
    WithChannelTwice(s, c, ch.WithOperator(op, x), ch.WithOperator(op, y));
  }

  /** The six timer bits stored by 0x27 are the low six bits of the value. */
  lemma TimerBitsStored(s: ChipState, v: Int32)
    ensures var r := s.SetTimersAndMode(v);
      r.timerBReset * 32 + r.timerAReset * 16 + r.timerBEnable * 8
      + r.timerAEnable * 4 + r.timerBLoad * 2 + r.timerALoad == ToUnsigned(v) % 64
  {
    TimerFieldsJoin(v);
  }

  /** The six timer bits make up the low six bits of the value. */
  lemma TimerFieldsJoin(v: Int32)
    ensures Field(v, 32, 2) * 32 + Field(v, 16, 2) * 16 + Field(v, 8, 2) * 8
            + Field(v, 4, 2) * 4 + Field(v, 2, 2) * 2 + Field(v, 1, 2) == ToUnsigned(v) % 64
  {
    var u := ToUnsigned(v);
    assert u / 1 == u;
    FieldsJoin(v, 32, 2);
    FieldsJoin(v, 16, 2);
    FieldsJoin(v, 8, 2);
    FieldsJoin(v, 4, 2);
    FieldsJoin(v, 2, 2);
  }

  /** The channel that key-on code `code` selects: 0, 1, 2 select channels
      0-2 and 4, 5, 6 select channels 3-5; 3 and 7 select none. */
  function KeyOnChannel(code: nat): (r: Option<nat>)
    ensures r.Some? <==> code < 8 && code != 3 && code != 7
    ensures r.Some? ==> r.value < 6 && r.value == (if code < 3 then code else code - 1)
  {
    if code == 0 then Some(0)
    else if code == 1 then Some(1)
    else if code == 2 then Some(2)
    else if code == 4 then Some(3)
    else if code == 5 then Some(4)
    else if code == 6 then Some(5)
    else None
  }

  /** The key-on code of channel `c`: its partner. */
  function KeyOnCode(c: nat): (code: nat)
    requires c < 6
    ensures code < 8 && code != 3 && code != 7
  {
    if c < 3 then c else c + 1
  }

  /** KeyOnCode and KeyOnChannel are inverse. */
  lemma KeyOnCodeRoundTrip(c: nat, code: nat)
    requires c < 6
    ensures KeyOnChannel(KeyOnCode(c)) == Some(c)
    ensures KeyOnChannel(code) == Some(c) ==> code == KeyOnCode(c)
  {
  }

  /** `((value >>> 4) & 0b1111 & 2^k) == 2^k`: the key bit of operator k. */
  predicate KeyBit(v: Int32, k: nat)
    requires k < 4
  {
    var ops := Field(v, 16, 16);
    Bit(ops, if k == 0 then 1 else if k == 1 then 2 else if k == 2 then 4 else 8)
  }

  /** The key-on register value for channel `c` and the four key bits. */
  function PackKeyOn(c: nat, k0: bool, k1: bool, k2: bool, k3: bool): (v: Int32)
    requires c < 6
    ensures 0 <= v < 256
  {
    (BitValue(k3) * 8 + BitValue(k2) * 4 + BitValue(k1) * 2 + BitValue(k0)) * 16 + KeyOnCode(c)
  }

  /** A packed key-on value selects channel `c` and keys each operator as
      its bit says. */
  lemma KeyOnRoundTrip(c: nat, k0: bool, k1: bool, k2: bool, k3: bool)
    requires c < 6
    ensures var v := PackKeyOn(c, k0, k1, k2, k3);
      KeyOnChannel(Field(v, 1, 8)) == Some(c)
      && KeyBit(v, 0) == k0 && KeyBit(v, 1) == k1 && KeyBit(v, 2) == k2 && KeyBit(v, 3) == k3
  {
    var v := PackKeyOn(c, k0, k1, k2, k3);
    var b0, b1, b2, b3 := BitValue(k0), BitValue(k1), BitValue(k2), BitValue(k3);
    var ops := b3 * 8 + b2 * 4 + b1 * 2 + b0;
    FieldOfPacked(v, 1, 8, ops * 2, KeyOnCode(c), 0);
    FieldOfPacked(v, 16, 16, 0, ops, KeyOnCode(c));
    FieldOfPacked(ops, 1, 2, b3 * 4 + b2 * 2 + b1, b0, 0);
    FieldOfPacked(ops, 2, 2, b3 * 2 + b2, b1, b0);
    FieldOfPacked(ops, 4, 2, b3, b2, b1 * 2 + b0);
    FieldOfPacked(ops, 8, 2, 0, b3, b2 * 4 + b1 * 2 + b0);
  }

  /** A packed mode/timer value sets the mode and exactly those timer bits. */
  lemma TimersAndModeRoundTrip(s: ChipState, special: bool, timers: nat)
    requires timers < 64
    ensures var r := s.SetTimersAndMode(BitValue(special) * 64 + timers);
      r.specialMode == special
      && r.timerBReset * 32 + r.timerAReset * 16 + r.timerBEnable * 8
         + r.timerAEnable * 4 + r.timerBLoad * 2 + r.timerALoad == timers
  {
    var v := BitValue(special) * 64 + timers;
    TimerBitsStored(s, v);
    FieldOfPacked(v, 64, 4, 0, BitValue(special), timers);
    assert ToUnsigned(v) % 64 == timers by {
      DivModUnique(v, 64, BitValue(special), timers);
    }
  }

  /** The mode bits 10 and 11 leave special mode unchanged. */
  lemma InvalidModeKeepsSpecialMode(s: ChipState, timers: nat, high: nat)
    requires timers < 64 && 2 <= high < 4
    ensures s.SetTimersAndMode(high * 64 + timers).specialMode == s.specialMode
  {
    FieldOfPacked(high * 64 + timers, 64, 4, 0, high, timers);
  }

  /** The power-on state: six fresh channels indexed 0..5, all globals zero
      and special mode off. */
  function InitialChip(): ChipState {
    ChipState([InitialChannel(0), InitialChannel(1), InitialChannel(2),
               InitialChannel(3), InitialChannel(4), InitialChannel(5)],
              0, 0, 0, 0, 0, 0, 0, 0, 0, false, 0)
  }

  /** The power-on state is well formed, with channel i in its power-on
      state and index i. */
  lemma InitialChipWellFormed()
    ensures InitialChip().WellFormed() && !InitialChip().specialMode
    ensures forall i :: 0 <= i < 6 ==> InitialChip().channels[i] == InitialChannel(i)
  {
  }
}
