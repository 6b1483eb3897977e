/** The YM2612 interpreter as objects: VGMYM2612Operator, VGMYM2612Channel
    and VGMYM2612Interpreter (and the older VGMInterpreterYM2612, whose
    inner classes hold the same fields and whose switch tables are the same
    case for case).  Every method is proved against the value model of
    YM2612State and YM2612Registers: its effect on `State()` is the
    corresponding function of the old state. */
module YM2612Interpreter {
  import opened JavaInt
  import opened Wrappers
  import opened YM2612Snapshots
  import opened YM2612State
  import opened YM2612Registers

  /** The IllegalArgumentExceptions of `channel(i)` and `operator(i)`. */
  datatype IndexError =
    | IllegalChannel(index: int)
    | InvalidOperator(index: int)

  // ---------------------------------------------------------------------
  // Operators

  /** An operator: its index, the channel it belongs to (a back reference
      in the source, used there for logging only) and its registers. */
  class Operator {
    const index: Int32
    ghost const channel: int
    var pitchMultiply: Int32
    var pitchDetune: Int32
    var volume: Int32
    var rateScale: Int32
    var rateAttack: Int32
    var amplitudeModulation: Int32
    var rateDecay0: Int32
    var rateDecay1: Int32
    var amplitudeSecondary: Int32
    var rateRelease: Int32
    var enabled: bool
    var frequencyLSB: Int32
    var frequencyMSB: Int32
    var frequencyOctave: Int32

    /** The registers as a value. */
    function State(): OperatorState
      reads this
    {
      OperatorState(index, pitchMultiply, pitchDetune, volume, rateScale, rateAttack,
                    amplitudeModulation, rateDecay0, rateDecay1, amplitudeSecondary,
                    rateRelease, enabled, frequencyLSB, frequencyMSB, frequencyOctave)
    }

    /** Every register starts at zero and the operator keyed off. */
    constructor (ghost channel: int, index: Int32)
      ensures this.channel == channel && State() == InitialOperator(index)
    {
      this.index := index;
      this.channel := channel;
      pitchMultiply, pitchDetune, volume, rateScale, rateAttack := 0, 0, 0, 0, 0;
      amplitudeModulation, rateDecay0, rateDecay1 := 0, 0, 0;
      amplitudeSecondary, rateRelease := 0, 0;
      enabled := false;
      frequencyLSB, frequencyMSB, frequencyOctave := 0, 0, 0;
    }

    /** `snapshot()`. */
    function Snapshot(): (r: OperatorSnapshot)
      reads this
      ensures r == State().Snapshot()
    {
      OperatorSnapshot(volume, rateAttack, rateDecay0, amplitudeSecondary,
                       rateDecay1, rateRelease, pitchMultiply, pitchDetune, index)
    }

    method SetDetuneAndMultiple(v: Int32)
      modifies this
      ensures State() == old(State()).SetDetuneAndMultiple(v)
    {
      pitchMultiply := Field(v, 1, 16);
      pitchDetune := Field(v, 16, 8);
    }

    method SetVolumeInverse(v: Int32)
      modifies this
      ensures State() == old(State()).SetVolumeInverse(v)
    {
      volume := v;
    }

    method SetRateScalingAndAttackRate(v: Int32)
      modifies this
      ensures State() == old(State()).SetRateScalingAndAttackRate(v)
    {
      rateScale := Field(v, 64, 4);
      rateAttack := Field(v, 1, 32);
    }

    method SetRateDecayAndAmplitudeModulation(v: Int32)
      modifies this
      ensures State() == old(State()).SetRateDecayAndAmplitudeModulation(v)
    {
      amplitudeModulation := Field(v, 128, 2);
      rateDecay0 := Field(v, 1, 32);
    }

    method SetRateDecaySecondary(v: Int32)
      modifies this
      ensures State() == old(State()).SetRateDecaySecondary(v)
    {
      rateDecay1 := Field(v, 1, 32);
    }

    method SetRateReleaseAndSecondaryAmplitude(v: Int32)
      modifies this
      ensures State() == old(State()).SetRateReleaseAndSecondaryAmplitude(v)
    {
      amplitudeSecondary := Field(v, 16, 16);
      rateRelease := Field(v, 1, 16);
    }

    method SetFrequencyLSB(v: Int32)
      modifies this
      ensures State() == old(State()).SetFrequencyLSB(v)
    {
      frequencyLSB := v;
    }

    method SetFrequencyMSB(v: Int32)
      modifies this
      ensures State() == old(State()).SetFrequencyMSB(v)
    {
      frequencyMSB := Field(v, 1, 8);
      frequencyOctave := Field(v, 8, 8);
    }

    method SetEnabled(e: bool)
      modifies this
      ensures State() == old(State()).SetEnabled(e)
    {
      enabled := e;
    }

    /** The operator block register of `kind`, as the switch cases call it. */
    method Set(kind: OperatorKind, v: Int32)
      modifies this
      ensures State() == SetOperator(old(State()), kind, v)
    {
      match kind
      case DetuneMultiple => SetDetuneAndMultiple(v);
      case VolumeInverse => SetVolumeInverse(v);
      case RateScalingAttack => SetRateScalingAndAttackRate(v);
      case DecayAmplitudeModulation => SetRateDecayAndAmplitudeModulation(v);
      case DecaySecondary => SetRateDecaySecondary(v);
      case ReleaseSecondaryAmplitude => SetRateReleaseAndSecondaryAmplitude(v);
    }

    /** The frequency register, LSB or MSB. */
    method SetFrequency(msb: bool, v: Int32)
      modifies this
      ensures State() == OperatorFrequencySetter(old(State()), msb, v)
    {
      if msb { SetFrequencyMSB(v); } else { SetFrequencyLSB(v); }
    }
  }

  // ---------------------------------------------------------------------
  // Channels

  /** A channel: its index, its four operators (the HashMap keyed 0..3 in
      the source) and its registers. */
  class Channel {
    const index: Int32
    const operators: seq<Operator>
    var frequencyLSB: Int32
    var frequencyMSB: Int32
    var frequencyOctave: Int32
    var feedback: Int32
    var algorithm: Int32
    var stereoLeft: bool
    var stereoRight: bool
    var lfoAmplitudeSensitivity: Int32
    var lfoFrequencySensitivity: Int32

    /** Four operators, each carrying its own index and this channel's. */
    ghost predicate Valid() {
      |operators| == 4
      && forall k :: 0 <= k < 4 ==> operators[k].index == k && operators[k].channel == index
    }

    /** The registers as a value. */
    function State(): (r: ChannelState)
      requires Valid()
      reads this, operators
      ensures r.Shaped() && forall k :: 0 <= k < 4 ==> r.operators[k] == operators[k].State()
    {
      ChannelState(index, seq(4, k requires 0 <= k < 4 reads operators => operators[k].State()),
                   frequencyLSB, frequencyMSB, frequencyOctave, feedback, algorithm,
                   stereoLeft, stereoRight, lfoAmplitudeSensitivity, lfoFrequencySensitivity)
    }

    /** The constructor: four fresh operators 0..3, every register zero. */
    constructor (index: Int32)
      ensures Valid() && this.index == index && State() == InitialChannel(index)
      ensures forall k :: 0 <= k < 4 ==> fresh(operators[k])
    {
      var ops: seq<Operator> := [];
      var k := 0;
      while k < 4
        invariant 0 <= k <= 4 && |ops| == k
        invariant forall j :: 0 <= j < k ==>
          fresh(ops[j]) && ops[j].index == j && ops[j].channel == index
          && ops[j].State() == InitialOperator(j)
      {
        var o := new Operator(index, k);
        ops := ops + [o];
        k := k + 1;
      }
      this.index := index;
      operators := ops;
      frequencyLSB, frequencyMSB, frequencyOctave := 0, 0, 0;
      feedback, algorithm := 0, 0;
      stereoLeft, stereoRight := false, false;
      lfoAmplitudeSensitivity, lfoFrequencySensitivity := 0, 0;
    }

    /** `operator(i)`: operators 0..3, or "Invalid operator index". */
    function Operator(i: int): (r: Result<Operator, IndexError>)
      requires Valid()
      ensures r.Ok? <==> 0 <= i < 4
      ensures r.Ok? ==> r.value == operators[i] && r.value.index == i
      ensures r.Err? ==> r.error == InvalidOperator(i)
    {
      if 0 <= i < |operators| then Ok(operators[i]) else Err(InvalidOperator(i))
    }

    /** `snapshot()`: algorithm, feedback, index and the operator
        snapshots under their indices. */
    function Snapshot(): (r: ChannelSnapshot)
      requires Valid()
      reads this, operators
      ensures r == State().Snapshot()
    {
      var st := State();
      ChannelSnapshot(algorithm, feedback, map k | k in OPERATOR_KEYS :: st.operators[k].Snapshot(), index)
    }

    method SetFrequencyLSB(v: Int32)
      requires Valid()
      modifies this
      ensures State() == old(State()).SetFrequencyLSB(v)
    {
      frequencyLSB := v;
    }

    method SetFrequencyMSB(v: Int32)
      requires Valid()
      modifies this
      ensures State() == old(State()).SetFrequencyMSB(v)
    {
      frequencyMSB := Field(v, 1, 8);
      frequencyOctave := Field(v, 8, 8);
    }

    method SetAlgorithmAndFeedback(v: Int32)
      requires Valid()
      modifies this
      ensures State() == old(State()).SetAlgorithmAndFeedback(v)
    {
      feedback := Field(v, 8, 8);
      algorithm := Field(v, 1, 8);
    }

    method SetStereoAndLFOSensitivity(v: Int32)
      requires Valid()
      modifies this
      ensures State() == old(State()).SetStereoAndLFOSensitivity(v)
    {
      stereoLeft := Bit(v, 128);
      stereoRight := Bit(v, 64);
      lfoAmplitudeSensitivity := Field(v, 8, 8);
      lfoFrequencySensitivity := Field(v, 1, 4);
    }

    /** Writing operators alone leaves the channel's own registers. */
    twostate lemma OnlyOperatorsChanged()
      requires Valid() && unchanged(this)
      ensures State() == old(State()).(operators := State().operators)
    {
    }

    /** Writing operator `op` alone changes only that operator's state. */
    twostate lemma OperatorChanged(op: int)
      requires Valid() && 0 <= op < 4
      requires unchanged(this)
      requires forall k :: 0 <= k < 4 && k != op ==> unchanged(operators[k])
      ensures State() == old(State()).WithOperator(op, operators[op].State())
    {
      forall k | 0 <= k < 4 && k != op ensures operators[k].State() == old(operators[k].State()) {
      }
    }

    /** The frequency register, LSB or MSB. */
    method SetFrequency(msb: bool, v: Int32)
      requires Valid()
      modifies this
      ensures State() == ChannelFrequencySetter(old(State()), msb, v)
    {
      if msb { SetFrequencyMSB(v); } else { SetFrequencyLSB(v); }
    }
  }

  // ---------------------------------------------------------------------
  // The interpreter

  /** The interpreter: six channels (the HashMap keyed 0..5 in the source)
      and the global registers. */
  class Interpreter {
    const channels: seq<Channel>
    var lfoEnable: Int32
    var lfoFrequency: Int32
    var dacEnable: Int32
    var timerBReset: Int32
    var timerAReset: Int32
    var timerBEnable: Int32
    var timerAEnable: Int32
    var timerBLoad: Int32
    var timerALoad: Int32
    var specialMode: bool
    var timerBTime: Int32

    /** Six channels, each carrying its own index; so no two channels and
        no two operators are the same object. */
    ghost predicate Valid() {
      |channels| == 6
      && forall c :: 0 <= c < 6 ==> channels[c].Valid() && channels[c].index == c
    }

    /** The channels and their operators. */
    ghost function Objects(): set<object>
      requires Valid()
    {
      (set c | 0 <= c < 6 :: channels[c])
      + (set c, k | 0 <= c < 6 && 0 <= k < 4 :: channels[c].operators[k])
    }

    /** Every object the interpreter owns. */
    ghost function Repr(): set<object>
      requires Valid()
    {
      {this} + Objects()
    }

    /** The states of channels 0..5. */
    ghost function ChannelStates(): (r: seq<ChannelState>)
      requires Valid()
      reads Objects()
      ensures |r| == 6 && forall c :: 0 <= c < 6 ==> r[c] == channels[c].State()
    {
      seq(6, c requires 0 <= c < 6 reads Objects() => channels[c].State())
    }

    /** The registers as a value. */
    ghost function State(): (r: ChipState)
      requires Valid()
      reads this, Objects()
      ensures r.Shaped() && r.channels == ChannelStates()
    {
      ChipState(ChannelStates(),
                lfoEnable, lfoFrequency, dacEnable, timerBReset, timerAReset,
                timerBEnable, timerAEnable, timerBLoad, timerALoad, specialMode, timerBTime)
    }

    /** The constructor: six fresh channels 0..5, every register zero. */
    constructor ()
      ensures Valid() && State() == InitialChip()
      ensures forall c :: 0 <= c < 6 ==> fresh(channels[c])
      ensures forall c, k :: 0 <= c < 6 && 0 <= k < 4 ==> fresh(channels[c].operators[k])
    {
      var chs := MakeChannels();
      channels := chs;
      lfoEnable, lfoFrequency, dacEnable := 0, 0, 0;
      timerBReset, timerAReset, timerBEnable, timerAEnable, timerBLoad, timerALoad := 0, 0, 0, 0, 0, 0;
      specialMode := false;
      timerBTime := 0;
      new;
      InitialState();
    }

    /** The six channels, each in its power-on state. */
    static method MakeChannels() returns (chs: seq<Channel>)
      ensures |chs| == 6
      ensures forall j :: 0 <= j < 6 ==>
        fresh(chs[j]) && chs[j].Valid() && chs[j].index == j && chs[j].State() == InitialChannel(j)
      ensures forall j, k :: 0 <= j < 6 && 0 <= k < 4 ==> chs[j].Valid() && fresh(chs[j].operators[k])
    {
      chs := [];
      var c := 0;
      while c < 6
        invariant 0 <= c <= 6 && |chs| == c
        invariant forall j :: 0 <= j < c ==>
          fresh(chs[j]) && chs[j].Valid() && chs[j].index == j && chs[j].State() == InitialChannel(j)
        invariant forall j, k :: 0 <= j < c && 0 <= k < 4 ==> fresh(chs[j].operators[k])
      {
        var ch := new Channel(c);
        chs := chs + [ch];
        c := c + 1;
      }
    }

    /** Objects allocated during a constructor call. */
    static twostate lemma FreshObjects(new i: Interpreter)
      requires i.Valid()
      requires forall c :: 0 <= c < 6 ==> fresh(i.channels[c])
      requires forall c, k :: 0 <= c < 6 && 0 <= k < 4 ==> fresh(i.channels[c].operators[k])
      ensures fresh(i.Objects())
    {
    }

    /** The power-on values of the globals and channels make up the
        initial chip. */
    lemma InitialState()
      requires Valid()
      requires forall c :: 0 <= c < 6 ==> channels[c].State() == InitialChannel(c)
      requires lfoEnable == 0 && lfoFrequency == 0 && dacEnable == 0 && timerBTime == 0 && !specialMode
      requires timerBReset == 0 && timerAReset == 0 && timerBEnable == 0 && timerAEnable == 0
      requires timerBLoad == 0 && timerALoad == 0
      ensures State() == InitialChip()
    {
      forall c | 0 <= c < 6 ensures ChannelStates()[c] == InitialChip().channels[c] { }
      assert ChannelStates() == InitialChip().channels;
    }

    /** `channel(c).snapshot()` for each channel c = 0..5. */
    function ChannelSnapshots(): (r: seq<ChannelSnapshot>)
      requires Valid()
      reads this, Objects()
      ensures r == State().Snapshots()
    {
      var r := seq(6, c requires 0 <= c < 6 reads Objects() => channels[c].Snapshot());
      assert forall c | 0 <= c < 6 :: r[c] == State().Snapshots()[c] by {
        forall c | 0 <= c < 6 ensures r[c] == State().Snapshots()[c] {
          calc {
            r[c];
            channels[c].Snapshot();
            channels[c].State().Snapshot();
            { assert State().channels[c] == channels[c].State(); }
            State().channels[c].Snapshot();
            State().Snapshots()[c];
          }
        }
      }
      r
    }

    /** `channel(i)`: channels 0..5, or "Illegal channel index". */
    function Channel(i: int): (r: Result<Channel, IndexError>)
      requires Valid()
      ensures r.Ok? <==> 0 <= i < 6
      ensures r.Ok? ==> r.value == channels[i] && r.value.index == i
      ensures r.Err? ==> r.error == IllegalChannel(i)
    {
      if 0 <= i < |channels| then Ok(channels[i]) else Err(IllegalChannel(i))
    }

    /** Writing nothing but the interpreter's own fields leaves every
        channel as it was. */
    twostate lemma ChannelsUnchanged()
      requires Valid()
      requires forall c :: 0 <= c < 6 ==> unchanged(channels[c]) && unchanged(channels[c].operators)
      ensures ChannelStates() == old(ChannelStates())
    {
      assert channels[0].State() == old(channels[0].State());
      assert channels[1].State() == old(channels[1].State());
      assert channels[2].State() == old(channels[2].State());
      assert channels[3].State() == old(channels[3].State());
      assert channels[4].State() == old(channels[4].State());
      assert channels[5].State() == old(channels[5].State());
    }

    /** Writing none of the interpreter's objects leaves its state as it
        was. */
    twostate lemma StateUnchanged()
      requires Valid() && unchanged(this)
      requires forall c :: 0 <= c < 6 ==> unchanged(channels[c]) && unchanged(channels[c].operators)
      ensures State() == old(State())
    {
      ChannelsUnchanged();
    }

    /** Writing the objects of channel `c` alone changes only that
        channel's state. */
    twostate lemma OneChannelChanged(c: int)
      requires Valid() && 0 <= c < 6
      requires unchanged(this)
      requires forall j :: 0 <= j < 6 && j != c ==> unchanged(channels[j]) && unchanged(channels[j].operators)
      ensures State() == old(State()).WithChannel(c, channels[c].State())
    {
      forall j | 0 <= j < 6 && j != c ensures channels[j].State() == old(channels[j].State()) {
      }
    }

    /** `setLFO` (port 0, 0x22). */
    method SetLFO(v: Int32)
      requires Valid()
      modifies this
      ensures State() == old(State()).SetLFO(v)
    {
      lfoEnable := Field(v, 8, 2);
      lfoFrequency := Field(v, 1, 8);
      ChannelsUnchanged();
    }

    /** `setTimerBTime` (port 0, 0x26). */
    method SetTimerBTime(v: Int32)
      requires Valid()
      modifies this
      ensures State() == old(State()).SetTimerBTime(v)
    {
      timerBTime := v;
      ChannelsUnchanged();
    }

    /** `setDAC` (port 0, 0x2B). */
    method SetDAC(v: Int32)
      requires Valid()
      modifies this
      ensures State() == old(State()).SetDAC(v)
    {
      dacEnable := Field(v, 128, 2);
      ChannelsUnchanged();
    }

    /** `setTimersAndChannel3_6Mode` (port 0, 0x27). */
    method SetTimersAndMode(v: Int32)
      requires Valid()
      modifies this
      ensures State() == old(State()).SetTimersAndMode(v)
    {
      var mode := Field(v, 64, 4);
      specialMode := if mode == 0 then false else if mode == 1 then true else specialMode;
      timerBReset := Field(v, 32, 2);
      timerAReset := Field(v, 16, 2);
      timerBEnable := Field(v, 8, 2);
      timerAEnable := Field(v, 4, 2);
      timerBLoad := Field(v, 2, 2);
      timerALoad := Field(v, 1, 2);
      ChannelsUnchanged();
    }

    /** `setKeyOnOff` (port 0, 0x28). */
    method SetKeyOnOff(v: Int32)
      requires Valid()
      modifies Objects()
      ensures State() == old(State()).SetKeyOnOff(v)
    {
      var code := Field(v, 1, 8);
      var index: int;
      if code == 0 {
        index := 0;
      } else if code == 1 {
        index := 1;
      } else if code == 2 {
        index := 2;
      } else if code == 4 {
        index := 3;
      } else if code == 5 {
        index := 4;
      } else if code == 6 {
        index := 5;
      } else {
        assert KeyOnChannel(code).None?;
        return;
      }
      assert KeyOnChannel(code) == Some(index);
      KeyOperators(channels[index], v);
      OneChannelChanged(index);
    }

    /** The four `setEnabled` calls of `setKeyOnOff` on the selected
        channel. */
    method KeyOperators(ch: Channel, v: Int32)
      requires ch.Valid()
      modifies ch.operators
      ensures ch.State() == old(ch.State()).KeyOn(v)
    {
      ch.operators[0].SetEnabled(KeyBit(v, 0));
      ch.operators[1].SetEnabled(KeyBit(v, 1));
      ch.operators[2].SetEnabled(KeyBit(v, 2));
      ch.operators[3].SetEnabled(KeyBit(v, 3));
      ch.OnlyOperatorsChanged();
      ghost var keyed := old(ch.State()).KeyOn(v);
      forall k | 0 <= k < 4 ensures ch.State().operators[k] == keyed.operators[k] {
        assert keyed.operators[k] == old(ch.operators[k].State()).SetEnabled(KeyBit(v, k));
      }
      assert ch.State().operators == keyed.operators;
    }

    /** An operator block register of operator `op` of channel `c`. */
    method WriteOperator(c: int, op: int, kind: OperatorKind, v: Int32)
      requires Valid() && 0 <= c < 6 && 0 <= op < 4
      modifies channels[c].operators[op]
      ensures State() == Apply(old(State()), OperatorRegister(c, op, kind), v)
    {
      var ch := channels[c];
      ch.operators[op].Set(kind, v);
      ch.OperatorChanged(op);
      OneChannelChanged(c);
    }

    /** The frequency register of operator `op` of channel `c`. */
    method WriteOperatorFrequency(c: int, op: int, msb: bool, v: Int32)
      requires Valid() && 0 <= c < 6 && 0 <= op < 4
      modifies channels[c].operators[op]
      ensures State() == old(State()).WithOperator(c, op,
                OperatorFrequencySetter(old(State()).channels[c].operators[op], msb, v))
    {
      var ch := channels[c];
      ch.operators[op].SetFrequency(msb, v);
      ch.OperatorChanged(op);
      OneChannelChanged(c);
    }

    /** The frequency register of channel `c`. */
    method WriteChannelFrequency(c: int, msb: bool, v: Int32)
      requires Valid() && 0 <= c < 6
      modifies channels[c]
      ensures State() == old(State()).WithChannel(c, ChannelFrequencySetter(old(State()).channels[c], msb, v))
    {
      channels[c].SetFrequency(msb, v);
      OneChannelChanged(c);
    }

    /** The algorithm/feedback register of channel `c`. */
    method WriteAlgorithmFeedback(c: int, v: Int32)
      requires Valid() && 0 <= c < 6
      modifies channels[c]
      ensures State() == Apply(old(State()), AlgorithmFeedback(c), v)
    {
      channels[c].SetAlgorithmAndFeedback(v);
      OneChannelChanged(c);
    }

    /** The stereo/LFO sensitivity register of channel `c`. */
    method WriteStereoLFO(c: int, v: Int32)
      requires Valid() && 0 <= c < 6
      modifies channels[c]
      ensures State() == Apply(old(State()), StereoLFO(c), v)
    {
      channels[c].SetStereoAndLFOSensitivity(v);
      OneChannelChanged(c);
    }

    /** Applies the case for `t`, as the switch of either port does; the
        shared frequency registers consult the special-mode flag. */
    method Perform(t: Target, v: Int32)
      requires Valid() && t.InRange()
      modifies Repr()
      ensures State() == Apply(old(State()), t, v)
    {
      match t
      case Unrecognized =>
      case Proprietary =>
      case DACData =>
      case LFO => SetLFO(v);
      case TimerBTime => SetTimerBTime(v);
      case TimersAndMode => SetTimersAndMode(v);
      case KeyOnOff => SetKeyOnOff(v);
      case DACEnable => SetDAC(v);
      case OperatorRegister(c, op, kind) => WriteOperator(c, op, kind, v);
      case ChannelFrequency(c, msb) => WriteChannelFrequency(c, msb, v);
      case SharedFrequency(c, msb) =>
        if specialMode {
          WriteOperatorFrequency(c, 0, msb, v);
        } else {
          WriteChannelFrequency(c, msb, v);
        }
      case OperatorFrequency(c, op, msb) => WriteOperatorFrequency(c, op, msb, v);
      case AlgorithmFeedback(c) => WriteAlgorithmFeedback(c, v);
      case StereoLFO(c) => WriteStereoLFO(c, v);
    }

    /** `writeRegisterPort0`: the switch on `register & 0xff`, which never
        fails. */
    method WriteRegisterPort0(register: Int32, value: Int32)
      requires Valid()
      modifies Repr()
      ensures State() == Write(old(State()), 0, register, value)
    {
      var r := Field(register, 1, 256);
      var t := Port0Table(r);
      Port0TableAgrees(r);
      Perform(t, value);
    }

    /** `writeRegisterPort1`: the same for the upper three channels. */
    method WriteRegisterPort1(register: Int32, value: Int32)
      requires Valid()
      modifies Repr()
      ensures State() == Write(old(State()), 1, register, value)
    {
      var r := Field(register, 1, 256);
      var t := Port1Table(r);
      Port1TableAgrees(r);
      Perform(t, value);
    }
  }
}
