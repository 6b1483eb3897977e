/** The VGM header record (VGMHeaderType) and the builder that makes it:
    five mandatory attributes, eight optional ones and four with defaults. */
module Header {
  import opened Wrappers

  datatype Header = Header(
    eofOffset: int,
    version: int,
    offsetGD3: Option<int>,
    sampleCount: int,
    loopOffset: Option<int>,
    loopSampleCount: Option<int>,
    rate: int,
    chipYM2413Clock: Option<int>,
    chipSN76489Clock: Option<int>,
    chipSN76489Feedback: int,
    chipSN76489ShiftRegisterWidth: int,
    chipSN76489Flags: int,
    chipYM2612Clock: Option<int>,
    chipYM2151Clock: Option<int>,
    dataOffset: int,
    chipSegaPCMClock: Option<int>,
    chipSegaPCMInterfaceRegister: int)

  /** Default values of the attributes declared with a default method. */
  const DEFAULT_SN76489_FEEDBACK: int := 0x0009
  const DEFAULT_SN76489_SHIFT_REGISTER_WIDTH: int := 16
  const DEFAULT_SN76489_FLAGS: int := 0
  const DEFAULT_SEGA_PCM_INTERFACE_REGISTER: int := 0

  /** The generated builder: every attribute unset until its setter runs. */
  datatype Builder = Builder(
    eofOffset: Option<int>,
    version: Option<int>,
    offsetGD3: Option<int>,
    sampleCount: Option<int>,
    loopOffset: Option<int>,
    loopSampleCount: Option<int>,
    rate: Option<int>,
    chipYM2413Clock: Option<int>,
    chipSN76489Clock: Option<int>,
    chipSN76489Feedback: Option<int>,
    chipSN76489ShiftRegisterWidth: Option<int>,
    chipSN76489Flags: Option<int>,
    chipYM2612Clock: Option<int>,
    chipYM2151Clock: Option<int>,
    dataOffset: Option<int>,
    chipSegaPCMClock: Option<int>,
    chipSegaPCMInterfaceRegister: Option<int>)

  const EMPTY: Builder :=
    Builder(None, None, None, None, None, None, None, None, None,
            None, None, None, None, None, None, None, None)

  /** The IllegalStateException of `build()`, naming the unset mandatory
      attributes. */
  datatype BuildError = MissingAttributes(names: seq<string>)

  /** The mandatory attributes that are still unset, in declaration order. */
  function Missing(b: Builder): seq<string> {
    (if b.eofOffset.None? then ["eofOffset"] else [])
    + (if b.version.None? then ["version"] else [])
    + (if b.sampleCount.None? then ["sampleCount"] else [])
    + (if b.rate.None? then ["rate"] else [])
    + (if b.dataOffset.None? then ["dataOffset"] else [])
  }

  function Or(o: Option<int>, d: int): int {
    if o.Some? then o.value else d
  }

  /** `build()`: fails while a mandatory attribute is unset; otherwise
      copies every attribute, filling unset defaulted ones in. */
  function Build(b: Builder): (r: Result<Header, BuildError>)
    ensures r.Ok? <==> b.eofOffset.Some? && b.version.Some? && b.sampleCount.Some?
                       && b.rate.Some? && b.dataOffset.Some?
    ensures r.Err? ==>
      && ("eofOffset" in r.error.names <==> b.eofOffset.None?)
      && ("version" in r.error.names <==> b.version.None?)
      && ("sampleCount" in r.error.names <==> b.sampleCount.None?)
      && ("rate" in r.error.names <==> b.rate.None?)
      && ("dataOffset" in r.error.names <==> b.dataOffset.None?)
    ensures r.Ok? ==>
      && r.value.eofOffset == b.eofOffset.value && r.value.version == b.version.value
      && r.value.sampleCount == b.sampleCount.value && r.value.rate == b.rate.value
      && r.value.dataOffset == b.dataOffset.value
      && r.value.offsetGD3 == b.offsetGD3 && r.value.loopOffset == b.loopOffset
      && r.value.loopSampleCount == b.loopSampleCount
      && r.value.chipYM2413Clock == b.chipYM2413Clock && r.value.chipSN76489Clock == b.chipSN76489Clock
      && r.value.chipYM2612Clock == b.chipYM2612Clock && r.value.chipYM2151Clock == b.chipYM2151Clock
      && r.value.chipSegaPCMClock == b.chipSegaPCMClock
      && r.value.chipSN76489Feedback == Or(b.chipSN76489Feedback, DEFAULT_SN76489_FEEDBACK)
      && r.value.chipSN76489ShiftRegisterWidth
         == Or(b.chipSN76489ShiftRegisterWidth, DEFAULT_SN76489_SHIFT_REGISTER_WIDTH)
      && r.value.chipSN76489Flags == Or(b.chipSN76489Flags, DEFAULT_SN76489_FLAGS)
      && r.value.chipSegaPCMInterfaceRegister
         == Or(b.chipSegaPCMInterfaceRegister, DEFAULT_SEGA_PCM_INTERFACE_REGISTER)
  {
    if Missing(b) != [] then Err(MissingAttributes(Missing(b)))
    else Ok(Header(
      b.eofOffset.value, b.version.value, b.offsetGD3, b.sampleCount.value,
      b.loopOffset, b.loopSampleCount, b.rate.value, b.chipYM2413Clock,
      b.chipSN76489Clock,
      Or(b.chipSN76489Feedback, DEFAULT_SN76489_FEEDBACK),
      Or(b.chipSN76489ShiftRegisterWidth, DEFAULT_SN76489_SHIFT_REGISTER_WIDTH),
      Or(b.chipSN76489Flags, DEFAULT_SN76489_FLAGS),
      b.chipYM2612Clock, b.chipYM2151Clock, b.dataOffset.value,
      b.chipSegaPCMClock,
      Or(b.chipSegaPCMInterfaceRegister, DEFAULT_SEGA_PCM_INTERFACE_REGISTER)))
  }

  /** Attributes with a default read 0x0009, 16, 0 and 0 when never set, and
      the set value otherwise. */
  lemma BuildDefaults(b: Builder)
    requires Build(b).Ok?
    ensures b.chipSN76489Feedback.None? ==> Build(b).value.chipSN76489Feedback == 0x0009
    ensures b.chipSN76489ShiftRegisterWidth.None? ==> Build(b).value.chipSN76489ShiftRegisterWidth == 16
    ensures b.chipSN76489Flags.None? ==> Build(b).value.chipSN76489Flags == 0
    ensures b.chipSegaPCMInterfaceRegister.None? ==> Build(b).value.chipSegaPCMInterfaceRegister == 0
    ensures b.chipSN76489Feedback.Some? ==> Build(b).value.chipSN76489Feedback == b.chipSN76489Feedback.value
    ensures b.chipSN76489ShiftRegisterWidth.Some? ==>
      Build(b).value.chipSN76489ShiftRegisterWidth == b.chipSN76489ShiftRegisterWidth.value
    ensures b.chipSN76489Flags.Some? ==> Build(b).value.chipSN76489Flags == b.chipSN76489Flags.value
    ensures b.chipSegaPCMInterfaceRegister.Some? ==>
      Build(b).value.chipSegaPCMInterfaceRegister == b.chipSegaPCMInterfaceRegister.value
  {
  }

  /** Optional attributes stay absent unless set: a header built from only
      the five mandatory attributes has no GD3 offset, loop or chip clock. */
  lemma OptionalsStayAbsent(eof: int, version: int, samples: int, rate: int, data: int)
    ensures var b := EMPTY.(eofOffset := Some(eof), version := Some(version),
                             sampleCount := Some(samples), rate := Some(rate),
                             dataOffset := Some(data));
            Build(b).Ok? && Build(b).value.offsetGD3.None? && Build(b).value.loopOffset.None?
            && Build(b).value.loopSampleCount.None?
            && Build(b).value.chipYM2413Clock.None? && Build(b).value.chipSN76489Clock.None?
            && Build(b).value.chipYM2612Clock.None? && Build(b).value.chipYM2151Clock.None?
            && Build(b).value.chipSegaPCMClock.None?
  {
  }
}
