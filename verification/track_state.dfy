/**
 The data model of one tracking channel of the correlator, the hardware
 writes the tracking code issues, and the external numeric engines it
 calls (loop filter, C/N0 estimator, alias detector, navigation-message
 decoder). The engines' internals are out of scope: their states are
 opaque types and their operations are the function-valued fields of
 `Engines`, so every property proved here holds for every engine.
 */
module TrackState {
  import opened FixedWidth
  import opened LoopParams

  /** Milliseconds in one GPS week; time of week wraps here. */
  const WEEK_MS: nat := 7 * 24 * 60 * 60 * 1000
  /** Sentinel for an unknown time of week. */
  const TOW_INVALID: int := -1
  /** The start time handed to initialisation is referenced to the prompt
      tap; the channel is armed half a chip earlier, on the early tap, at
      16 samples per chip. */
  const EARLY_TAP_OFFSET_SAMPLES: nat := 8

  datatype TrackingState = Disabled | Running

  /** One correlator output, in-phase and quadrature. */
  datatype Corr = Corr(i: int, q: int)

  /** The three correlator taps, as the hardware orders them. */
  datatype Corrs = Corrs(early: Corr, prompt: Corr, late: Corr)

  datatype BitPolarity = PolarityUnknown | PolarityNormal | PolarityInverted

  /** Internal state of the navigation-message decoder. */
  type NavDecoder(==, !new)
  /** Internal state of the aided code/carrier loop filter. */
  type LoopFilter(==, !new)
  /** Internal state of the C/N0 estimator. */
  type Cn0Estimator(==, !new)
  /** Internal state of the alias detector beyond its first-half capture. */
  type AliasHistory(==, !new)

  /** The decoder fields the tracking code reads or writes itself. */
  datatype NavMsg = NavMsg(bitPolarity: BitPolarity, bitPhase: int, bitPhaseRef: int, decoder: NavDecoder)

  /** The alias detector; `firstI`/`firstQ` hold the first-sub-interval
      prompt capture that the tracking code reads back. */
  datatype AliasDetect = AliasDetect(firstI: int, firstQ: int, history: AliasHistory)

  /** The state of one tracking channel. Rates and phases are the
      fixed-point register values; `...Prev` is the rate the hardware
      actually integrated over the interval just ended. */
  datatype Channel = Channel(
    state: TrackingState,
    prn: u8,
    stage: nat,
    intMs: u8,
    shortCycle: bool,
    updateCount: u32,
    modeChangeCount: u32,
    codePhaseRateFp: u32,
    codePhaseRateFpPrev: u32,
    carrierFreqFp: s32,
    carrierFreqFpPrev: s32,
    codePhaseEarly: u64,
    carrierPhase: int,
    sampleCount: u32,
    corrSampleCount: u32,
    cs: Corrs,
    towMs: int,
    cn0: real,
    lockCounter: u16,
    snrAboveCount: nat,
    snrBelowCount: nat,
    outputIq: bool,
    nav: NavMsg,
    alias: AliasDetect,
    loop: LoopFilter,
    cn0Est: Cn0Estimator)

  /** One correlator read-out: samples elapsed since the last one, and the
      three taps. */
  datatype Dump = Dump(sampleCount: u32, cs: Corrs)

  /** Register writes and strobes issued to the correlator, in order. */
  datatype NapWrite =
    | CodeWr(channel: u8, prn: u8)
      /** Initial code and carrier phase, both zero here. */
    | InitWr(channel: u8, prn: u8)
    | UpdateWr(channel: u8, carrierFreqFp: s32, codePhaseRateFp: u32, cycles: u8)
    | TimingStrobe(sampleCount: u32)

  datatype LoopOutput = LoopOutput(filter: LoopFilter, carrierFreqFp: s32, codePhaseRateFp: u32)
  datatype NavOutput = NavOutput(nav: NavMsg, towMs: int)
  datatype Cn0Output = Cn0Output(est: Cn0Estimator, cn0: real)
  datatype AliasOutput = AliasOutput(detect: AliasDetect, err: real)

  /** The external numeric engines.
      - `loopInit(params, carrierFreq)`: a fresh loop filter;
      - `loopUpdate(filter, taps)`: one filter step on taps ordered
        (late, prompt, early), returning the new carrier frequency and code
        rate already converted to register units;
      - `loopRetune(filter, params)`: new coefficients, state kept;
      - `loopAliasCorrect(filter, err)`: adds `err` Hz to the carrier
        frequency and forces the carrier filter's state to it;
      - `cn0Init(coherentMs, seed)` and `cn0Update(est, i, q)`;
      - `aliasInit(coherentMs)`, `aliasFirst(det, i, q)` (records the first
        capture) and `aliasSecond(det, i, q)` (frequency error in Hz);
      - `navInit` and `navUpdate(nav, promptI, coherentMs)`, whose second
        result is a time of week, or a value not above zero when none was
        decoded. */
  datatype Engines = Engines(
    loopInit: (LoopParams, real) -> LoopFilter,
    loopUpdate: (LoopFilter, Corrs) -> LoopOutput,
    loopRetune: (LoopFilter, LoopParams) -> LoopFilter,
    loopAliasCorrect: (LoopFilter, real) -> LoopFilter,
    cn0Init: (u8, real) -> Cn0Estimator,
    cn0Update: (Cn0Estimator, int, int) -> Cn0Output,
    aliasInit: u8 -> AliasDetect,
    aliasFirst: (AliasDetect, int, int) -> AliasDetect,
    aliasSecond: (AliasDetect, int, int) -> AliasOutput,
    navInit: NavMsg,
    navUpdate: (NavMsg, int, u8) -> NavOutput)

  /** A time of week is either the sentinel or a millisecond of the week. */
  predicate ValidTow(t: int) {
    t == TOW_INVALID || 0 <= t < WEEK_MS
  }

  /** The decoder only ever reports times inside one week. */
  ghost predicate DecoderTowInWeek(e: Engines) {
    forall n: NavMsg, i: int, ms: u8 :: e.navUpdate(n, i, ms).towMs < WEEK_MS
  }

  /** What holds of every channel the tracking code produces:
      a supported coherent length, `shortCycle` set whenever it plays no
      part (1 ms integration), stage 0 integrating for 1 ms, and a valid
      time of week. */
  predicate WellFormed(c: Channel) {
    && ValidCoherentMs(c.intMs)
    && (c.intMs == 1 ==> c.shortCycle)
    && c.stage <= 1
    && (c.stage == 0 ==> c.intMs == 1)
    && ValidTow(c.towMs)
  }
}
