/**
 The tracking-channel controller: initialisation, correlator read-out, the
 per-interrupt update cycle, disable, the carrier-phase ambiguity reset and
 the state snapshot. Every operation is a pure function from the channel
 (and, where the source touches it, the per-satellite lock-counter table)
 to the new channel and the correlator writes it issues, in order.
 */
module Track {
  import opened FixedWidth
  import opened LoopParams
  import opened TrackState

  /** A channel after an operation, and the correlator writes it issued. */
  datatype Step = Step(chan: Channel, writes: seq<NapWrite>)

  /** A channel and the lock-counter table after an ambiguity reset. */
  datatype WithLocks = WithLocks(chan: Channel, locks: seq<u16>)

  datatype InitResult = InitResult(chan: Channel, locks: seq<u16>, writes: seq<NapWrite>)

  /** One entry of the tracking-state report. */
  datatype ChannelReport = ChannelReport(state: TrackingState, sid: u8, cn0: real)

  /** The C/N0 reported for a channel that is not running. */
  const CN0_NOT_TRACKING: real := -1.0

  // ---------------------------------------------------------------------
  // Ambiguity reset, initialisation, disable
  // ---------------------------------------------------------------------

  /** Marks the carrier-phase ambiguity unknown: the half-cycle polarity is
      forgotten and the satellite's lock counter moves on (16-bit, so it
      wraps), the channel taking a copy of the new value. */
  function AmbiguityUnknown(c: Channel, locks: seq<u16>): (r: WithLocks)
    requires c.prn < |locks|
    ensures |r.locks| == |locks|
    ensures r.locks[c.prn] == ToU16(locks[c.prn] as int + 1)
    ensures forall p :: 0 <= p < |locks| && p != c.prn ==> r.locks[p] == locks[p]
    ensures r.chan.lockCounter == r.locks[c.prn]
    ensures r.chan.nav.bitPolarity == PolarityUnknown
    ensures r.chan == c.(lockCounter := r.chan.lockCounter, nav := c.nav.(bitPolarity := PolarityUnknown))
  {
    var n := ToU16(locks[c.prn] as int + 1);
    WithLocks(c.(lockCounter := n, nav := c.nav.(bitPolarity := PolarityUnknown)), locks[c.prn := n])
  }

  /** Starts tracking satellite `prn` on channel `ch` from the start time
      `startSampleCount` (referenced to the prompt tap), with the carrier
      frequency estimate and its register values `carrierFreqFp` and
      `codePhaseRateFp` (the carrier-aided code rate). */
  function Init(ch: u8, c: Channel, locks: seq<u16>, prn: u8, carrierFreq: real,
                carrierFreqFp: s32, codePhaseRateFp: u32, startSampleCount: u32,
                cn0Init: real, cfg: StagePair, e: Engines): (r: InitResult)
    requires prn < |locks|
    ensures r.chan.state == Running && r.chan.prn == prn
    ensures r.chan.stage == 0 && r.chan.intMs == cfg.first.coherentMs && r.chan.shortCycle
    ensures r.chan.updateCount == 0 && r.chan.modeChangeCount == 0
    ensures r.chan.towMs == TOW_INVALID
    ensures r.chan.codePhaseEarly == 0 && r.chan.carrierPhase == 0
    ensures r.chan.codePhaseRateFp == codePhaseRateFp && r.chan.codePhaseRateFpPrev == codePhaseRateFp
    ensures r.chan.carrierFreqFp == carrierFreqFp && r.chan.carrierFreqFpPrev == carrierFreqFp
    ensures (r.chan.sampleCount + EARLY_TAP_OFFSET_SAMPLES) % U32_MOD == startSampleCount
    ensures r.chan.nav == e.navInit
    ensures r.chan.alias == e.aliasInit(cfg.second.coherentMs)
    // the engines start from the stage-0 parameters, the carrier estimate
    // and the C/N0 seed, and the SNR threshold counters restart
    ensures r.chan.loop == e.loopInit(cfg.first, carrierFreq)
    ensures r.chan.cn0Est == e.cn0Init(cfg.first.coherentMs, cn0Init)
    ensures r.chan.snrAboveCount == 0 && r.chan.snrBelowCount == 0
    ensures r.locks == locks[prn := ToU16(locks[prn] as int + 1)]
    ensures r.chan.lockCounter == r.locks[prn]
    // read-out state and the last C/N0 are not reset
    ensures r.chan.cs == c.cs && r.chan.corrSampleCount == c.corrSampleCount
    ensures r.chan.cn0 == c.cn0 && r.chan.outputIq == c.outputIq
    ensures r.writes == [CodeWr(ch, prn), InitWr(ch, prn),
                         UpdateWr(ch, carrierFreqFp, codePhaseRateFp, 0),
                         TimingStrobe(r.chan.sampleCount)]
    ensures ValidConfig(cfg) ==> WellFormed(r.chan)
  {
    var sampleCount := ToU32(startSampleCount - EARLY_TAP_OFFSET_SAMPLES);
    var c1 := c.(state := Running, prn := prn, updateCount := 0, modeChangeCount := 0, stage := 0);
    var reset := AmbiguityUnknown(c1, locks);
    var l := cfg.first;
    var c2 := reset.chan.(
      towMs := TOW_INVALID,
      snrAboveCount := 0, snrBelowCount := 0,
      loop := e.loopInit(l, carrierFreq),
      intMs := l.coherentMs,
      codePhaseEarly := 0,
      codePhaseRateFp := codePhaseRateFp, codePhaseRateFpPrev := codePhaseRateFp,
      carrierPhase := 0,
      carrierFreqFp := carrierFreqFp, carrierFreqFpPrev := carrierFreqFp,
      sampleCount := sampleCount,
      nav := e.navInit,
      shortCycle := true,
      cn0Est := e.cn0Init(l.coherentMs, cn0Init),
      alias := e.aliasInit(cfg.second.coherentMs));
    InitResult(c2, reset.locks,
               [CodeWr(ch, prn), InitWr(ch, prn),
                UpdateWr(ch, carrierFreqFp, codePhaseRateFp, 0),
                TimingStrobe(sampleCount)])
  }

  /** Zeroes the channel's rates, which stops its interrupts, and marks it
      disabled; nothing else about the channel changes. */
  function Disable(ch: u8, c: Channel): (r: Step)
    ensures r.chan.state == Disabled
    ensures r.chan == c.(state := Disabled)
    ensures r.writes == [UpdateWr(ch, 0, 0, 0)]
  {
    Step(c.(state := Disabled), [UpdateWr(ch, 0, 0, 0)])
  }

  // ---------------------------------------------------------------------
  // Correlator read-out
  // ---------------------------------------------------------------------

  function AddCorr(a: Corr, b: Corr): Corr {
    Corr(a.i + b.i, a.q + b.q)
  }

  function AddCorrs(a: Corrs, b: Corrs): Corrs {
    Corrs(AddCorr(a.early, b.early), AddCorr(a.prompt, b.prompt), AddCorr(a.late, b.late))
  }

  /** A read-out that completes the long half of a pair is added to the
      short half's taps instead of replacing them. */
  predicate Accumulates(c: Channel) {
    c.intMs > 1 && !c.shortCycle
  }

  /** Reads one correlator dump into a running channel: added to the stored
      taps on the long half, otherwise stored afresh with the prompt tap
      handed to the alias detector as its first-half capture. A channel that
      is not running is left alone. */
  function GetCorrs(c: Channel, d: Dump, e: Engines): (r: Channel)
    ensures !c.state.Running? ==> r == c
    ensures c.state.Running? ==> r.corrSampleCount == d.sampleCount
    ensures c.state.Running? && Accumulates(c) ==>
              && r.cs.early == Corr(c.cs.early.i + d.cs.early.i, c.cs.early.q + d.cs.early.q)
              && r.cs.prompt == Corr(c.cs.prompt.i + d.cs.prompt.i, c.cs.prompt.q + d.cs.prompt.q)
              && r.cs.late == Corr(c.cs.late.i + d.cs.late.i, c.cs.late.q + d.cs.late.q)
              && r.alias == c.alias
    ensures c.state.Running? && !Accumulates(c) ==>
              r.cs == d.cs && r.alias == e.aliasFirst(c.alias, d.cs.prompt.i, d.cs.prompt.q)
    ensures r == c.(corrSampleCount := r.corrSampleCount, cs := r.cs, alias := r.alias)
  {
    match c.state
    case Running =>
      if Accumulates(c) then
        c.(corrSampleCount := d.sampleCount, cs := AddCorrs(c.cs, d.cs))
      else
        c.(corrSampleCount := d.sampleCount, cs := d.cs,
           alias := e.aliasFirst(c.alias, d.cs.prompt.i, d.cs.prompt.q))
    case Disabled => c
  }

  // ---------------------------------------------------------------------
  // The update cycle
  // ---------------------------------------------------------------------

  /** Milliseconds a half-cycle spans: 1 for the short half, the remaining
      `intMs - 1` for the long half. */
  function TowStep(shortCycle: bool, intMs: u8): int
    requires intMs >= 1
  {
    if shortCycle then 1 else intMs - 1
  }

  /** Advances a known time of week by one half-cycle, wrapping at one
      week; the sentinel stays the sentinel. */
  function AdvanceTow(tow: int, shortCycle: bool, intMs: u8): (r: int)
    requires intMs >= 1
    ensures tow == TOW_INVALID ==> r == TOW_INVALID
    ensures 0 <= tow ==> r == (tow + TowStep(shortCycle, intMs)) % WEEK_MS
    ensures ValidTow(tow) ==> ValidTow(r)
  {
    if tow != TOW_INVALID then CRem(tow + TowStep(shortCycle, intMs), WEEK_MS) else tow
  }

  /** Adopts the decoder's time of week whenever it reports one: the decoder
      is authoritative. */
  function AdoptTow(known: int, decoded: int): (r: int)
    ensures decoded > 0 ==> r == decoded
    ensures decoded <= 0 ==> r == known
  {
    if decoded > 0 && known != decoded then decoded else known
  }

  /** The cycle-length register field: the hardware integrates for one
      more millisecond than it is told, and the long half spans
      `intMs - 1` milliseconds. */
  function CycleField(intMs: u8): (f: u8)
    requires intMs >= 1
    ensures intMs == 1 ==> f + 1 == 1
    ensures intMs > 1 ==> f + 1 == TowStep(false, intMs)
  {
    if intMs == 1 then 0 else intMs - 2
  }

  /** Swaps (early, prompt, late) into the loop filter's (late, prompt,
      early) order. */
  function LoopFilterOrder(cs: Corrs): Corrs {
    Corrs(cs.late, cs.prompt, cs.early)
  }

  /** The false-lock test: an alias frequency error above `250 / intMs` Hz,
      the quotient taken in integers as the source does. */
  predicate FalseLock(err: real, intMs: u8)
    requires intMs >= 1
  {
    var bound := (250 / intMs) as real;
    err > bound || err < -bound
  }

  /** Accumulates the interval just read at the rates the hardware actually
      used, then commits the commanded rates as the ones in use. */
  function Integrate(c: Channel): (r: Channel)
    // only the integrated phases, the sample count and the rate history change
    ensures r == c.(sampleCount := r.sampleCount, codePhaseEarly := r.codePhaseEarly,
                    carrierPhase := r.carrierPhase, codePhaseRateFpPrev := r.codePhaseRateFpPrev,
                    carrierFreqFpPrev := r.carrierFreqFpPrev)
    // the interval is integrated at the rates in use while it ran
    ensures r.sampleCount == (c.sampleCount + c.corrSampleCount) % U32_MOD
    ensures r.codePhaseEarly == (c.codePhaseEarly + c.corrSampleCount * c.codePhaseRateFpPrev) % U64_MOD
    ensures r.carrierPhase == c.carrierPhase + c.carrierFreqFpPrev * (c.corrSampleCount - (if c.updateCount == 0 then 1 else 0))
    // and the rates just commanded become the ones in use
    ensures r.codePhaseRateFpPrev == c.codePhaseRateFp && r.carrierFreqFpPrev == c.carrierFreqFp
  {
    var carrierPhase := c.carrierPhase + c.carrierFreqFpPrev * c.corrSampleCount;
    c.(sampleCount := ToU32(c.sampleCount + c.corrSampleCount),
       codePhaseEarly := ToU64(c.codePhaseEarly + c.corrSampleCount * c.codePhaseRateFpPrev),
       // the first integration after start is one sample short
       carrierPhase := if c.updateCount == 0 then carrierPhase - c.carrierFreqFpPrev else carrierPhase,
       codePhaseRateFpPrev := c.codePhaseRateFp,
       carrierFreqFpPrev := c.carrierFreqFp)
  }

  /** The alias check after a full coherent sum longer than 1 ms: the
      averaged excess of the full prompt sum over the first capture goes to
      the detector, and a false lock nudges the loop filter's carrier and
      records a mode change. */
  function CheckAlias(c: Channel, e: Engines): (r: Channel)
    requires c.intMs >= 1
    ensures r == c.(alias := r.alias, modeChangeCount := r.modeChangeCount, loop := r.loop)
    // at 1 ms there is no second capture to compare with
    ensures c.intMs == 1 ==> r == c
    ensures c.intMs > 1 ==>
              var out := AliasStep(c, e);
              && r.alias == out.detect
              && (FalseLock(out.err, c.intMs) ==>
                    r.modeChangeCount == c.updateCount && r.loop == e.loopAliasCorrect(c.loop, out.err))
              && (!FalseLock(out.err, c.intMs) ==>
                    r.modeChangeCount == c.modeChangeCount && r.loop == c.loop)
  {
    if c.intMs == 1 then c
    else
      var i := CDiv(c.cs.prompt.i - c.alias.firstI, c.intMs - 1);
      var q := CDiv(c.cs.prompt.q - c.alias.firstQ, c.intMs - 1);
      var out := e.aliasSecond(c.alias, i, q);
      if FalseLock(out.err, c.intMs) then
        c.(alias := out.detect, modeChangeCount := c.updateCount,
           loop := e.loopAliasCorrect(c.loop, out.err))
      else
        c.(alias := out.detect)
  }

  /** The alias detector's second step as seen from the update: it gets the
      prompt sum's excess over the first capture, averaged over the
      remaining `intMs - 1` milliseconds with C's truncating division. */
  function AliasStep(c: Channel, e: Engines): AliasOutput
    requires c.intMs > 1
  {
    e.aliasSecond(c.alias, CDiv(c.cs.prompt.i - c.alias.firstI, c.intMs - 1),
                  CDiv(c.cs.prompt.q - c.alias.firstQ, c.intMs - 1))
  }

  /** The C/N0 step as seen from the update: the prompt sum averaged per
      millisecond with C's truncating division. */
  function Cn0Step(c: Channel, e: Engines): Cn0Output
    requires c.intMs >= 1
  {
    e.cn0Update(c.cn0Est, CDiv(c.cs.prompt.i, c.intMs), CDiv(c.cs.prompt.q, c.intMs))
  }

  /** Whether the channel is due for promotion to stage 1: still in stage 0
      at 1 ms and the decoder has found the bit edge. */
  predicate PromotionDue(c: Channel) {
    c.stage == 0 && c.intMs == 1 && c.nav.bitPhase == c.nav.bitPhaseRef
  }

  /** Promotion to stage 1: the stage-1 coherent length, a fresh pair, the
      C/N0 estimator restarted at the new rate from the current estimate,
      the loop filter retuned, and a mode change recorded. */
  function Promote(c: Channel, cfg: StagePair, e: Engines): (r: Channel)
    ensures !PromotionDue(c) ==> r == c
    ensures PromotionDue(c) ==>
              && r == c.(stage := 1, intMs := cfg.second.coherentMs, shortCycle := true,
                         cn0Est := r.cn0Est, loop := r.loop, modeChangeCount := c.updateCount)
              // the estimator restarts at the stage-1 rate from the current
              // C/N0, and the filter is retuned for stage 1
              && r.cn0Est == e.cn0Init(cfg.second.coherentMs, c.cn0)
              && r.loop == e.loopRetune(c.loop, cfg.second)
  {
    if PromotionDue(c) then
      var l := cfg.second;
      c.(stage := 1, intMs := l.coherentMs, shortCycle := true,
         cn0Est := e.cn0Init(l.coherentMs, c.cn0),
         loop := e.loopRetune(c.loop, l),
         modeChangeCount := c.updateCount)
    else c
  }

  /** The update that closes a full coherent interval: decoder, C/N0, loop
      filter, alias check, promotion, and the write of the new rates. */
  function FullUpdate(ch: u8, c: Channel, cfg: StagePair, e: Engines): (r: Step)
    requires c.intMs >= 1 && ValidConfig(cfg)
    ensures r.chan.state == c.state && r.chan.prn == c.prn && r.chan.lockCounter == c.lockCounter
    ensures r.chan.cs == c.cs && r.chan.corrSampleCount == c.corrSampleCount
    ensures r.chan.sampleCount == c.sampleCount && r.chan.codePhaseEarly == c.codePhaseEarly
    ensures r.chan.carrierPhase == c.carrierPhase && r.chan.carrierFreqFpPrev == c.carrierFreqFpPrev
    ensures r.chan.codePhaseRateFpPrev == c.codePhaseRateFp
    ensures r.chan.updateCount == (c.updateCount + c.intMs) % U32_MOD
    ensures r.chan.towMs == AdoptTow(c.towMs, NavStep(c, e).towMs)
    ensures r.chan.codePhaseRateFp == LoopStep(c, e).codePhaseRateFp
    ensures r.chan.carrierFreqFp == LoopStep(c, e).carrierFreqFp
    ensures r.chan.intMs >= 1
    ensures r.writes == [UpdateWr(ch, r.chan.carrierFreqFp, r.chan.codePhaseRateFp, CycleField(r.chan.intMs))]
    ensures c.shortCycle ==> r.chan.shortCycle
    ensures var promoted := PromotionDue(c.(nav := NavStep(c, e).nav));
            && r.chan.stage == (if promoted then 1 else c.stage)
            && r.chan.intMs == (if promoted then cfg.second.coherentMs else c.intMs)
            && (promoted ==> r.chan.shortCycle && r.chan.modeChangeCount == r.chan.updateCount)
    // fields the update never touches
    ensures r.chan.outputIq == c.outputIq
    ensures r.chan.snrAboveCount == c.snrAboveCount && r.chan.snrBelowCount == c.snrBelowCount
    // the engines' outputs are what the channel keeps
    ensures r.chan.nav == NavStep(c, e).nav && r.chan.cn0 == Cn0Step(c, e).cn0
    ensures c.intMs == 1 ==> r.chan.alias == c.alias
    ensures PromotionDue(c.(nav := NavStep(c, e).nav)) ==>
              && r.chan.cn0Est == e.cn0Init(cfg.second.coherentMs, Cn0Step(c, e).cn0)
              && r.chan.loop == e.loopRetune(LoopStep(c, e).filter, cfg.second)
              && r.chan.modeChangeCount == r.chan.updateCount
    ensures c.intMs == 1 && !PromotionDue(c.(nav := NavStep(c, e).nav)) ==>
              && r.chan.cn0Est == Cn0Step(c, e).est && r.chan.loop == LoopStep(c, e).filter
              && r.chan.alias == c.alias && r.chan.modeChangeCount == c.modeChangeCount
    // the false-lock check, only for sums longer than 1 ms (and then no promotion)
    ensures c.intMs > 1 ==>
              var out := AliasStep(c, e);
              && r.chan.cn0Est == Cn0Step(c, e).est
              && r.chan.alias == out.detect
              && (FalseLock(out.err, c.intMs) ==>
                    && r.chan.modeChangeCount == r.chan.updateCount
                    && r.chan.loop == e.loopAliasCorrect(LoopStep(c, e).filter, out.err))
              && (!FalseLock(out.err, c.intMs) ==>
                    r.chan.modeChangeCount == c.modeChangeCount && r.chan.loop == LoopStep(c, e).filter)
  {
    var navOut := e.navUpdate(c.nav, c.cs.prompt.i, c.intMs);
    var cn0Out := e.cn0Update(c.cn0Est, CDiv(c.cs.prompt.i, c.intMs), CDiv(c.cs.prompt.q, c.intMs));
    var loopOut := e.loopUpdate(c.loop, LoopFilterOrder(c.cs));
    var c1 := c.(
      updateCount := ToU32(c.updateCount + c.intMs),
      nav := navOut.nav,
      towMs := AdoptTow(c.towMs, navOut.towMs),
      cn0 := cn0Out.cn0, cn0Est := cn0Out.est,
      loop := loopOut.filter,
      codePhaseRateFpPrev := c.codePhaseRateFp,
      codePhaseRateFp := loopOut.codePhaseRateFp,
      carrierFreqFp := loopOut.carrierFreqFp);
    var c2 := Promote(CheckAlias(c1, e), cfg, e);
    Step(c2, [UpdateWr(ch, c2.carrierFreqFp, c2.codePhaseRateFp, CycleField(c2.intMs))])
  }

  /** Whether an update of a running channel closes the short half of a
      pair, and so stops after re-issuing the current rates. */
  predicate ShortHalf(c: Channel) {
    c.intMs > 1 && c.shortCycle
  }

  /** The loop-filter step as seen from the update: its output for the
      channel's stored taps. */
  function LoopStep(c: Channel, e: Engines): LoopOutput {
    e.loopUpdate(c.loop, LoopFilterOrder(c.cs))
  }

  /** The decoder step as seen from the update. */
  function NavStep(c: Channel, e: Engines): NavOutput
    requires c.intMs >= 1
  {
    e.navUpdate(c.nav, c.cs.prompt.i, c.intMs)
  }

  /** The per-interrupt update of channel `ch`. A running channel
      integrates the interval at the previous rates, advances its time of
      week, and either closes the short half of a pair (re-issuing the
      current rates) or runs the full cycle. Any other channel is forced
      to Disabled. Exactly one rate write is issued either way. */
  function Update(ch: u8, c: Channel, cfg: StagePair, e: Engines): (r: Step)
    requires ValidConfig(cfg)
    requires c.state.Running? ==> c.intMs >= 1
    ensures !c.state.Running? ==> r == Disable(ch, c)
    ensures |r.writes| == 1 && r.writes[0].UpdateWr? && r.writes[0].channel == ch
    ensures c.state.Running? ==>
              && r.chan.state.Running?
              && r.chan.prn == c.prn && r.chan.lockCounter == c.lockCounter
              && r.chan.cs == c.cs && r.chan.corrSampleCount == c.corrSampleCount
              && r.chan.sampleCount == (c.sampleCount + c.corrSampleCount) % U32_MOD
              && r.chan.codePhaseEarly
                   == (c.codePhaseEarly + c.corrSampleCount * c.codePhaseRateFpPrev) % U64_MOD
              && r.chan.carrierPhase
                   == c.carrierPhase + c.carrierFreqFpPrev * c.corrSampleCount
                      - (if c.updateCount == 0 then c.carrierFreqFpPrev else 0)
              && r.chan.codePhaseRateFpPrev == c.codePhaseRateFp
              && r.chan.carrierFreqFpPrev == c.carrierFreqFp
              && r.writes[0].carrierFreqFp == r.chan.carrierFreqFp
              && r.writes[0].codePhaseRateFp == r.chan.codePhaseRateFp
              && r.chan.outputIq == c.outputIq
              && r.chan.snrAboveCount == c.snrAboveCount && r.chan.snrBelowCount == c.snrBelowCount
    // the short half: nothing but bookkeeping
    ensures c.state.Running? && ShortHalf(c) ==>
              && !r.chan.shortCycle
              && r.chan.towMs == AdvanceTow(c.towMs, true, c.intMs)
              && r.chan.updateCount == c.updateCount
              && r.chan.stage == c.stage && r.chan.intMs == c.intMs
              && r.chan.cn0 == c.cn0 && r.chan.modeChangeCount == c.modeChangeCount
              && r.chan.nav == c.nav && r.chan.loop == c.loop && r.chan.alias == c.alias
              && r.chan.cn0Est == c.cn0Est
              && r.chan.codePhaseRateFp == c.codePhaseRateFp
              && r.chan.carrierFreqFp == c.carrierFreqFp
              && r.writes[0].cycles == 0
    // the full cycle
    ensures c.state.Running? && !ShortHalf(c) ==>
              && r.chan.updateCount == (c.updateCount + c.intMs) % U32_MOD
              && r.chan.towMs
                   == AdoptTow(AdvanceTow(c.towMs, c.shortCycle, c.intMs), NavStep(c, e).towMs)
              && r.chan.codePhaseRateFp == LoopStep(c, e).codePhaseRateFp
              && r.chan.carrierFreqFp == LoopStep(c, e).carrierFreqFp
              && r.writes[0].cycles == (if r.chan.intMs == 1 then 0 else r.chan.intMs - 2)
              && (c.intMs > 1 ==> r.chan.shortCycle)
              && r.chan.nav == NavStep(c, e).nav && r.chan.cn0 == Cn0Step(c, e).cn0
    // the stage-0 cycle at 1 ms when bit sync is not yet found
    ensures c.state.Running? && c.intMs == 1 && !PromotionDue(c.(nav := NavStep(c, e).nav)) ==>
              && r.chan.modeChangeCount == c.modeChangeCount && r.chan.shortCycle == c.shortCycle
              && r.chan.loop == LoopStep(c, e).filter && r.chan.cn0Est == Cn0Step(c, e).est
              && r.chan.alias == c.alias
    // promotion to stage 1, once, on bit sync at 1 ms
    ensures c.state.Running? && !ShortHalf(c) ==>
              var promoted := c.stage == 0 && c.intMs == 1
                              && NavStep(c, e).nav.bitPhase == NavStep(c, e).nav.bitPhaseRef;
              && r.chan.stage == (if promoted then 1 else c.stage)
              && r.chan.intMs == (if promoted then cfg.second.coherentMs else c.intMs)
              && (promoted ==> r.chan.shortCycle && r.chan.modeChangeCount == r.chan.updateCount)
  {
    match c.state
    case Disabled => Disable(ch, c)
    case Running =>
      var c1 := Integrate(c).(towMs := AdvanceTow(c.towMs, c.shortCycle, c.intMs));
      if c1.intMs > 1 then
        var c2 := c1.(shortCycle := !c1.shortCycle);
        if !c2.shortCycle then
          Step(c2, [UpdateWr(ch, c2.carrierFreqFp, c2.codePhaseRateFp, 0)])
        else
          FullUpdate(ch, c2, cfg, e)
      else
        FullUpdate(ch, c1, cfg, e)
  }

  // ---------------------------------------------------------------------
  // State snapshot
  // ---------------------------------------------------------------------

  function Report(c: Channel): ChannelReport {
    ChannelReport(c.state, c.prn, if c.state.Running? then c.cn0 else CN0_NOT_TRACKING)
  }

  /** The tracking-state report: one entry per hardware channel, with the
      channel's C/N0 when it is running and the sentinel -1 otherwise. */
  function SendState(chans: seq<Channel>): (r: seq<ChannelReport>)
    ensures |r| == |chans|
    ensures forall k :: 0 <= k < |chans| ==> r[k].state == chans[k].state && r[k].sid == chans[k].prn
    ensures forall k :: 0 <= k < |chans| && chans[k].state.Running? ==> r[k].cn0 == chans[k].cn0
    ensures forall k :: 0 <= k < |chans| && !chans[k].state.Running? ==> r[k].cn0 == CN0_NOT_TRACKING
  {
    seq(|chans|, k requires 0 <= k < |chans| => Report(chans[k]))
  }
}
