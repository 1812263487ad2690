/**
 Properties of the tracking-channel controller across several operations:
 the well-formedness every update keeps, the pairing of the short and long
 halves of a coherent interval, the one-update latency of the rate
 pipeline, the time-of-week clock, the lock-counter bookkeeping over a
 channel's life, and the effect of disabling on the state report.
 */
module TrackProps {
  import opened FixedWidth
  import opened LoopParams
  import opened TrackState
  import opened Track

  // ---------------------------------------------------------------------
  // Well-formedness
  // ---------------------------------------------------------------------

  /** Every update of a well-formed channel yields a well-formed channel,
      provided the configuration is valid and the decoder stays inside one
      week. */
  lemma {:induction false} UpdatePreservesWellFormed(ch: u8, c: Channel, cfg: StagePair, e: Engines)
    requires ValidConfig(cfg) && DecoderTowInWeek(e) && WellFormed(c)
    ensures WellFormed(Update(ch, c, cfg, e).chan)
  {
    var r := Update(ch, c, cfg, e).chan;
    if c.state.Running? {
      var nav := NavStep(c, e);
      assert nav.towMs < WEEK_MS;
      if ShortHalf(c) {
        assert ValidTow(AdvanceTow(c.towMs, true, c.intMs));
      } else {
        var t := AdvanceTow(c.towMs, c.shortCycle, c.intMs);
        assert ValidTow(t);
        assert ValidTow(AdoptTow(t, nav.towMs));
      }
    }
  }

  /** Read-outs and ambiguity resets touch nothing well-formedness is
      about. */
  lemma GetCorrsPreservesWellFormed(c: Channel, d: Dump, e: Engines)
    requires WellFormed(c)
    ensures WellFormed(GetCorrs(c, d, e))
    ensures GetCorrs(c, d, e).stage == c.stage && GetCorrs(c, d, e).lockCounter == c.lockCounter
  {
  }

  /** At 1 ms integration every update is a full one: the short half only
      exists for longer coherent lengths. */
  lemma OneMsUpdatesAreFull(ch: u8, c: Channel, cfg: StagePair, e: Engines)
    requires ValidConfig(cfg) && WellFormed(c) && c.state.Running? && c.intMs == 1
    ensures Update(ch, c, cfg, e).chan.updateCount == (c.updateCount + 1) % U32_MOD
    ensures Update(ch, c, cfg, e).chan.codePhaseRateFp == LoopStep(c, e).codePhaseRateFp
    ensures Update(ch, c, cfg, e).writes[0].cycles
              == if Update(ch, c, cfg, e).chan.intMs == 1 then 0 else Update(ch, c, cfg, e).chan.intMs - 2
  {
  }

  // ---------------------------------------------------------------------
  // The short/long pair
  // ---------------------------------------------------------------------

  /** Two half-cycles advance a known time of week by the whole coherent
      length, modulo one week. */
  lemma {:induction false} TowPairAdvancesCoherentMs(t: int, m: u8)
    requires 0 <= t < WEEK_MS && m >= 1
    ensures AdvanceTow(AdvanceTow(t, true, m), false, m) == (t + m) % WEEK_MS
  {
    var t1 := AdvanceTow(t, true, m);
    assert t1 == (t + 1) % WEEK_MS;
    ModAddMod(t + 1, m - 1, WEEK_MS);
  }

  /** One coherent interval longer than 1 ms, as the interrupts deliver it:
      read-out, update (short half), read-out, update (long half). The
      long half's taps are the sum of both dumps, the alias detector's first
      capture is the short half's prompt, the update counter moves only at
      the end and by the whole length, the two programmed lengths add up to
      the coherent length, the next interval starts short again, and a
      known time of week advances by the coherent length when the decoder
      reports nothing. */
  lemma {:induction false} CoherentPair(ch: u8, c: Channel, d1: Dump, d2: Dump, cfg: StagePair, e: Engines)
    requires ValidConfig(cfg) && WellFormed(c)
    requires c.state.Running? && c.intMs > 1 && c.shortCycle
    ensures var c1 := GetCorrs(c, d1, e);
            var s1 := Update(ch, c1, cfg, e);
            var c2 := GetCorrs(s1.chan, d2, e);
            var s2 := Update(ch, c2, cfg, e);
            && c2.cs == AddCorrs(d1.cs, d2.cs)
            && c2.alias == e.aliasFirst(c.alias, d1.cs.prompt.i, d1.cs.prompt.q)
            && s1.chan.updateCount == c.updateCount
            && s2.chan.updateCount == (c.updateCount + c.intMs) % U32_MOD
            && s2.chan.intMs == c.intMs && s2.chan.shortCycle
            && (s1.writes[0].cycles + 1) + (s2.writes[0].cycles + 1) == c.intMs
            && (0 <= c.towMs && NavStep(c2, e).towMs <= 0 ==>
                  s2.chan.towMs == (c.towMs + c.intMs) % WEEK_MS)
            // a detector that records the capture it is handed then sees the
            // second dump's prompt averaged over the rest of the interval
            && (c2.alias.firstI == d1.cs.prompt.i && c2.alias.firstQ == d1.cs.prompt.q ==>
                  AliasStep(c2, e)
                    == e.aliasSecond(c2.alias, CDiv(d2.cs.prompt.i, c.intMs - 1), CDiv(d2.cs.prompt.q, c.intMs - 1)))
  {
    var c1 := GetCorrs(c, d1, e);
    assert !Accumulates(c);
    var s1 := Update(ch, c1, cfg, e);
    assert ShortHalf(c1);
    assert !s1.chan.shortCycle && s1.chan.intMs == c.intMs && s1.chan.stage == c.stage;
    var c2 := GetCorrs(s1.chan, d2, e);
    assert Accumulates(s1.chan);
    assert c2.cs == AddCorrs(d1.cs, d2.cs);
    var s2 := Update(ch, c2, cfg, e);
    assert !ShortHalf(c2);
    assert c.stage == 1;
    assert s2.chan.intMs == c.intMs;
    if 0 <= c.towMs && NavStep(c2, e).towMs <= 0 {
      TowPairAdvancesCoherentMs(c.towMs, c.intMs);
    }
  }

  /** The long half of a pair closes the coherent sum and runs the
      false-lock check on it. C/N0 is fed the per-millisecond prompt, and
      the detector the excess over the first capture. A false lock corrects
      only the loop filter's state and stamps a mode change; the carrier
      frequency written by the same update is the filter's uncorrected
      output. */
  lemma {:induction false} LongHalfChecksAlias(ch: u8, c: Channel, cfg: StagePair, e: Engines)
    requires ValidConfig(cfg) && c.state.Running? && c.intMs > 1 && !c.shortCycle
    ensures var r := Update(ch, c, cfg, e);
            var out := AliasStep(c, e);
            && r.chan.cn0 == Cn0Step(c, e).cn0
            && r.chan.alias == out.detect
            && r.writes[0].carrierFreqFp == LoopStep(c, e).carrierFreqFp
            && (FalseLock(out.err, c.intMs) ==>
                  && r.chan.loop == e.loopAliasCorrect(LoopStep(c, e).filter, out.err)
                  && r.chan.modeChangeCount == r.chan.updateCount)
            && (!FalseLock(out.err, c.intMs) ==>
                  r.chan.loop == LoopStep(c, e).filter && r.chan.modeChangeCount == c.modeChangeCount)
  {
  }

  /** The false-lock bound `250 / intMs` is an integer quotient: at 4 ms it
      is 62 Hz rather than 62.5 Hz, and at 20 ms 12 Hz rather than 12.5 Hz.
      The test is strict and symmetric in the sign of the error. */
  lemma FalseLockBoundIsTruncated(err: real)
    ensures FalseLock(62.25, 4) && FalseLock(-62.25, 4) && !FalseLock(62.0, 4)
    ensures FalseLock(12.25, 20) && !FalseLock(12.0, 20)
    ensures FalseLock(err, 2) <==> (err > 125.0 || err < -125.0)
    ensures FalseLock(err, 5) <==> (err > 50.0 || err < -50.0)
    ensures FalseLock(err, 10) <==> (err > 25.0 || err < -25.0)
  {
  }

  // ---------------------------------------------------------------------
  // The rate pipeline
  // ---------------------------------------------------------------------

  /** The hardware picks up a rate write only for the interval after the
      one in progress: the interval read out after an update is integrated
      at the rates commanded before that update, not at the ones it wrote. */
  lemma RatesTakeEffectOneUpdateLate(ch: u8, c: Channel, d: Dump, cfg: StagePair, e: Engines)
    requires ValidConfig(cfg) && WellFormed(c) && c.state.Running?
    ensures var s1 := Update(ch, c, cfg, e);
            var s2 := Update(ch, GetCorrs(s1.chan, d, e), cfg, e);
            && s2.chan.codePhaseEarly == (s1.chan.codePhaseEarly + d.sampleCount * c.codePhaseRateFp) % U64_MOD
            && s2.chan.carrierPhase
                 == s1.chan.carrierPhase + c.carrierFreqFp * d.sampleCount
                    - (if s1.chan.updateCount == 0 then c.carrierFreqFp else 0)
  {
    var s1 := Update(ch, c, cfg, e);
    var c1 := GetCorrs(s1.chan, d, e);
    assert c1.codePhaseRateFpPrev == c.codePhaseRateFp;
    assert c1.carrierFreqFpPrev == c.carrierFreqFp;
    assert c1.corrSampleCount == d.sampleCount;
  }

  // ---------------------------------------------------------------------
  // The time-of-week clock
  // ---------------------------------------------------------------------

  /** The time of week after `n` updates of a 1 ms channel whose decoder
      reports nothing. */
  function AdvanceTowBy(t: int, n: nat): int
    decreases n
  {
    if n == 0 then t else AdvanceTow(AdvanceTowBy(t, n - 1), true, 1)
  }

  /** A known time of week counts milliseconds modulo one week; the
      sentinel never turns into a time by itself. */
  lemma {:induction false} TowCountsMilliseconds(t: int, n: nat)
    requires ValidTow(t)
    ensures t == TOW_INVALID ==> AdvanceTowBy(t, n) == TOW_INVALID
    ensures t != TOW_INVALID ==> AdvanceTowBy(t, n) == (t + n) % WEEK_MS
  {
    if n > 0 {
      TowCountsMilliseconds(t, n - 1);
      if t != TOW_INVALID {
        ModAddMod(t + n - 1, 1, WEEK_MS);
      }
    }
  }

  /** Each update of a 1 ms channel whose decoder reports nothing is one
      step of that clock. */
  lemma OneMsUpdateTicksTow(ch: u8, c: Channel, cfg: StagePair, e: Engines)
    requires ValidConfig(cfg) && WellFormed(c) && c.state.Running? && c.intMs == 1
    requires NavStep(c, e).towMs <= 0
    ensures Update(ch, c, cfg, e).chan.towMs == AdvanceTowBy(c.towMs, 1)
  {
  }

  // ---------------------------------------------------------------------
  // A channel's life between initialisations
  // ---------------------------------------------------------------------

  /** The events that reach a channel once it is started: a correlator
      read-out, an update interrupt, a carrier-phase ambiguity reset, and
      disabling. An update carries the loop-parameter setting in force when
      it runs: the settings callback may replace it between any two events,
      and it only ever installs a valid one. */
  datatype ChannelOp = ReadOut(d: Dump) | Tick(cfg: StagePair) | MarkAmbiguous | Stop

  predicate ValidOps(ops: seq<ChannelOp>) {
    forall i :: 0 <= i < |ops| && ops[i].Tick? ==> ValidConfig(ops[i].cfg)
  }

  function ResetCount(op: ChannelOp): nat {
    if op.MarkAmbiguous? then 1 else 0
  }

  /** The number of ambiguity resets in a run of events. */
  function Resets(ops: seq<ChannelOp>): nat {
    if ops == [] then 0 else ResetCount(ops[0]) + Resets(ops[1..])
  }

  /** One event applied to the channel and the lock-counter table. */
  function Apply(ch: u8, s: WithLocks, op: ChannelOp, e: Engines): (r: WithLocks)
    requires (op.Tick? ==> ValidConfig(op.cfg)) && DecoderTowInWeek(e)
    requires WellFormed(s.chan) && s.chan.prn < |s.locks|
    ensures WellFormed(r.chan)
    ensures r.chan.prn == s.chan.prn && |r.locks| == |s.locks|
    ensures s.chan.stage <= r.chan.stage
    ensures r.locks[s.chan.prn] == ToU16(s.locks[s.chan.prn] + ResetCount(op))
    ensures forall p :: 0 <= p < |s.locks| && p != s.chan.prn ==> r.locks[p] == s.locks[p]
    ensures op.MarkAmbiguous? ==> r.chan.lockCounter == r.locks[s.chan.prn]
    ensures !op.MarkAmbiguous? ==> r.chan.lockCounter == s.chan.lockCounter
  {
    match op
    case ReadOut(d) =>
      GetCorrsPreservesWellFormed(s.chan, d, e);
      WithLocks(GetCorrs(s.chan, d, e), s.locks)
    case Tick(cfg) =>
      UpdatePreservesWellFormed(ch, s.chan, cfg, e);
      WithLocks(Update(ch, s.chan, cfg, e).chan, s.locks)
    case MarkAmbiguous =>
      AmbiguityUnknown(s.chan, s.locks)
    case Stop =>
      WithLocks(Disable(ch, s.chan).chan, s.locks)
  }

  /** A run of events, applied in order; the update interrupt and the
      read-out are serialised on the same thread, so this is every
      interleaving the channel can see. The channel stays well-formed, its
      stage never goes back, and the satellite's lock counter has moved on
      by exactly the number of resets, modulo 2^16, with every other
      satellite's counter untouched and the channel's copy in step. */
  function Run(ch: u8, s: WithLocks, ops: seq<ChannelOp>, e: Engines): (r: WithLocks)
    requires ValidOps(ops) && DecoderTowInWeek(e)
    requires WellFormed(s.chan) && s.chan.prn < |s.locks|
    ensures WellFormed(r.chan)
    ensures r.chan.prn == s.chan.prn && |r.locks| == |s.locks|
    ensures s.chan.stage <= r.chan.stage
    ensures r.locks[s.chan.prn] == ToU16(s.locks[s.chan.prn] + Resets(ops))
    ensures forall p :: 0 <= p < |s.locks| && p != s.chan.prn ==> r.locks[p] == s.locks[p]
    ensures Resets(ops) > 0 ==> r.chan.lockCounter == r.locks[s.chan.prn]
    ensures Resets(ops) == 0 ==> r.chan.lockCounter == s.chan.lockCounter
    decreases |ops|
  {
    if ops == [] then
      assert s.locks[s.chan.prn] < U16_MOD;
      s
    else
      var s1 := Apply(ch, s, ops[0], e);
      var r := Run(ch, s1, ops[1..], e);
      ModAddMod(s.locks[s.chan.prn] + ResetCount(ops[0]), Resets(ops[1..]), U16_MOD);
      r
  }

  /** The number of events in a run after which the channel went from
      stage 0 to stage 1. */
  function Promotions(ch: u8, s: WithLocks, ops: seq<ChannelOp>, e: Engines): nat
    requires ValidOps(ops) && DecoderTowInWeek(e)
    requires WellFormed(s.chan) && s.chan.prn < |s.locks|
    decreases |ops|
  {
    if ops == [] then 0
    else
      var s1 := Apply(ch, s, ops[0], e);
      (if s.chan.stage == 0 && s1.chan.stage == 1 then 1 else 0) + Promotions(ch, s1, ops[1..], e)
  }

  /** Promotion to stage 1 happens at most once in a channel's life, and
      exactly when its stage has changed by the end. */
  lemma {:induction false} PromotedAtMostOnce(ch: u8, s: WithLocks, ops: seq<ChannelOp>, e: Engines)
    requires ValidOps(ops) && DecoderTowInWeek(e)
    requires WellFormed(s.chan) && s.chan.prn < |s.locks|
    ensures Promotions(ch, s, ops, e) == Run(ch, s, ops, e).chan.stage - s.chan.stage
    ensures Promotions(ch, s, ops, e) <= 1
    decreases |ops|
  {
    if ops != [] {
      var s1 := Apply(ch, s, ops[0], e);
      PromotedAtMostOnce(ch, s1, ops[1..], e);
      assert Run(ch, s, ops, e) == Run(ch, s1, ops[1..], e);
    }
  }

  /** Between 1 and 65535 resets always leave a different counter value, so
      a consumer comparing counters sees every such run of resets; 65536 of
      them bring the counter back where it was. */
  lemma {:induction false} LockCounterDetectsResets(ch: u8, s: WithLocks, ops: seq<ChannelOp>, e: Engines)
    requires ValidOps(ops) && DecoderTowInWeek(e)
    requires WellFormed(s.chan) && s.chan.prn < |s.locks|
    ensures 0 < Resets(ops) < U16_MOD ==> Run(ch, s, ops, e).locks[s.chan.prn] != s.locks[s.chan.prn]
    ensures Resets(ops) == U16_MOD ==> Run(ch, s, ops, e).locks[s.chan.prn] == s.locks[s.chan.prn]
  {
    ResetsShowInCounter(ch, s, ops, e);
    ResetsWrapCounter(ch, s, ops, e);
  }

  lemma {:induction false} ResetsShowInCounter(ch: u8, s: WithLocks, ops: seq<ChannelOp>, e: Engines)
    requires ValidOps(ops) && DecoderTowInWeek(e)
    requires WellFormed(s.chan) && s.chan.prn < |s.locks|
    ensures 0 < Resets(ops) < U16_MOD ==> Run(ch, s, ops, e).locks[s.chan.prn] != s.locks[s.chan.prn]
  {
    var r := Run(ch, s, ops, e);
    CounterSeesResets(s.locks[s.chan.prn], r.locks[s.chan.prn], Resets(ops));
  }

  lemma {:induction false} ResetsWrapCounter(ch: u8, s: WithLocks, ops: seq<ChannelOp>, e: Engines)
    requires ValidOps(ops) && DecoderTowInWeek(e)
    requires WellFormed(s.chan) && s.chan.prn < |s.locks|
    ensures Resets(ops) == U16_MOD ==> Run(ch, s, ops, e).locks[s.chan.prn] == s.locks[s.chan.prn]
  {
    var r := Run(ch, s, ops, e);
    CounterSeesResets(s.locks[s.chan.prn], r.locks[s.chan.prn], Resets(ops));
  }

  /** A counter moved on by `n` modulo 2^16 differs from where it started
      when 0 < n < 2^16, and is back there when n == 2^16. */
  lemma CounterSeesResets(start: u16, now: u16, n: nat)
    requires now == ToU16(start + n)
    ensures 0 < n < U16_MOD ==> now != start
    ensures n == U16_MOD ==> now == start
  {
    ToU16Increments(start, n);
  }

  /** The lock counter is not monotone: one reset takes 65535 to 0. */
  lemma LockCounterWraps(c: Channel, locks: seq<u16>)
    requires c.prn < |locks| && locks[c.prn] == 0xFFFF
    ensures AmbiguityUnknown(c, locks).locks[c.prn] == 0
    ensures AmbiguityUnknown(c, locks).chan.lockCounter == 0
  {
  }

  // ---------------------------------------------------------------------
  // Disable and the state report
  // ---------------------------------------------------------------------

  /** Disabling twice is disabling once, and writes the same zero rates. */
  lemma DisableIdempotent(ch: u8, c: Channel)
    ensures Disable(ch, Disable(ch, c).chan) == Disable(ch, c)
  {
  }

  /** A stray update interrupt on a disabled channel changes nothing but
      re-issues the zero rates. */
  lemma StrayUpdateOnDisabled(ch: u8, c: Channel, cfg: StagePair, e: Engines)
    requires ValidConfig(cfg) && c.state.Disabled?
    ensures Update(ch, c, cfg, e).chan == c
    ensures Update(ch, c, cfg, e).writes == [UpdateWr(ch, 0, 0, 0)]
  {
  }

  /** After channel `k` is disabled the report shows it not tracking, with
      C/N0 -1 and the same satellite, and every other entry is unchanged. */
  lemma {:induction false} ReportAfterDisable(chans: seq<Channel>, k: nat, ch: u8)
    requires k < |chans|
    ensures var after := SendState(chans[k := Disable(ch, chans[k]).chan]);
            && after[k] == ChannelReport(Disabled, chans[k].prn, CN0_NOT_TRACKING)
            && forall j :: 0 <= j < |chans| && j != k ==> after[j] == SendState(chans)[j]
  {
    var chans' := chans[k := Disable(ch, chans[k]).chan];
    var after := SendState(chans');
    var before := SendState(chans);
    forall j | 0 <= j < |chans| && j != k
      ensures after[j] == before[j]
    {
      assert chans'[j] == chans[j];
    }
  }
}
