/**
 Tracking-loop parameters and the all-or-nothing validation of the
 `track.loop_params` setting.

 The setting holds one or two stages, each `(<ms> ms, (code loop), (carrier
 loop))`. The textual grammar is not modelled: a `Scanner` stands for one
 call of the source's `sscanf`, returning the stage it read and the text
 after it. When the text has no trailing comma the scanner consumes
 nothing, so the second call reads the first stage again; this is how an
 omitted second stage reuses the first stage's parameters.
 */
module LoopParams {
  import opened FixedWidth

  datatype Option<T> = None | Some(value: T)

  /** Bandwidth, damping, gain and aiding coefficient of one loop filter
      (`carr_to_code` for the code loop, `carr_fll_aid_gain` for the carrier
      loop). Floating point in the source; only carried here. */
  datatype LoopGains = LoopGains(bw: real, zeta: real, k: real, aid: real)

  /** The parameters of one tracking stage as stored, `coherent_ms` a `u8`. */
  datatype LoopParams = LoopParams(coherentMs: u8, code: LoopGains, carr: LoopGains)

  /** The stored configuration: stage 0 (before bit sync) and stage 1. */
  datatype StagePair = StagePair(first: LoopParams, second: LoopParams)

  /** One stage as the scanner reads it: the coherent length is still the
      `unsigned int` that `%u` produced. */
  datatype ScannedStage = ScannedStage(coherentMs: u32, code: LoopGains, carr: LoopGains)

  /** A successful scan and the text left after it. */
  datatype Scan = Scan(stage: ScannedStage, rest: string)

  type Scanner = string -> Option<Scan>

  /** The compiled-in default, "(1 ms, (1, 0.7, 1, 1540), (10, 0.7, 1, 5)),
      (5 ms, (1, 0.7, 1, 1540), (50, 0.7, 1, 0))". */
  const DEFAULT_PARAMS: StagePair :=
    StagePair(
      LoopParams(1, LoopGains(1.0, 0.7, 1.0, 1540.0), LoopGains(10.0, 0.7, 1.0, 5.0)),
      LoopParams(5, LoopGains(1.0, 0.7, 1.0, 1540.0), LoopGains(50.0, 0.7, 1.0, 0.0)))

  /** A coherent integration length the hardware pipeline supports: a
      non-zero divisor of the 20 ms navigation bit, i.e. 1, 2, 4, 5, 10 or 20. */
  predicate ValidCoherentMs(ms: nat) {
    ms != 0 && 20 % ms == 0
  }

  /** Stage 0 must integrate for exactly 1 ms. */
  predicate ValidForStage(stage: nat, ms: nat) {
    ValidCoherentMs(ms) && (stage == 0 ==> ms == 1)
  }

  predicate ValidConfig(p: StagePair) {
    ValidForStage(0, p.first.coherentMs) && ValidForStage(1, p.second.coherentMs)
  }

  lemma DefaultIsValid()
    ensures ValidConfig(DEFAULT_PARAMS)
  {
  }

  lemma ValidCoherentMsValues(ms: nat)
    ensures ValidCoherentMs(ms) <==> ms in {1, 2, 4, 5, 10, 20}
  {
    if ValidCoherentMs(ms) {
      assert ms <= 20;
    }
  }

  // ---------------------------------------------------------------------
  // The source as written: `l->coherent_ms = tmp` narrows to u8 first
  // ---------------------------------------------------------------------

  /** `l` holds the scanned stage `s` with its length reduced modulo 256,
      and the loop gains unchanged. */
  predicate HoldsNarrowed(l: LoopParams, s: ScannedStage) {
    l.coherentMs == s.coherentMs % 256 && l.code == s.code && l.carr == s.carr
  }

  /** `l` holds exactly the scanned stage `s`. */
  predicate HoldsScanned(l: LoopParams, s: ScannedStage) {
    l.coherentMs == s.coherentMs && l.code == s.code && l.carr == s.carr
  }

  /** The assignment of the scanned `unsigned int` to the `u8` field: the
      length is kept modulo 256, the gains as read, and below 256 nothing
      is lost. */
  function NarrowStage(s: ScannedStage): (l: LoopParams)
    ensures HoldsNarrowed(l, s)
    ensures s.coherentMs < 256 ==> HoldsScanned(l, s)
  {
    LoopParams((s.coherentMs % 256) as u8, s.code, s.carr)
  }

  /** Both passes of the parse loop, validating the narrowed length. */
  function ParseAsWritten(scan: Scanner, val: string): (r: Option<StagePair>)
    ensures r.Some? <==>
              && scan(val).Some?
              && ValidForStage(0, scan(val).value.stage.coherentMs % 256)
              && scan(scan(val).value.rest).Some?
              && ValidForStage(1, scan(scan(val).value.rest).value.stage.coherentMs % 256)
    ensures r.Some? ==>
              && HoldsNarrowed(r.value.first, scan(val).value.stage)
              && HoldsNarrowed(r.value.second, scan(scan(val).value.rest).value.stage)
    ensures r.Some? ==> ValidConfig(r.value)
  {
    match scan(val)
    case None => None
    case Some(s0) =>
      var l0 := NarrowStage(s0.stage);
      if !ValidForStage(0, l0.coherentMs) then None
      else
        match scan(s0.rest)
        case None => None
        case Some(s1) =>
          var l1 := NarrowStage(s1.stage);
          if !ValidForStage(1, l1.coherentMs) then None
          else Some(StagePair(l0, l1))
  }

  /** The setting callback as written: commit on success, keep on failure. */
  function ApplyLoopParamsAsWritten(scan: Scanner, val: string, current: StagePair): (r: (bool, StagePair))
    ensures r.0 <==>
              && scan(val).Some?
              && ValidForStage(0, scan(val).value.stage.coherentMs % 256)
              && scan(scan(val).value.rest).Some?
              && ValidForStage(1, scan(scan(val).value.rest).value.stage.coherentMs % 256)
    ensures !r.0 ==> r.1 == current
    ensures r.0 ==>
              && ValidConfig(r.1)
              && HoldsNarrowed(r.1.first, scan(val).value.stage)
              && HoldsNarrowed(r.1.second, scan(scan(val).value.rest).value.stage)
  {
    Commit(ParseAsWritten(scan, val), current)
  }

  /** The narrowing lets a length that does not divide 20 through: "257 ms"
      is stored, and accepted, as 1 ms. */
  lemma AsWrittenAcceptsOutOfRangeLength(scan: Scanner, val: string, g: LoopGains)
    requires scan(val) == Some(Scan(ScannedStage(257, g, g), val))
    ensures ApplyLoopParamsAsWritten(scan, val, DEFAULT_PARAMS).0
    ensures ApplyLoopParamsAsWritten(scan, val, DEFAULT_PARAMS).1.first.coherentMs == 1
    ensures !ValidCoherentMs(257)
  {
  }

  // ---------------------------------------------------------------------
  // Corrected: validate the scanned value, then store it
  // ---------------------------------------------------------------------

  /** The stage as stored once its scanned length has been validated. */
  function StoreStage(s: ScannedStage): (l: LoopParams)
    requires ValidCoherentMs(s.coherentMs)
    ensures HoldsScanned(l, s)
  {
    LoopParams(s.coherentMs as u8, s.code, s.carr)
  }

  /** Both passes of the parse loop, validating the length that was read. */
  function Parse(scan: Scanner, val: string): (r: Option<StagePair>)
    ensures r.Some? <==>
              && scan(val).Some?
              && ValidForStage(0, scan(val).value.stage.coherentMs)
              && scan(scan(val).value.rest).Some?
              && ValidForStage(1, scan(scan(val).value.rest).value.stage.coherentMs)
    ensures r.Some? ==>
              && HoldsScanned(r.value.first, scan(val).value.stage)
              && HoldsScanned(r.value.second, scan(scan(val).value.rest).value.stage)
  {
    match scan(val)
    case None => None
    case Some(s0) =>
      if !ValidForStage(0, s0.stage.coherentMs) then None
      else
        match scan(s0.rest)
        case None => None
        case Some(s1) =>
          if !ValidForStage(1, s1.stage.coherentMs) then None
          else Some(StagePair(StoreStage(s0.stage), StoreStage(s1.stage)))
  }

  /** The all-or-nothing commit of `parse_loop_params`. */
  function Commit(parsed: Option<StagePair>, current: StagePair): (r: (bool, StagePair))
    ensures r.0 <==> parsed.Some?
    ensures r.1 == if parsed.Some? then parsed.value else current
  {
    match parsed
    case None => (false, current)
    case Some(p) => (true, p)
  }

  /** The setting callback: returns whether the text was accepted and the
      configuration in force afterwards. */
  function ApplyLoopParams(scan: Scanner, val: string, current: StagePair): (r: (bool, StagePair))
    ensures !r.0 ==> r.1 == current
    ensures r.0 ==> ValidConfig(r.1)
    ensures r.0 ==> Parse(scan, val) == Some(r.1)
    ensures r.0 ==>
              && HoldsScanned(r.1.first, scan(val).value.stage)
              && HoldsScanned(r.1.second, scan(scan(val).value.rest).value.stage)
  {
    Commit(Parse(scan, val), current)
  }

  /** Acceptance exactly when both stages scan, both lengths are non-zero
      divisors of 20 and stage 0's is 1; the stored lengths are the ones
      written in the text. */
  lemma {:induction false} ApplyAcceptsExactlyValid(scan: Scanner, val: string, current: StagePair)
    ensures ApplyLoopParams(scan, val, current).0 <==>
              && scan(val).Some?
              && scan(val).value.stage.coherentMs == 1
              && scan(scan(val).value.rest).Some?
              && ValidCoherentMs(scan(scan(val).value.rest).value.stage.coherentMs)
    ensures ApplyLoopParams(scan, val, current).0 ==>
              ApplyLoopParams(scan, val, current).1.second.coherentMs
                == scan(scan(val).value.rest).value.stage.coherentMs
  {
    var r := Parse(scan, val);
    if scan(val).Some? && scan(val).value.stage.coherentMs == 1 {
      assert ValidForStage(0, scan(val).value.stage.coherentMs);
    }
    assert ApplyLoopParams(scan, val, current) == Commit(r, current);
  }

  /** A text holding a single stage (no trailing comma) applies that stage
      to both; it is accepted exactly when that stage integrates for 1 ms,
      the only length stage 0 allows. */
  lemma {:induction false} OmittedSecondStageReusesFirst(scan: Scanner, val: string, current: StagePair, s: ScannedStage)
    requires scan(val) == Some(Scan(s, val))
    ensures ApplyLoopParams(scan, val, current).0 <==> s.coherentMs == 1
    ensures ApplyLoopParams(scan, val, current).0 ==>
              ApplyLoopParams(scan, val, current).1.first == ApplyLoopParams(scan, val, current).1.second
  {
    if s.coherentMs == 1 {
      assert ValidForStage(0, 1) && ValidForStage(1, 1);
      assert Parse(scan, val) == Some(StagePair(StoreStage(s), StoreStage(s)));
    }
  }

  /** The correction changes nothing for lengths that fit in a `u8`: the two
      parses agree whenever the scanned lengths are below 256. */
  lemma {:induction false} CorrectionAgreesBelow256(scan: Scanner, val: string)
    requires scan(val).Some? ==> scan(val).value.stage.coherentMs < 256
    requires scan(val).Some? && scan(scan(val).value.rest).Some? ==>
               scan(scan(val).value.rest).value.stage.coherentMs < 256
    ensures Parse(scan, val) == ParseAsWritten(scan, val)
  {
    match scan(val)
    case None =>
    case Some(s0) =>
      assert NarrowStage(s0.stage).coherentMs == s0.stage.coherentMs;
      match scan(s0.rest)
      case None =>
      case Some(s1) =>
        assert NarrowStage(s1.stage).coherentMs == s1.stage.coherentMs;
        if ValidForStage(0, s0.stage.coherentMs) && ValidForStage(1, s1.stage.coherentMs) {
          assert NarrowStage(s0.stage) == StoreStage(s0.stage);
          assert NarrowStage(s1.stage) == StoreStage(s1.stage);
        }
  }

  /** The corrected parse rejects the text the source accepts. */
  lemma RejectsOutOfRangeLength(scan: Scanner, val: string, g: LoopGains, current: StagePair)
    requires scan(val) == Some(Scan(ScannedStage(257, g, g), val))
    ensures ApplyLoopParams(scan, val, current) == (false, current)
  {
  }
}
