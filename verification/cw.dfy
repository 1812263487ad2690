/**
 The CW (continuous-wave) search channel: loading the sample RAM, and an
 open-loop frequency sweep that measures correlation power at evenly spaced
 frequencies. The hardware is pipelined one point deep, so the sweep
 always has the next frequency programmed while the current one is being
 correlated, and ends with two disable writes.

 Frequencies are in the channel's integer frequency units; the conversion
 from Hz is not part of this model.
 */
module Cw {
  import opened FixedWidth

  datatype CwRunState = Loading | LoadingDone | Running | RunningDone

  /** The CW channel's state. `spectrum` is the fixed-size power array; its
      length is its capacity. */
  datatype CwState = CwState(
    state: CwRunState,
    count: nat,
    freqMin: int,
    freqMax: int,
    freqStep: int,
    freq: int,
    spectrum: seq<u64>)

  /** One CW correlation read from the channel. */
  datatype CwCorr = CwCorr(i: s32, q: s32)

  /** Register writes and strobes issued to the CW channel, in order. */
  datatype CwWrite =
    | LoadEnable
    | LoadDisable
    | Strobe(count: u32)
    | InitParams(freq: int)
    | InitDisable

  datatype CwStep = CwStep(s: CwState, writes: seq<CwWrite>)

  // ---------------------------------------------------------------------
  // Sample RAM loading
  // ---------------------------------------------------------------------

  /** Arms the sample-RAM load to start when the NAP counter reaches
      `count`. */
  function ScheduleLoad(s: CwState, count: u32): (r: CwStep)
    ensures r.s.state == Loading
    ensures r.s == s.(state := Loading)
    ensures r.writes == [LoadEnable, Strobe(count)]
  {
    CwStep(s.(state := Loading), [LoadEnable, Strobe(count)])
  }

  /** The load-done interrupt: clears the load enable (which clears the
      interrupt) and records that the RAM is full. */
  function ServiceLoadDone(s: CwState): (r: CwStep)
    ensures r.s.state == LoadingDone
    ensures r.s == s.(state := LoadingDone)
    ensures r.writes == [LoadDisable]
  {
    CwStep(s.(state := LoadingDone), [LoadDisable])
  }

  /** 1 when the sample RAM has been loaded, 0 otherwise. */
  function GetLoadDone(s: CwState): (r: u8)
    ensures r == 0 || r == 1
    ensures r == 1 <==> s.state == LoadingDone
  {
    if s.state == LoadingDone then 1 else 0
  }

  /** 1 when the sweep has finished, 0 otherwise. */
  function GetRunningDone(s: CwState): (r: u8)
    ensures r == 0 || r == 1
    ensures r == 1 <==> s.state == RunningDone
  {
    if s.state == RunningDone then 1 else 0
  }

  // ---------------------------------------------------------------------
  // The sweep
  // ---------------------------------------------------------------------

  /** Starts a sweep from `freqMin` to `freqMax` in steps of `freqStep`:
      the first two points are programmed at once to fill the pipeline. The
      power array keeps its old contents until they are overwritten. */
  function Start(s: CwState, freqMin: int, freqMax: int, freqStep: int): (r: CwStep)
    ensures r.s.state == Running && r.s.count == 0 && r.s.freq == freqMin
    ensures r.s.freqMin == freqMin && r.s.freqMax == freqMax && r.s.freqStep == freqStep
    ensures r.s.spectrum == s.spectrum
    ensures r.writes == [InitParams(freqMin), InitParams(freqMin + freqStep)]
  {
    var s1 := s.(freqStep := freqStep, freqMin := freqMin, freqMax := freqMax,
                 state := Running, count := 0, freq := freqMin);
    CwStep(s1, [InitParams(s1.freqMin), InitParams(s1.freq + s1.freqStep)])
  }

  /** Correlation power as the source computes it: both components cast to
      `u64`, squared and summed in 64-bit arithmetic. With 32-bit components
      nothing overflows, so it is the exact squared magnitude I^2 + Q^2. */
  function Power(c: CwCorr): (p: u64)
    ensures p == c.i * c.i + c.q * c.q
  {
    CastSquareExact(c.i);
    CastSquareExact(c.q);
    SquareBound(c.i);
    SquareBound(c.q);
    var i := ToU64(c.i);
    var q := ToU64(c.q);
    ToU64(ToU64(i * i) + ToU64(q * q))
  }

  lemma {:induction false} SquareBound(x: s32)
    ensures 0 <= x * x <= 0x4000_0000_0000_0000
  {
    var a := Abs(x);
    assert x * x == a * a;
    MulNonNegative(a, a);
    MulLeft(a, 0x8000_0000, a);
  }

  lemma SquareOfSum(x: int, m: int)
    ensures (x + m) * (x + m) == (2 * x + m) * m + x * x
  {
  }

  /** Squaring the `u64` cast of a 32-bit value in 64-bit arithmetic gives
      the exact square: the cast adds 2^64 to a negative value, which the
      wrap-around removes again. */
  lemma {:induction false} CastSquareExact(x: s32)
    ensures ToU64(ToU64(x) * ToU64(x)) == x * x
  {
    var M := U64_MOD;
    SquareBound(x);
    if x < 0 {
      var u := ToU64(x);
      assert u == x + M;
      SquareOfSum(x, M);
      DivAddMultiple(2 * x + M, x * x, M);
    }
  }

  /** What a running sweep does once it has stepped to `s.freq`: program
      the point after next while it is below the end of the range (and below one step
      past it, which a negative step makes the stronger test), write the
      first disable once it is in the last step, and write the second
      disable and finish once it is past. */
  function NextPoint(s: CwState): (r: CwStep)
    requires s.state.Running?
    ensures |r.writes| == 1
    ensures r.s == s.(state := r.s.state)
    ensures s.freq >= s.freqMax + s.freqStep ==> r.writes == [InitDisable] && r.s.state == RunningDone
    ensures s.freqMax <= s.freq < s.freqMax + s.freqStep ==> r.writes == [InitDisable] && r.s.state == Running
    ensures s.freq < s.freqMax && s.freq < s.freqMax + s.freqStep ==> r.writes == [InitParams(s.freq + s.freqStep)] && r.s.state == Running
  {
    if s.freq >= s.freqMax + s.freqStep then
      CwStep(s.(state := RunningDone), [InitDisable])
    else if s.freq >= s.freqMax then
      CwStep(s, [InitDisable])
    else
      CwStep(s, [InitParams(s.freq + s.freqStep)])
  }

  /** One sweep point's done interrupt, given the power read for it. A
      running sweep records the power (when the array has room), moves on
      by one step, and then either programs the point after next, or writes
      the first disable (the last point is in the pipeline), or writes the
      second disable and finishes. In any other state the channel is only
      disabled, which also clears the interrupt. Exactly one write is
      issued either way. */
  function RecordPoint(s: CwState, power: u64): (r: CwStep)
    ensures |r.writes| == 1
    ensures !s.state.Running? ==> r.s == s && r.writes == [InitDisable]
    ensures s.state.Running? ==>
              && r.s.count == s.count + 1
              && r.s.freq == s.freq + s.freqStep
              && r.s.freqMin == s.freqMin && r.s.freqMax == s.freqMax && r.s.freqStep == s.freqStep
              && |r.s.spectrum| == |s.spectrum|
              && (s.count < |s.spectrum| ==> r.s.spectrum == s.spectrum[s.count := power])
              && (s.count >= |s.spectrum| ==> r.s.spectrum == s.spectrum)
    ensures s.state.Running? && r.s.freq >= s.freqMax + s.freqStep ==>
              r.writes == [InitDisable] && r.s.state == RunningDone
    ensures s.state.Running? && s.freqMax <= r.s.freq < s.freqMax + s.freqStep ==>
              r.writes == [InitDisable] && r.s.state == Running
    ensures s.state.Running? && r.s.freq < s.freqMax && r.s.freq < s.freqMax + s.freqStep ==>
              r.writes == [InitParams(r.s.freq + s.freqStep)] && r.s.state == Running
  {
    match s.state
    case Running =>
      var spectrum := if s.count < |s.spectrum| then s.spectrum[s.count := power] else s.spectrum;
      NextPoint(s.(spectrum := spectrum, count := s.count + 1, freq := s.freq + s.freqStep))
    case _ =>
      CwStep(s, [InitDisable])
  }

  /** The CW done interrupt: read the correlation and record its power,
      which is the exact squared magnitude. */
  function ServiceIrq(s: CwState, c: CwCorr): (r: CwStep)
    ensures |r.writes| == 1
    ensures !s.state.Running? ==> r.s == s && r.writes == [InitDisable]
    ensures s.state.Running? ==>
              && r.s.count == s.count + 1 && r.s.freq == s.freq + s.freqStep
              && |r.s.spectrum| == |s.spectrum|
    ensures s.state.Running? && s.count < |s.spectrum| ==>
              r.s.spectrum[s.count] == c.i * c.i + c.q * c.q
  {
    RecordPoint(s, Power(c))
  }
}
