/**
 Properties of the CW channel across several interrupts: the load
 handshake, the power computation, and the whole sweep from `Start` to
 the finished state.
 */
module CwSweep {
  import opened FixedWidth
  import opened Cw

  // ---------------------------------------------------------------------
  // Loading
  // ---------------------------------------------------------------------

  /** Scheduling a load clears both done flags; the load-done interrupt
      then raises the load flag and only that one. */
  lemma LoadHandshake(s: CwState, count: u32)
    ensures GetLoadDone(ScheduleLoad(s, count).s) == 0
    ensures GetRunningDone(ScheduleLoad(s, count).s) == 0
    ensures GetLoadDone(ServiceLoadDone(ScheduleLoad(s, count).s).s) == 1
    ensures GetRunningDone(ServiceLoadDone(ScheduleLoad(s, count).s).s) == 0
    ensures ServiceLoadDone(ScheduleLoad(s, count).s).s == s.(state := LoadingDone)
  {
  }

  /** The two done flags are never raised together. */
  lemma DoneFlagsExclusive(s: CwState)
    ensures GetLoadDone(s) + GetRunningDone(s) <= 1
  {
  }

  // ---------------------------------------------------------------------
  // The sweep
  // ---------------------------------------------------------------------

  /** A run of done interrupts, one per power read, in order. */
  function Sweep(s: CwState, powers: seq<u64>): (r: CwStep)
    ensures |r.writes| == |powers|
    ensures |r.s.spectrum| == |s.spectrum|
    decreases |powers|
  {
    if powers == [] then CwStep(s, [])
    else
      var first := RecordPoint(s, powers[0]);
      var rest := Sweep(first.s, powers[1..]);
      CwStep(rest.s, first.writes + rest.writes)
  }

  /** The powers of a run of correlations. */
  function Powers(corrs: seq<CwCorr>): (ps: seq<u64>)
    ensures |ps| == |corrs|
  {
    seq(|corrs|, j requires 0 <= j < |corrs| => Power(corrs[j]))
  }

  /** A run of done interrupts, one per correlation read. */
  function ServiceIrqs(s: CwState, corrs: seq<CwCorr>): CwStep
    decreases |corrs|
  {
    if corrs == [] then CwStep(s, [])
    else
      var first := ServiceIrq(s, corrs[0]);
      var rest := ServiceIrqs(first.s, corrs[1..]);
      CwStep(rest.s, first.writes + rest.writes)
  }

  /** Servicing the interrupts is the sweep over the powers they read. */
  lemma {:induction false} ServiceIrqsIsSweep(s: CwState, corrs: seq<CwCorr>)
    ensures ServiceIrqs(s, corrs) == Sweep(s, Powers(corrs))
    decreases |corrs|
  {
    if corrs != [] {
      var ps := Powers(corrs);
      assert ps[0] == Power(corrs[0]);
      assert ps[1..] == Powers(corrs[1..]);
      ServiceIrqsIsSweep(RecordPoint(s, ps[0]).s, corrs[1..]);
    }
  }

  /** The number of done interrupts a running sweep at `freq` still takes:
      until the frequency, stepped once per interrupt, reaches one step past
      the end of the range. */
  function IrqsLeft(freq: int, freqMax: int, freqStep: int): (n: nat)
    requires freqStep > 0
    decreases freqMax + freqStep - freq
  {
    if freq + freqStep >= freqMax + freqStep then 1
    else 1 + IrqsLeft(freq + freqStep, freqMax, freqStep)
  }

  /** From a running point below the end of the range, the sweep takes
      `IrqsLeft` interrupts, at least two, counts every one of them and
      finishes. The last point it correlates lies at or above the end of
      the range and less than one step past it. */
  lemma {:induction false} SweepFinishes(s: CwState, powers: seq<u64>)
    requires s.state.Running? && s.freqStep > 0 && s.freq < s.freqMax
    requires |powers| == IrqsLeft(s.freq, s.freqMax, s.freqStep)
    ensures |powers| >= 2
    ensures Sweep(s, powers).s.state == RunningDone
    ensures Sweep(s, powers).s.count == s.count + |powers|
    ensures s.freqMax <= s.freq + (|powers| - 1) * s.freqStep < s.freqMax + s.freqStep
    decreases |powers|
  {
    var step := s.freqStep;
    var s1 := RecordPoint(s, powers[0]).s;
    var tail := powers[1..];
    var n := |powers|;
    assert s1.freq == s.freq + step && s1.count == s.count + 1;
    assert n == 1 + IrqsLeft(s1.freq, s.freqMax, step);
    assert Sweep(s, powers).s == Sweep(s1, tail).s;
    if s1.freq >= s.freqMax {
      assert IrqsLeft(s1.freq, s.freqMax, step) == 1;
      assert |tail| == 1 && tail[1..] == [];
      var second := RecordPoint(s1, tail[0]);
      assert Sweep(second.s, tail[1..]) == CwStep(second.s, []);
    } else {
      SweepFinishes(s1, tail);
      Distributes(n - 2, 1, step);
    }
  }

  /** The writes of that sweep: every interrupt but the last two programs
      the point after next, and the last two write the disable. */
  lemma {:induction false} SweepWrites(s: CwState, powers: seq<u64>)
    requires s.state.Running? && s.freqStep > 0 && s.freq < s.freqMax
    requires |powers| == IrqsLeft(s.freq, s.freqMax, s.freqStep)
    ensures |powers| >= 2
    ensures forall j :: 0 <= j < |powers| - 2 ==>
              Sweep(s, powers).writes[j] == InitParams(s.freq + (j + 2) * s.freqStep)
    ensures Sweep(s, powers).writes[|powers| - 2] == InitDisable
    ensures Sweep(s, powers).writes[|powers| - 1] == InitDisable
    decreases |powers|
  {
    var step := s.freqStep;
    var first := RecordPoint(s, powers[0]);
    var s1 := first.s;
    var tail := powers[1..];
    var rest := Sweep(s1, tail);
    var r := Sweep(s, powers);
    var n := |powers|;
    assert s1.freq == s.freq + step;
    assert n == 1 + IrqsLeft(s1.freq, s.freqMax, step);
    assert r.writes == first.writes + rest.writes;
    if s1.freq >= s.freqMax {
      assert IrqsLeft(s1.freq, s.freqMax, step) == 1;
      assert |tail| == 1 && tail[1..] == [];
      var second := RecordPoint(s1, tail[0]);
      assert Sweep(second.s, tail[1..]) == CwStep(second.s, []);
      assert first.writes == [InitDisable] && second.writes == [InitDisable];
    } else {
      assert first.writes == [InitParams(s.freq + 2 * step)];
      SweepWrites(s1, tail);
      forall j | 0 <= j < n - 2
        ensures r.writes[j] == InitParams(s.freq + (j + 2) * step)
      {
        Distributes(j + 1, 1, step);
        if j > 0 {
          assert r.writes[j] == rest.writes[j - 1];
        }
      }
    }
  }

  /** One running interrupt, index by index: the slot the count pointed at
      (if the array has it) now holds the power, every other slot is kept. */
  lemma RecordStoresAtCount(s: CwState, p: u64, i: int)
    requires s.state.Running? && 0 <= i < |s.spectrum|
    ensures RecordPoint(s, p).s.spectrum[i] == if i == s.count then p else s.spectrum[i]
  {
  }

  /** While the array has room, each interrupt's power is stored at the
      index the count had; the rest of the array is left alone. */
  lemma {:induction false} SweepRecordsPowers(s: CwState, powers: seq<u64>, i: int)
    requires s.state.Running? && s.freqStep > 0 && s.freq < s.freqMax
    requires |powers| == IrqsLeft(s.freq, s.freqMax, s.freqStep)
    requires 0 <= i < |s.spectrum|
    ensures s.count <= i < s.count + |powers| ==> Sweep(s, powers).s.spectrum[i] == powers[i - s.count]
    ensures !(s.count <= i < s.count + |powers|) ==> Sweep(s, powers).s.spectrum[i] == s.spectrum[i]
    decreases |powers|
  {
    var step := s.freqStep;
    var first := RecordPoint(s, powers[0]);
    var s1 := first.s;
    var tail := powers[1..];
    var rest := Sweep(s1, tail);
    assert Sweep(s, powers).s == rest.s;
    assert s1.freq == s.freq + step && s1.count == s.count + 1;
    assert |powers| == 1 + IrqsLeft(s1.freq, s.freqMax, step);
    RecordStoresAtCount(s, powers[0], i);
    if s1.freq >= s.freqMax {
      assert IrqsLeft(s1.freq, s.freqMax, step) == 1;
      assert |tail| == 1 && tail[1..] == [];
      var second := RecordPoint(s1, tail[0]);
      assert Sweep(second.s, tail[1..]) == CwStep(second.s, []);
      assert rest.s == second.s;
      RecordStoresAtCount(s1, tail[0], i);
    } else {
      SweepRecordsPowers(s1, tail, i);
    }
    if s.count < i < s.count + |powers| {
      assert tail[i - s1.count] == powers[i - s.count];
    }
  }

  /** The sweep is still running after every interrupt but the last. */
  lemma {:induction false} SweepRunsUntilLast(s: CwState, powers: seq<u64>, k: nat)
    requires s.state.Running? && s.freqStep > 0 && s.freq < s.freqMax
    requires |powers| == IrqsLeft(s.freq, s.freqMax, s.freqStep)
    requires k < |powers|
    ensures Sweep(s, powers[..k]).s.state == Running
    decreases k
  {
    if k > 0 {
      var s1 := RecordPoint(s, powers[0]).s;
      assert powers[..k][0] == powers[0];
      assert powers[..k][1..] == powers[1..][..k - 1];
      if s1.freq >= s.freqMax {
        assert k == 1;
        assert powers[..k][1..] == [];
      } else {
        SweepRunsUntilLast(s1, powers[1..], k - 1);
      }
    }
  }

  /** A whole sweep as the host starts it, for `freqMin < freqMax` and a
      positive step, with one correlation read per done interrupt: the
      channel is programmed with the points `freqMin + j * freqStep` in
      order, each once, followed by exactly two disables; the last point
      lies in `[freqMax, freqMax + freqStep)`, so the range is covered; the
      sweep then reads done, and the squared magnitude of the j-th point's
      correlation sits at index j of the array while the array has room. */
  lemma {:induction false} SweepCoversRange(s0: CwState, freqMin: int, freqMax: int, freqStep: int, corrs: seq<CwCorr>)
    requires freqStep > 0 && freqMin < freqMax
    requires |corrs| == IrqsLeft(freqMin, freqMax, freqStep)
    ensures var st := Start(s0, freqMin, freqMax, freqStep);
            var r := ServiceIrqs(st.s, corrs);
            var w := st.writes + r.writes;
            var n := |corrs|;
            && GetRunningDone(r.s) == 1
            && |w| == n + 2
            && (forall j :: 0 <= j < n ==> w[j] == InitParams(freqMin + j * freqStep))
            && w[n] == InitDisable && w[n + 1] == InitDisable
            && freqMax <= freqMin + (n - 1) * freqStep < freqMax + freqStep
            && r.s.count == n
            && |r.s.spectrum| == |s0.spectrum|
            && (forall j :: 0 <= j < n && j < |s0.spectrum| ==>
                  r.s.spectrum[j] == corrs[j].i * corrs[j].i + corrs[j].q * corrs[j].q)
  {
    var st := Start(s0, freqMin, freqMax, freqStep);
    var s := st.s;
    assert s.state.Running? && s.freq == freqMin && s.freqMax == freqMax && s.freqStep == freqStep;
    assert s.count == 0 && s.spectrum == s0.spectrum;
    var ps := Powers(corrs);
    ServiceIrqsIsSweep(s, corrs);
    var r := Sweep(s, ps);
    var w := st.writes + r.writes;
    var n := |corrs|;
    SweepFinishes(s, ps);
    SweepWrites(s, ps);
    assert |w| == n + 2;
    forall j | 0 <= j < n
      ensures w[j] == InitParams(freqMin + j * freqStep)
    {
      if j >= 2 {
        assert w[j] == r.writes[j - 2];
      }
    }
    assert w[n] == r.writes[n - 2];
    assert w[n + 1] == r.writes[n - 1];
    forall j | 0 <= j < n && j < |s0.spectrum|
      ensures r.s.spectrum[j] == corrs[j].i * corrs[j].i + corrs[j].q * corrs[j].q
    {
      SweepRecordsPowers(s, ps, j);
      assert ps[j] == Power(corrs[j]);
    }
  }

  /** Interrupts after the sweep has finished only disable the channel
      again. */
  lemma StrayIrqAfterDone(s: CwState, c: CwCorr)
    requires s.state == RunningDone
    ensures ServiceIrq(s, c) == CwStep(s, [InitDisable])
  {
  }
}
