# Tracking channels and CW sweep of the Piksi firmware, in Dafny

This project models the GPS tracking-channel controller of the Piksi receiver
firmware (`src/track.c`) and its CW (continuous-wave) search channel
(`src/cw.c`), and proves properties of the model.

A tracking channel follows one satellite's C/A code and carrier on the NAP
correlator. Each channel is driven by two interrupt-paced operations:
- a correlator read-out, which stores or accumulates the early, prompt and
  late correlations;
- an update, which:
  - integrates the interval just read at the rates the hardware actually used;
  - advances the time of week;
  - runs the navigation decoder, the C/N0 estimator and the aided loop filter;
  - checks for a false lock on a data-rate alias;
  - promotes the channel from stage 0 (1 ms integration) to stage 1 once bit
    sync is found;
  - writes the new code rate and carrier frequency.

Coherent lengths above 1 ms are delivered by the hardware as a short 1 ms half
and a long half, and the update alternates between the two. Initialisation:
- arms the channel half a chip early;
- marks the carrier-phase ambiguity unknown, which advances the satellite's
  16-bit lock counter;
- programs the first rates.

The loop-parameter setting is validated all-or-nothing. The CW channel loads a
sample RAM. It then sweeps evenly spaced frequencies, recording the correlation
power of each, one point ahead in the hardware pipeline, and finishes with two
disable writes.

Every operation is a pure function. It maps the channel state (and, where the
source touches it, the per-satellite lock-counter table) to the new state and
to the ordered list of register writes it issues. The numeric engines (loop
filter, C/N0 estimator, alias detector, navigation decoder) are not modelled
inside. Their states are opaque types, and their operations are the
function-valued fields of an `Engines` value passed in. So every property holds
for every engine, except where a member says otherwise.
`TrackProps.UpdatePreservesWellFormed`, `TrackProps.Apply`, `TrackProps.Run`,
`TrackProps.PromotedAtMostOnce` and `TrackProps.LockCounterDetectsResets`
assume the decoder reports times within one week
(`TrackState.DecoderTowInWeek`). `TrackProps.CoherentPair` states the alias
detector's input under the hypothesis that the detector records the first
capture it is handed.

The C integer rules the code depends on are written out in `FixedWidth`:
- `u16`, `u32` and `u64` wrap-around;
- truncating `/` and `%`.

Files:
- `fixed_width.dfy`: C integer types, wrap-around, truncating division;
  arithmetic lemmas.
- `code_phase.dfy`: the integer part of `propagate_code_phase`.
- `loop_params.dfy`: loop parameters and `parse_loop_params`, as written and
  corrected.
- `track_state.dfy`: the channel, the register writes, the engines, and the
  well-formedness invariant.
- `track.dfy`: init, read-out, update, disable, ambiguity reset, state report.
- `track_props.dfy`: properties across operations.
- `cw.dfy`: the CW load handshake, sweep start and done interrupt.
- `cw_sweep.dfy`: properties of a whole sweep.

## Model

| member | source | states |
|---|---|---|
| FixedWidth.CDiv | src/track.c:309 | C's `/` truncates toward zero: the quotient's magnitude is the quotient of the magnitudes, and it is negative only when the operand signs differ; the alias average at src/track.c:346-347 is its second use |
| FixedWidth.CRem | src/track.c:268-269 | C's `%` is smaller in magnitude than the divisor and carries the sign of the dividend |
| FixedWidth.CDivRem | src/track.c:309 | the truncating quotient and remainder satisfy the C identity `a == (a/b)*b + a%b` |
| FixedWidth.ToU16Increments | src/track.c:427 | between 1 and 65535 increments always change a `u16` counter; 65536 of them bring it back |
| CodePhase.Propagate | src/track.c:90-96 | the propagated code phase is k/16 chips for some k below 1023*16, so it always lies in [0, 1023) chips |
| CodePhase.PropagateNoWrap | src/track.c:90-96 | below 2^60 the 64-bit sum and the 32-bit cast lose nothing: the result is the exact sub-chip count of phase + n*rate, modulo the code period |
| CodePhase.PropagatePeriodic | src/track.c:93-96 | starting one code period (1023 chips) later gives the same code phase: the wrap is at 1023 chips, not 1024 |
| CodePhase.PropagateComposes | src/track.c:90-96 | propagating n1 samples and then n2 from the returned phase agrees with propagating n1+n2 at once, up to the one sub-chip the first call's fraction loses |
| LoopParams.DefaultIsValid | src/track.c:27-31 | the compiled-in setting (1 ms, then 5 ms) passes validation |
| LoopParams.ValidCoherentMsValues | src/track.c:531-533 | a supported coherent length is exactly one of 1, 2, 4, 5, 10, 20 ms |
| LoopParams.NarrowStage | src/track.c:525 | the stored stage keeps the scanned length only modulo 256, with the gains as read; below 256 nothing is lost |
| LoopParams.ParseAsWritten | src/track.c:511-537 | as written, the parse succeeds if and only if both stages scan and their lengths modulo 256 pass the stage checks; it then stores both stages narrowed, gains as read, and the result validates |
| LoopParams.ApplyLoopParamsAsWritten | src/track.c:502-542 | as written, the setting is accepted exactly under the narrowed checks; a rejected setting leaves the configuration in force; an accepted one validates and holds both scanned stages, lengths modulo 256 |
| LoopParams.AsWrittenAcceptsOutOfRangeLength | src/track.c:515-536 | as written, a scanned length of 257 ms (not a divisor of 20) is accepted and stored as 1 ms |
| LoopParams.Parse | src/track.c:511-537 | the parse succeeds exactly when both stages scan, stage 0 is 1 ms and stage 1 divides 20; it then stores each stage's length, code-loop gains and carrier-loop gains as scanned |
| LoopParams.Commit | src/track.c:538-541 | the parse result is committed whole on success, and the configuration in force is kept on failure |
| LoopParams.ApplyLoopParams | src/track.c:502-542 | all or nothing: a rejected setting leaves the configuration unchanged; an accepted one is valid and holds both scanned stages (lengths and both loops' gains) |
| LoopParams.ApplyAcceptsExactlyValid | src/track.c:511-541 | the setting is accepted if and only if both stages scan, stage 0 is 1 ms and stage 1 is a supported length |
| LoopParams.OmittedSecondStageReusesFirst | src/track.c:526-529 | a text with only one stage applies it to both stages, and is accepted exactly when that stage is 1 ms |
| LoopParams.CorrectionAgreesBelow256 | src/track.c:525 | the corrected parse differs from the code only for scanned lengths of 256 and above |
| LoopParams.RejectsOutOfRangeLength | src/track.c:531-535 | the corrected parse rejects the 257 ms text and keeps the configuration in force |
| Track.AmbiguityUnknown | src/track.c:423-428 | the satellite's lock counter moves on by one modulo 2^16, the channel takes a copy, no other satellite's counter changes, and the half-cycle polarity becomes unknown |
| Track.Init | src/track.c:109-188 | running in stage 0 at the stage-0 length with a fresh pair; counters, phases and TOW reset; start time moved back 8 samples to the early tap (mod 2^32); lock counter advanced; the loop filter started from the stage-0 parameters and the carrier estimate, the C/N0 estimator at the stage-0 length from the given seed, and the SNR threshold counters at 0; taps, C/N0 and IQ flag kept; writes code, init, rates, strobe in that order; a valid configuration gives a well-formed channel |
| Track.Disable | src/track.c:409-413 | the channel becomes disabled with nothing else changed, after a zero-rate write that stops its interrupts |
| Track.GetCorrs | src/track.c:194-223 | a running channel adds the dump to its taps on the long half; otherwise it replaces them and hands the prompt tap to the alias detector's first capture; a non-running channel is untouched |
| Track.AdvanceTow | src/track.c:265-270 | an unknown TOW stays unknown; a known one advances by the half-cycle's milliseconds, wraps at one week, and stays a valid TOW |
| Track.AdoptTow | src/track.c:294-302 | a TOW reported by the decoder (positive) is adopted; otherwise the running count stands |
| Track.Integrate | src/track.c:253-263 | the interval just read is integrated at the rates in use while it ran (one sample less for the first update), the sample count wraps at 2^32, the commanded rates become the ones in use, and nothing else changes |
| Track.CycleField | src/track.c:385-389 | the programmed field plus one is the half-cycle's length in milliseconds: 1 at 1 ms, the `intMs - 1` of the long half otherwise |
| Track.CheckAlias | src/track.c:345-358 | at 1 ms nothing changes; otherwise the detector gets the prompt's excess over the first capture averaged over `intMs - 1` ms (truncated); a false lock stamps the mode change and corrects the loop filter by the error, and without one both stay; nothing else changes |
| Track.Promote | src/track.c:360-383 | promotion happens only at stage 0, 1 ms and bit sync, and then sets stage 1, the stage-1 length, a fresh pair and the mode-change stamp, restarts the C/N0 estimator at the stage-1 length from the current C/N0 and retunes the loop filter with the stage-1 parameters; nothing else changes |
| Track.FullUpdate | src/track.c:291-390 | the full cycle advances the update count by the coherent length, keeps the decoder's state and the C/N0 computed from the per-millisecond prompt (truncated), adopts the decoded TOW, takes the loop filter's rates, writes them with the cycle field, promotes exactly on bit sync (restarting the estimator from the new C/N0 and retuning the filtered state), leaves the IQ flag and SNR counters alone, and above 1 ms applies the false-lock check to the filtered state |
| Track.Update | src/track.c:245-400 | a running channel integrates at the previous rates (one sample less on the first update) and makes the commanded rates current; the IQ flag and SNR counters are never touched; the short half only does bookkeeping (engines, C/N0 and estimator kept) and re-issues the current rates with field 0; the full cycle counts, adopts the TOW, keeps the decoder state and C/N0 the engines return, takes new rates and may promote; a stage-0 cycle at 1 ms that does not promote keeps the filter and estimator states the engines return, the alias detector, the mode-change stamp and the half-cycle flag; a non-running channel is disabled; exactly one rate write either way |
| Track.SendState | src/track.c:483-492 | one entry per channel with its state and satellite, its C/N0 when running and -1 otherwise |
| TrackProps.UpdatePreservesWellFormed | src/track.c:245-400 | updates keep a supported coherent length, stage 0 at 1 ms, stage at most 1 and a valid TOW, given a decoder that reports times within one week |
| TrackProps.GetCorrsPreservesWellFormed | src/track.c:194-223 | read-outs keep the channel well-formed and leave its stage and lock counter alone |
| TrackProps.OneMsUpdatesAreFull | src/track.c:272-291 | at 1 ms every update is a full one: it counts one millisecond and takes the loop filter's rates |
| TrackProps.TowPairAdvancesCoherentMs | src/track.c:265-270 | the short and long halves together advance a known TOW by the whole coherent length, modulo one week |
| TrackProps.CoherentPair | src/track.c:272-291 | over a short/long pair the taps are the sum of both dumps, the alias capture is the short half's prompt, the update count moves once by the coherent length, the programmed lengths (field + 1) add up to it, the next pair starts short again, a known TOW advances by it, and a detector that records its first capture is then handed the second dump's prompt averaged over `intMs - 1` ms |
| TrackProps.LongHalfChecksAlias | src/track.c:309-358 | on the long half the C/N0 comes from the whole sum, the detector gets the averaged excess, a false lock corrects only the loop filter's state and stamps the mode change, and the carrier frequency written in that update is the uncorrected one |
| TrackProps.FalseLockBoundIsTruncated | src/track.c:349 | the false-lock bound is the integer quotient 250 / intMs (62 Hz at 4 ms, 12 Hz at 20 ms), strict and symmetric in the error's sign |
| TrackProps.RatesTakeEffectOneUpdateLate | src/track.c:253-263 | the interval read after an update is integrated at the rates commanded before that update, not the ones it wrote |
| TrackProps.TowCountsMilliseconds | src/track.c:265-270 | n one-millisecond advances of the TOW clock (`AdvanceTow` iterated) take a known TOW to (t + n) mod one week, and an unknown TOW stays unknown |
| TrackProps.OneMsUpdateTicksTow | src/track.c:265-302 | a 1 ms update with nothing decoded is exactly one advance of that clock, which ties the count above to updates |
| TrackProps.Apply | src/track.c:194-428 | each event a channel receives, an update under whatever valid loop-parameter setting is then in force, keeps it well-formed, never lowers its stage, and changes the lock-counter table only at its satellite and only on an ambiguity reset |
| TrackProps.Run | src/track.c:194-428 | over any run of events, with the loop-parameter setting free to change to any valid one before every update (the settings callback at src/track.c:538-541), the channel stays well-formed, its stage never goes back, its satellite's counter has moved by the number of resets mod 2^16, other satellites' counters are untouched, and the channel's copy is in step |
| TrackProps.PromotedAtMostOnce | src/track.c:360-383 | in any run of events, even with the loop-parameter setting changing between updates, promotion to stage 1 happens at most once, and exactly when the stage changed |
| TrackProps.LockCounterDetectsResets | src/track.c:427 | a run with 1 to 65535 resets always leaves a different counter, and one with 65536 resets leaves it where it was |
| TrackProps.LockCounterWraps | src/track.c:427 | the counter is not monotone: a reset takes 65535 to 0 |
| TrackProps.DisableIdempotent | src/track.c:409-413 | disabling twice is the same as disabling once |
| TrackProps.StrayUpdateOnDisabled | src/track.c:394-398 | an update on a disabled channel changes nothing and re-issues the zero rates |
| TrackProps.ReportAfterDisable | src/track.c:483-492 | after channel k is disabled its report entry reads not-tracking with C/N0 -1 and the same satellite, and every other entry is unchanged |
| Cw.ScheduleLoad | src/cw.c:52-57 | only the state changes, to loading, after the load-enable write and the timing strobe at the given count |
| Cw.ServiceLoadDone | src/cw.c:63-67 | the load-done interrupt disables loading and sets only the state, to loading-done |
| Cw.GetLoadDone | src/cw.c:72-75 | 1 if and only if the sample RAM load has finished, otherwise 0 |
| Cw.GetRunningDone | src/cw.c:80-83 | 1 if and only if the sweep has finished, otherwise 0 |
| Cw.Start | src/cw.c:103-110 | running, count 0, at the first frequency, with the first two points programmed to fill the pipeline |
| Cw.Power | src/cw.c:137 | the 64-bit power computation from 32-bit correlations is the exact I^2 + Q^2, with no overflow |
| Cw.NextPoint | src/cw.c:150-161 | past the end plus one step: second disable and done; in the last step: first disable, still running; below the end: the point after next is programmed |
| Cw.RecordPoint | src/cw.c:133-161 | a running sweep counts the point, stores its power only where the array has room, steps the frequency by exactly one step and picks the pipeline write by where the new frequency lies; otherwise only a disable write |
| Cw.ServiceIrq | src/cw.c:118-165 | exactly one write per interrupt; when not running only a disable and no state change; when running the power stored at the count's slot is I^2 + Q^2 |
| CwSweep.LoadHandshake | src/cw.c:52-83 | after scheduling a load neither done flag is up; after the load-done interrupt exactly the load flag is up |
| CwSweep.DoneFlagsExclusive | src/cw.c:72-83 | the two done flags are never both 1 |
| CwSweep.Sweep | src/cw.c:118-165 | a run of done interrupts issues exactly one write per interrupt and keeps the array's size |
| CwSweep.ServiceIrqsIsSweep | src/cw.c:133-143 | servicing a run of interrupts is the sweep over the powers they read |
| CwSweep.SweepFinishes | src/cw.c:150-161 | from below the end of the range a positive-step sweep takes at least two interrupts, counts each, finishes, and its last point lies in [end, end + step) |
| CwSweep.SweepWrites | src/cw.c:145-161 | every interrupt of that sweep but the last two programs the point after next, and exactly the last two write the disable |
| CwSweep.SweepRecordsPowers | src/cw.c:139-143 | each interrupt's power lands at the index the count had while the array has room, and no other slot changes |
| CwSweep.SweepRunsUntilLast | src/cw.c:150-161 | the sweep is still running after every interrupt but the last |
| CwSweep.SweepCoversRange | src/cw.c:92-161 | a started sweep programs freqMin + j*step for each point in order, then two disables; it covers the range; it ends done with the count equal to the number of points; the j-th point's I^2 + Q^2 is stored at index j while the array has room |
| CwSweep.StrayIrqAfterDone | src/cw.c:125-131 | interrupts after the sweep has finished only write the disable |

## Notes on the code

These are places where the code's behaviour is easy to misread. The model
follows the code in each case.

- The false-lock correction adds the alias error to the loop filter's carrier
  state only (src/track.c:355-356). The carrier frequency written in the same
  update is the one computed before the correction, so the correction takes
  effect from the next update on.
- The lock counter is a `u16` with a pre-increment (src/track.c:427). It
  wraps, so it is not monotone (`TrackProps.LockCounterWraps`).
- Initialisation does not reset the stored taps, the read-out sample count,
  the last C/N0 or the IQ-output flag (src/track.c:109-188).
- The ambiguity reset inside initialisation clears the decoder's bit polarity
  before `nav_msg_init` reinitialises the whole decoder state
  (src/track.c:131, 160).
- The cycle-length field of the final write uses the coherent length after a
  promotion in the same update (src/track.c:389).
- The false-lock threshold `250 / int_ms` is an integer division
  (src/track.c:349), and so is `cs[1].I / int_ms` (src/track.c:309). The
  alias average at src/track.c:346-347 is modelled as a truncating integer
  division as well; see "Left out" for the assumption this makes.
- The TOW `%=` is C's truncating remainder (src/track.c:269).
- The "no time of week" sentinel `TOW_INVALID` is defined in a header that is
  not part of this model. The model takes it to be -1
  (`TrackState.TOW_INVALID`). The advance (src/track.c:266) and the adoption
  (src/track.c:294-302) depend on it only through being negative, which keeps
  it apart from every millisecond of the week.

## Left out

- Floating point:
  - the conversion of Hz to register units (src/track.c:113, 151-156,
    334-342, 181);
  - the carrier-aided code rate;
  - the `ceil` and Hz scaling in `cw_start` (src/cw.c:98-100);
  - the float result of `propagate_code_phase`.

  The model takes the register values as inputs, takes the loop filter's
  output already in register units, and returns the integer sub-chip count k
  (the code phase is k/16 chips).
- The internals of the loop filter, the C/N0 estimator, the alias detector and
  the navigation-message decoder: they are opaque engines.
- Logging, the IQ telemetry message (src/track.c:321-331), the sending of the
  state message, `cw_send_result`, and callback registration (`cw_setup`,
  `tracking_setup`, `cw_start_callback`).
- The `sscanf` grammar: a `Scanner` function stands for one call. So does
  copying the accepted text into the settings buffer (src/track.c:539).
- The simulation branch of `tracking_send_state` (src/track.c:469-482).
- `tracking_drop_satellite`, `tracking_update_measurement`,
  `tracking_channel_snr` as a separate operation, `cw_get_spectrum_point`, and
  the random seeding of the lock counters (`initialize_lock_counters`). The
  initial table is arbitrary.
- The correlator reads (`nap_track_corr_rd_blocking`, src/track.c:206 and
  213; `nap_cw_corr_rd_blocking`, src/cw.c:135) are arguments (`Dump`, the
  CW correlation), not trace events. So the model does not show that a
  disabled tracking channel (src/track.c:218-221) or a CW interrupt outside a
  sweep (src/cw.c:125-131) issues no read.
- Interrupt concurrency: a channel's read-outs and updates are serialised, and
  `TrackProps.Run` applies any sequence of them.
- Signed overflow: the carrier-phase (`s64`) and correlation-accumulator
  (`s32`) sums are unbounded integers here. Overflow of those sums is
  undefined behaviour in C.
- Init: a start sample count below 8 is wrapped modulo 2^32 here. In C the
  conversion of the negative `double` back to `u32` is undefined.
- Cw: the widths of `count`, `freq` and the frequency fields are not modelled.
  The `cw_state_t` declaration in `cw.h` is not part of this model, and
  neither is `SPECTRUM_LEN`. The power array is a sequence whose length is its
  capacity.
- Track.Update: its own contract does not repeat what the full cycle does with
  the C/N0 estimate, the alias detector and the loop-filter state for sums
  longer than 1 ms, nor the promotion's restarted estimator and retuned filter.
  Those facts are stated on `Track.FullUpdate` and `Track.CheckAlias`, and
  `TrackProps.LongHalfChecksAlias` lifts them to `Track.Update` for the long
  half.
- Track.Init: the loop filter's initial code-rate offset (`code_phase_rate`
  minus the chipping rate, src/track.c:139, a float) is not an argument of the
  `loopInit` engine. The contract ties the filter only to the stage-0
  parameters and the carrier estimate.
- Track.CheckAlias: the type of `alias_detect.first_I` and `first_Q` is
  declared in a header that is not part of this model. The model takes them
  as integers, so the average is C's truncating integer quotient. If they are
  floating point, C divides in floating point and truncates toward zero on the
  `s32` assignment. That gives the same value up to floating-point rounding.
- Track.Update requires a running channel's coherent length to be at least
  1. A length of 0 would divide by zero in C (src/track.c:309), and parameter
  validation rules it out.

## Findings

| source | as written | input that shows it | evidently intended | confidence | as-written member | corrected member |
|---|---|---|---|---|---|---|
| src/track.c:515-536 | the `%u` length is stored into the `u8` `coherent_ms` before it is validated, so validation checks the value modulo 256 | the setting "(257 ms, …)" with no second stage: stored and accepted as 1 ms (260 ms would become 4 ms) | validate the scanned length, then store it; 257 ms is rejected | not executed | LoopParams.AsWrittenAcceptsOutOfRangeLength | LoopParams.ApplyLoopParams |
