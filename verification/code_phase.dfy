/**
 The code-phase propagator of the tracking firmware, integer part only.

 The correlator keeps code phase in fixed point, chips times 2^32: the
 integer chip number, then four bits of sub-chip (16 sub-chips per chip),
 then 28 bits of fraction. Propagation adds `n_samples * rate` in that
 domain, shifts the fraction away and wraps the sub-chip count at the
 C/A code period of 1023 chips (IS-GPS-200, section 3.2.1.3) rather than
 at the 1024 chips the bit width would give. The result is a whole number
 of sub-chips, that is, a code phase of k/16 chips.
 */
module CodePhase {
  import opened FixedWidth

  const SUBCHIPS_PER_CHIP: nat := 16
  const CODE_LENGTH_CHIPS: nat := 1023
  /** One code period in sub-chips. */
  const CODE_PERIOD: nat := CODE_LENGTH_CHIPS * SUBCHIPS_PER_CHIP
  /** One sub-chip in fixed-point units (the fraction is 28 bits wide). */
  const SUBCHIP_UNITS: nat := 0x1000_0000
  /** Below this bound the shifted phase fits the 32-bit cast in the source. */
  const NO_WRAP_BOUND: nat := 0x1000_0000_0000_0000

  /** The fixed-point code phase that corresponds to `k` whole sub-chips;
      this is the exact value the source computes when its own result
      `k/16` chips is fed back as the next starting phase. */
  function SubchipsToFixed(k: nat): nat {
    k * SUBCHIP_UNITS
  }

  /** Code phase `k/16` chips as a real number of chips. */
  function SubchipsToChips(k: nat): real {
    k as real / SUBCHIPS_PER_CHIP as real
  }

  /** Propagates the fixed-point code phase `phaseFp` by `nSamples` samples
      at `rateFp` units per sample and returns the whole sub-chip count,
      wrapped at the code period: 64-bit sum, shift by 28, 32-bit cast,
      then the modulus 1023*16. */
  function Propagate(phaseFp: u64, rateFp: u32, nSamples: u32): (k: nat)
    ensures k < CODE_PERIOD
    ensures 0.0 <= SubchipsToChips(k) < CODE_LENGTH_CHIPS as real
  {
    var propagated := ToU64(phaseFp + nSamples * rateFp);
    ToU32(propagated / SUBCHIP_UNITS) % CODE_PERIOD
  }

  /** Splitting a sum: the sub-chip count of `f + x` for a fraction `f`
      exceeds that of `x` by at most one. */
  lemma DivOfSumWithFraction(f: int, x: int, d: int)
    requires d > 0 && 0 <= f < d && 0 <= x
    ensures (f + x) / d == x / d || (f + x) / d == x / d + 1
  {
    assert x == (x / d) * d + x % d;
    var s := f + x % d;
    assert 0 <= s < 2 * d;
    DivAddMultiple(x / d, s, d);
    assert f + x == (x / d) * d + s;
    if s < d {
      DivModUnique(s, d, 0, s);
    } else {
      DivModUnique(s, d, 1, s - d);
    }
  }

  // ---------------------------------------------------------------------
  // Properties
  // ---------------------------------------------------------------------

  /** Below the wrap bound the propagated phase is just the sub-chip count
      of the exact sum, reduced modulo the code period. */
  lemma PropagateNoWrap(phaseFp: u64, rateFp: u32, nSamples: u32)
    requires phaseFp + nSamples * rateFp < NO_WRAP_BOUND
    ensures Propagate(phaseFp, rateFp, nSamples)
            == ((phaseFp + nSamples * rateFp) / SUBCHIP_UNITS) % CODE_PERIOD
  {
    var s := phaseFp + nSamples * rateFp;
    assert 0 <= s;
    DivModUnique(s, SUBCHIP_UNITS, s / SUBCHIP_UNITS, s % SUBCHIP_UNITS);
    assert s / SUBCHIP_UNITS < U32_MOD;
  }

  /** The propagator is periodic in its starting phase with a period of
      1023 chips: starting one whole code period later gives the same
      code phase. */
  lemma {:induction false} PropagatePeriodic(phaseFp: u64, rateFp: u32, nSamples: u32)
    requires phaseFp + SubchipsToFixed(CODE_PERIOD) + nSamples * rateFp < NO_WRAP_BOUND
    ensures phaseFp + SubchipsToFixed(CODE_PERIOD) < U64_MOD
    ensures Propagate((phaseFp + SubchipsToFixed(CODE_PERIOD)) as u64, rateFp, nSamples)
            == Propagate(phaseFp, rateFp, nSamples)
  {
    MulNonNegative(nSamples, rateFp);
    var x: nat := nSamples * rateFp;
    var shifted := (phaseFp + SubchipsToFixed(CODE_PERIOD)) as u64;
    var s: nat := phaseFp + x;
    PropagateNoWrap(phaseFp, rateFp, nSamples);
    PropagateNoWrap(shifted, rateFp, nSamples);
    assert shifted + x == CODE_PERIOD * SUBCHIP_UNITS + s;
    DivAddMultiple(CODE_PERIOD, s, SUBCHIP_UNITS);
    DivAddMultiple(1, s / SUBCHIP_UNITS, CODE_PERIOD);
  }

  /** The arithmetic core of composition: reducing after the first step
      and dropping its fraction `f` loses at most one sub-chip. */
  lemma ComposeCore(q: int, f: int, x: nat, c: int, kd: int, k2: int)
    requires 0 <= f < SUBCHIP_UNITS
    requires c == q * SUBCHIP_UNITS + (f + x)
    requires k2 == (q % CODE_PERIOD + x / SUBCHIP_UNITS) % CODE_PERIOD
    requires kd == c / SUBCHIP_UNITS % CODE_PERIOD
    ensures kd == k2 || kd == (k2 + 1) % CODE_PERIOD
  {
    var F := SUBCHIP_UNITS;
    var P := CODE_PERIOD;
    DivAddMultiple(q, f + x, F);
    DivOfSumWithFraction(f, x, F);
    ModAddMod(q, x / F, P);
    if (f + x) / F == x / F + 1 {
      ModAddMod(q + x / F, 1, P);
    }
  }

  /** Propagating by `n1` samples and then, from the returned code phase,
      by `n2` more agrees with propagating by `n1 + n2` at once, up to the
      one sub-chip of fraction the first call discards. */
  lemma {:induction false} PropagateComposes(phaseFp: u64, rateFp: u32, n1: u32, n2: u32)
    requires n1 + n2 < U32_MOD
    requires phaseFp + (n1 + n2) * rateFp < NO_WRAP_BOUND
    requires SubchipsToFixed(CODE_PERIOD) + n2 * rateFp < NO_WRAP_BOUND
    ensures SubchipsToFixed(Propagate(phaseFp, rateFp, n1)) < U64_MOD
    ensures var k2 := Propagate(SubchipsToFixed(Propagate(phaseFp, rateFp, n1)) as u64, rateFp, n2);
            var kd := Propagate(phaseFp, rateFp, (n1 + n2) as u32);
            kd == k2 || kd == (k2 + 1) % CODE_PERIOD
  {
    var F := SUBCHIP_UNITS;
    MulNonNegative(n2, rateFp);
    var x: nat := n2 * rateFp;
    var a := phaseFp + n1 * rateFp;
    Distributes(n1, n2, rateFp);
    PropagateNoWrap(phaseFp, rateFp, n1);
    var q := a / F;
    var f := a % F;
    assert a == q * F + f;
    var k1 := Propagate(phaseFp, rateFp, n1);
    assert k1 == q % CODE_PERIOD;
    var b := SubchipsToFixed(k1);
    assert b <= SubchipsToFixed(CODE_PERIOD);
    PropagateNoWrap(b as u64, rateFp, n2);
    DivAddMultiple(k1, x, F);
    var k2 := Propagate(b as u64, rateFp, n2);
    assert k2 == (k1 + x / F) % CODE_PERIOD;
    PropagateNoWrap(phaseFp, rateFp, (n1 + n2) as u32);
    var kd := Propagate(phaseFp, rateFp, (n1 + n2) as u32);
    var c := phaseFp + (n1 + n2) * rateFp;
    assert kd == c / F % CODE_PERIOD;
    assert c == q * F + (f + x);
    ComposeCore(q, f, x, c, kd, k2);
  }
}
