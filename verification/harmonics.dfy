/** HarmonicOsc: a batch of four oscillator lanes, each a phase accumulator
    driving a fundamental sine plus harmonics 2..8, with the even harmonics
    weighted by one amplitude and the odd ones by another.

    The sine is a parameter `sin`: the model never relies on its values, so
    every property below holds for any real function in its place. */
module Harmonics {
  import opened Rack

  /** The value of the C macro M_PI. */
  const Pi: real := 3.14159265358979323846
  /** Highest harmonic in the series. */
  const TopHarmonic: int := 8

  /** `x` is a whole number. */
  predicate IsWhole(x: real) {
    x.Floor as real == x
  }

  // ---------------------------------------------------------------------------
  // Phase accumulator wrap
  // ---------------------------------------------------------------------------

  /** `phase -= floor(phase)`: the fractional part, in [0, 1), differing from
      the input by a whole number of cycles. */
  function Wrap(x: real): (r: real)
    ensures 0.0 <= r < 1.0
    ensures IsWhole(x - r)
  {
    x - x.Floor as real
  }

  /** A phase already in [0, 1) is left alone, so wrapping twice is wrapping once. */
  lemma WrapFixesUnitInterval(x: real)
    requires 0.0 <= x < 1.0
    ensures Wrap(x) == x
  {
    assert x.Floor == 0;
  }

  /** Adding whole cycles before the wrap does not change the wrapped phase. */
  lemma WrapPeriodic(x: real, n: int)
    ensures Wrap(x + n as real) == Wrap(x)
  {
    var k := x.Floor;
    assert k as real <= x < k as real + 1.0;
    assert (k + n) as real <= x + n as real < (k + n) as real + 1.0;
    assert (x + n as real).Floor == k + n;
  }

  // ---------------------------------------------------------------------------
  // Harmonic summation
  // ---------------------------------------------------------------------------

  /** Loop body of `summation`: harmonic `i` with the weight its parity selects. */
  function Term(sin: real -> real, oddsAmp: real, evensAmp: real, phase: real, i: int): real
    requires i >= 2
  {
    (if i % 2 == 0 then evensAmp else oddsAmp) * sin(2.0 * Pi * phase * i as real) / i as real
  }

  /** The terms from harmonic `i` up to the top one, summed. */
  function TermsFrom(sin: real -> real, oddsAmp: real, evensAmp: real, phase: real, i: int): real
    requires 2 <= i <= TopHarmonic + 1
    decreases TopHarmonic + 1 - i
  {
    if i > TopHarmonic then 0.0
    else Term(sin, oddsAmp, evensAmp, phase, i) + TermsFrom(sin, oddsAmp, evensAmp, phase, i + 1)
  }

  /** The additive series at `phase`: the fundamental sin(2 pi phase) plus, for
      i = 2..8, w(i) sin(2 pi phase i) / i, where w(i) is `evensAmp` for even i
      and `oddsAmp` for odd i. */
  function HarmonicSeries(sin: real -> real, oddsAmp: real, evensAmp: real, phase: real): real {
    sin(2.0 * Pi * phase) + TermsFrom(sin, oddsAmp, evensAmp, phase, 2)
  }

  /** The loop `for (i = i; i <= 8; i++) toReturn += term(i)`, with the running
      total `acc`: it adds exactly the remaining terms. */
  function Accumulate(sin: real -> real, oddsAmp: real, evensAmp: real, phase: real, acc: real, i: int): (r: real)
    requires 2 <= i <= TopHarmonic + 1
    ensures r == acc + TermsFrom(sin, oddsAmp, evensAmp, phase, i)
    decreases TopHarmonic + 1 - i
  {
    if i > TopHarmonic then acc
    else Accumulate(sin, oddsAmp, evensAmp, phase, acc + Term(sin, oddsAmp, evensAmp, phase, i), i + 1)
  }

  /** With both weights zero every remaining term vanishes. */
  lemma {:induction false} SilentTerms(sin: real -> real, phase: real, i: int)
    requires 2 <= i <= TopHarmonic + 1
    ensures TermsFrom(sin, 0.0, 0.0, phase, i) == 0.0
    decreases TopHarmonic + 1 - i
  {
    if i <= TopHarmonic {
      SilentTerms(sin, phase, i + 1);
    }
  }

  /** The early return taken when both weights are zero gives the same value
      the full loop would. */
  lemma ShortCircuitMatchesLoop(sin: real -> real, phase: real)
    ensures sin(2.0 * Pi * phase) == Accumulate(sin, 0.0, 0.0, phase, sin(2.0 * Pi * phase), 2)
  {
    SilentTerms(sin, phase, 2);
  }

  /** `HarmonicOsc::summation`: short-circuit on silent harmonics, else the loop.
      Either way the result is the series. */
  function Summation(sin: real -> real, oddsAmp: real, evensAmp: real, phase: real): (r: real)
    ensures r == HarmonicSeries(sin, oddsAmp, evensAmp, phase)
  {
    if oddsAmp == 0.0 && evensAmp == 0.0 then
      SilentSeries(sin, phase);
      sin(2.0 * Pi * phase)
    else
      Accumulate(sin, oddsAmp, evensAmp, phase, sin(2.0 * Pi * phase), 2)
  }

  /** The series written out term by term: harmonics 2, 4, 6, 8 take the
      even weight and 3, 5, 7 the odd one, each divided by its number. */
  lemma SeriesWrittenOut(sin: real -> real, oddsAmp: real, evensAmp: real, phase: real)
    ensures var w := 2.0 * Pi * phase;
            HarmonicSeries(sin, oddsAmp, evensAmp, phase)
            == sin(w)
               + evensAmp * sin(w * 2.0) / 2.0 + oddsAmp * sin(w * 3.0) / 3.0
               + evensAmp * sin(w * 4.0) / 4.0 + oddsAmp * sin(w * 5.0) / 5.0
               + evensAmp * sin(w * 6.0) / 6.0 + oddsAmp * sin(w * 7.0) / 7.0
               + evensAmp * sin(w * 8.0) / 8.0
  {
    var w := 2.0 * Pi * phase;
    assert TermsFrom(sin, oddsAmp, evensAmp, phase, 9) == 0.0;
    assert TermsFrom(sin, oddsAmp, evensAmp, phase, 8) == evensAmp * sin(w * 8.0) / 8.0;
    assert TermsFrom(sin, oddsAmp, evensAmp, phase, 7) == oddsAmp * sin(w * 7.0) / 7.0 + TermsFrom(sin, oddsAmp, evensAmp, phase, 8);
    assert TermsFrom(sin, oddsAmp, evensAmp, phase, 6) == evensAmp * sin(w * 6.0) / 6.0 + TermsFrom(sin, oddsAmp, evensAmp, phase, 7);
    assert TermsFrom(sin, oddsAmp, evensAmp, phase, 5) == oddsAmp * sin(w * 5.0) / 5.0 + TermsFrom(sin, oddsAmp, evensAmp, phase, 6);
    assert TermsFrom(sin, oddsAmp, evensAmp, phase, 4) == evensAmp * sin(w * 4.0) / 4.0 + TermsFrom(sin, oddsAmp, evensAmp, phase, 5);
    assert TermsFrom(sin, oddsAmp, evensAmp, phase, 3) == oddsAmp * sin(w * 3.0) / 3.0 + TermsFrom(sin, oddsAmp, evensAmp, phase, 4);
    assert TermsFrom(sin, oddsAmp, evensAmp, phase, 2) == evensAmp * sin(w * 2.0) / 2.0 + TermsFrom(sin, oddsAmp, evensAmp, phase, 3);
  }

  /** With both weights zero the series is the bare fundamental. */
  lemma SilentSeries(sin: real -> real, phase: real)
    ensures HarmonicSeries(sin, 0.0, 0.0, phase) == sin(2.0 * Pi * phase)
  {
    SilentTerms(sin, phase, 2);
  }

  // ---------------------------------------------------------------------------
  // The oscillator record
  // ---------------------------------------------------------------------------

  /** `HarmonicOsc<float_4>`: the group's channel count and harmonic weights,
      and per-lane frequency, phase and last output sample. */
  datatype HarmonicOsc = HarmonicOsc(
    channels: int, oddsAmp: real, evensAmp: real,
    freq: Quad, phase: Quad, out: Quad)

  /** `reset`, also what construction does. */
  function Reset(): (r: HarmonicOsc)
    ensures r.channels == 0 && r.oddsAmp == 0.0 && r.evensAmp == 0.0
    ensures forall k :: 0 <= k < 4 ==> r.freq[k] == 0.0 && r.phase[k] == 0.0 && r.out[k] == 0.0
  {
    var zero: Quad := [0.0, 0.0, 0.0, 0.0];
    HarmonicOsc(0, 0.0, 0.0, zero, zero, zero)
  }

  /** One lane's phase after a sample: `phase += freq * sampleTime` then the wrap. */
  function Advance(phase: real, freq: real, sampleTime: real): (r: real)
    ensures 0.0 <= r < 1.0
  {
    Wrap(phase + freq * sampleTime)
  }

  /** `phase += freq * sampleTime; phase -= floor(phase)` on every lane. */
  function AdvancePhases(o: HarmonicOsc, sampleTime: real): (r: HarmonicOsc)
    ensures r == o.(phase := r.phase)
    ensures forall k :: 0 <= k < 4 ==> 0.0 <= r.phase[k] < 1.0
    ensures forall k :: 0 <= k < 4 ==> r.phase[k] == Advance(o.phase[k], o.freq[k], sampleTime)
  {
    o.(phase := seq(4, k requires 0 <= k < 4 => Advance(o.phase[k], o.freq[k], sampleTime)))
  }

  /** `out = summation(phase)` on every lane. */
  function Evaluate(sin: real -> real, o: HarmonicOsc): (r: HarmonicOsc)
    ensures r == o.(out := r.out)
    ensures forall k :: 0 <= k < 4 ==> r.out[k] == HarmonicSeries(sin, o.oddsAmp, o.evensAmp, o.phase[k])
  {
    o.(out := seq(4, k requires 0 <= k < 4 => Summation(sin, o.oddsAmp, o.evensAmp, o.phase[k])))
  }

  /** `HarmonicOsc::process`: advance every lane's phase by one sample, wrap it
      into [0, 1), and evaluate `summation` there. Frequency, weights and
      channel count are left as they were. */
  function Process(sin: real -> real, o: HarmonicOsc, sampleTime: real): (r: HarmonicOsc)
    ensures r.channels == o.channels && r.oddsAmp == o.oddsAmp && r.evensAmp == o.evensAmp
    ensures r.freq == o.freq
    ensures forall k :: 0 <= k < 4 ==> 0.0 <= r.phase[k] < 1.0
    ensures forall k :: 0 <= k < 4 ==> r.phase[k] == Advance(o.phase[k], o.freq[k], sampleTime)
    ensures forall k :: 0 <= k < 4 ==> r.out[k] == HarmonicSeries(sin, o.oddsAmp, o.evensAmp, r.phase[k])
  {
    Evaluate(sin, AdvancePhases(o, sampleTime))
  }
}
