/** Sage: a polyphonic additive oscillator. Up to sixteen channels, set by
    the V/OCT cable, run in groups of four lanes, each group one
    `HarmonicOsc`. Per tick the module blends the harmonic-amplitude CVs into
    the knobs, maps pitch plus FM to a frequency clamped to a sixteenth of the
    sample rate, steps every visited group, and publishes the output scaled by
    the output knob and clipped to +-5 V.

    The exponential `dsp::approxExp2_taylor5` is the parameter `exp2`; the
    properties that need something of it say so in their preconditions. */
module Sage {
  import opened Rack
  import opened Harmonics

  /** Pitch of 0 V / octave: middle C, in Hz (the host's dsp::FREQ_C4). */
  const FreqC4: real := 261.6256
  /** `approxExp2_taylor5(pitch + 30) / 2^30`: the bias keeps the approximation's argument positive. */
  const Exp2Bias: real := 30.0
  const TwoPow30: real := 1073741824.0
  /** The fundamental is capped at sampleRate / 16 so the eighth harmonic stays below Nyquist. */
  const HeadroomDivisor: real := 16.0
  /** Volts of CV for a full-scale change of a harmonic amplitude. */
  const AmpCvScale: real := 15.0
  /** Peak output voltage before the output knob, and the clip level. */
  const OutputScale: real := 5.0
  const OutputLimit: real := 5.0

  /** The knobs: harmonic weights, tune in semitones, output gain and FM depth. */
  datatype Params = Params(odds: real, evens: real, tune: real, outGain: real, fmDepth: real)

  /** The ranges the knobs are configured with. */
  predicate ParamsInRange(p: Params) {
    && 0.0 <= p.odds <= 1.0
    && 0.0 <= p.evens <= 1.0
    && -12.0 <= p.tune <= 12.0
    && 0.0 <= p.outGain <= 1.0
    && -1.0 <= p.fmDepth <= 1.0
  }

  datatype Inputs = Inputs(fm: Port, odds: Port, evens: Port, voct: Port)

  /** What the host passes to each tick. */
  datatype ProcessArgs = ProcessArgs(sampleRate: real, sampleTime: real)

  /** The module's four oscillator groups. */
  type Bank = s: seq<HarmonicOsc> | |s| == 4 witness [Reset(), Reset(), Reset(), Reset()]

  /** Module state: the oscillator groups and the output port. */
  datatype Sage = Sage(oscillators: Bank, out: Port)

  /** Construction: every group reset, output port as the host hands it over. */
  function Init(out: Port): (r: Sage)
    ensures r.out == out
    ensures forall g :: 0 <= g < 4 ==>
              && r.oscillators[g].channels == 0
              && r.oscillators[g].oddsAmp == 0.0 && r.oscillators[g].evensAmp == 0.0
              && (forall k :: 0 <= k < 4 ==>
                    r.oscillators[g].freq[k] == 0.0 && r.oscillators[g].phase[k] == 0.0 && r.oscillators[g].out[k] == 0.0)
  {
    Sage([Reset(), Reset(), Reset(), Reset()], out)
  }

  // ---------------------------------------------------------------------------
  // Harmonic amplitudes
  // ---------------------------------------------------------------------------

  /** The odds and evens amplitudes for this tick. A patched ODDS CV adds
      volts / 15 to the odds knob; a patched EVENS CV adds volts / 15 to the
      already blended odds amplitude, not to the evens knob. Each blend is
      clamped to [0, 1], so with the knobs in their range so are both results. */
  function HarmonicAmps(p: Params, i: Inputs): (r: (real, real))
    ensures !IsConnected(i.odds) ==> r.0 == p.odds
    ensures !IsConnected(i.evens) ==> r.1 == p.evens
    ensures IsConnected(i.odds) ==> r.0 == Clamp(Voltage(i.odds) / AmpCvScale + p.odds, 0.0, 1.0)
    ensures IsConnected(i.evens) ==> r.1 == Clamp(Voltage(i.evens) / AmpCvScale + r.0, 0.0, 1.0)
    ensures (IsConnected(i.odds) || 0.0 <= p.odds <= 1.0) ==> 0.0 <= r.0 <= 1.0
    ensures (IsConnected(i.evens) || 0.0 <= p.evens <= 1.0) ==> 0.0 <= r.1 <= 1.0
  {
    var odds := if IsConnected(i.odds) then Clamp(Voltage(i.odds) / AmpCvScale + p.odds, 0.0, 1.0) else p.odds;
    var evens := if IsConnected(i.evens) then Clamp(Voltage(i.evens) / AmpCvScale + odds, 0.0, 1.0) else p.evens;
    (odds, evens)
  }

  /** With the EVENS CV patched the evens knob has no effect at all. */
  lemma EvensKnobIgnoredWhenPatched(p: Params, i: Inputs, evens: real)
    requires IsConnected(i.evens)
    ensures HarmonicAmps(p.(evens := evens), i) == HarmonicAmps(p, i)
  {
  }

  /** With the EVENS CV patched at 0 V the evens amplitude follows the odds
      amplitude exactly. */
  lemma EvensCvCentredOnOdds(p: Params, i: Inputs)
    requires 0.0 <= p.odds <= 1.0
    requires IsConnected(i.evens) && Voltage(i.evens) == 0.0
    ensures HarmonicAmps(p, i).1 == HarmonicAmps(p, i).0
  {
  }

  // ---------------------------------------------------------------------------
  // Pitch and frequency
  // ---------------------------------------------------------------------------

  /** Lane `c`'s pitch in octaves: tune / 12, plus V/OCT, plus FM scaled by its
      depth. Monophonic cables set the same pitch on every lane. */
  function Pitch(p: Params, i: Inputs, c: Lane): (r: real)
    ensures i.voct.channels == 1 && i.fm.channels == 1 ==>
              r == p.tune / 12.0 + Voltage(i.voct) + Voltage(i.fm) * p.fmDepth
    ensures p.fmDepth == 0.0 ==> r == p.tune / 12.0 + PolyVoltage(i.voct, c)
  {
    p.tune / 12.0 + PolyVoltage(i.voct, c) + PolyVoltage(i.fm, c) * p.fmDepth
  }

  /** Twelve semitones of tune raise the pitch by one octave, as one volt of
      V/OCT does. */
  lemma TuneOctaveIsOneVolt(p: Params, i: Inputs, c: Lane)
    ensures Pitch(p.(tune := p.tune + 12.0), i, c) == Pitch(p, i, c) + 1.0
  {
    var rest := PolyVoltage(i.voct, c) + PolyVoltage(i.fm, c) * p.fmDepth;
    assert Pitch(p.(tune := p.tune + 12.0), i, c) == (p.tune + 12.0) / 12.0 + rest;
    assert Pitch(p, i, c) == p.tune / 12.0 + rest;
    assert (p.tune + 12.0) / 12.0 == p.tune / 12.0 + 1.0;
  }

  /** Exponential pitch-to-frequency, clamped to [0, sampleRate / 16]: never
      negative and never above the headroom bound, whatever `exp2` returns. */
  function Frequency(exp2: real -> real, sampleRate: real, pitch: real): (f: real)
    ensures sampleRate >= 0.0 ==> 0.0 <= f <= sampleRate / HeadroomDivisor
    ensures sampleRate >= 0.0 && 0.0 <= FreqC4 * exp2(pitch + Exp2Bias) / TwoPow30 <= sampleRate / HeadroomDivisor
            ==> f == FreqC4 * exp2(pitch + Exp2Bias) / TwoPow30
  {
    Clamp(FreqC4 * exp2(pitch + Exp2Bias) / TwoPow30, 0.0, sampleRate / HeadroomDivisor)
  }

  /** A monotone exponential gives a frequency that never falls as pitch rises. */
  lemma FrequencyMonotone(exp2: real -> real, sampleRate: real, lo: real, hi: real)
    requires sampleRate >= 0.0
    requires forall x, y :: x <= y ==> exp2(x) <= exp2(y)
    requires lo <= hi
    ensures Frequency(exp2, sampleRate, lo) <= Frequency(exp2, sampleRate, hi)
  {
    assert exp2(lo + Exp2Bias) <= exp2(hi + Exp2Bias);
  }

  /** At pitch 0 an exact exponential lands on middle C, provided the sample
      rate leaves room for it. */
  lemma ZeroPitchIsMiddleC(exp2: real -> real, sampleRate: real)
    requires exp2(Exp2Bias) == TwoPow30
    requires FreqC4 <= sampleRate / HeadroomDivisor
    ensures Frequency(exp2, sampleRate, 0.0) == FreqC4
  {
  }

  /** One volt more on V/OCT doubles the frequency, for an exponential that
      doubles per unit and while neither frequency hits the clamp. */
  lemma OneVoltPerOctave(exp2: real -> real, sampleRate: real, pitch: real)
    requires sampleRate >= 0.0
    requires exp2(pitch + 1.0 + Exp2Bias) == 2.0 * exp2(pitch + Exp2Bias)
    requires 0.0 <= FreqC4 * exp2(pitch + 1.0 + Exp2Bias) / TwoPow30 <= sampleRate / HeadroomDivisor
    ensures Frequency(exp2, sampleRate, pitch + 1.0) == 2.0 * Frequency(exp2, sampleRate, pitch)
  {
    var f := FreqC4 * exp2(pitch + Exp2Bias) / TwoPow30;
    assert FreqC4 * exp2(pitch + 1.0 + Exp2Bias) / TwoPow30 == 2.0 * f;
  }

  // ---------------------------------------------------------------------------
  // One group
  // ---------------------------------------------------------------------------

  /** The four lanes' frequencies for the group starting at `chan`. */
  function GroupFreqs(exp2: real -> real, sampleRate: real, p: Params, i: Inputs, chan: GroupChan): (r: Quad)
    ensures forall k :: 0 <= k < 4 ==> r[k] == Frequency(exp2, sampleRate, Pitch(p, i, chan + k))
  {
    seq(4, k requires 0 <= k < 4 => Frequency(exp2, sampleRate, Pitch(p, i, chan + k)))
  }

  /** One pass of the loop body on the group starting at `chan`: set its
      channel count, frequencies and weights, then step it. The group's lanes
      advance their phase by their new frequency and sound the series with
      the new weights. */
  function UpdateGroup(sin: real -> real, exp2: real -> real, args: ProcessArgs, p: Params, i: Inputs,
                       amps: (real, real), active: Active, chan: GroupChan, o: HarmonicOsc): (r: HarmonicOsc)
    ensures r.channels == GroupWidth(active, chan)
    ensures r.oddsAmp == amps.0 && r.evensAmp == amps.1
    ensures forall k :: 0 <= k < 4 ==> r.freq[k] == Frequency(exp2, args.sampleRate, Pitch(p, i, chan + k))
    ensures forall k :: 0 <= k < 4 ==> r.phase[k] == Advance(o.phase[k], r.freq[k], args.sampleTime)
    ensures forall k :: 0 <= k < 4 ==> r.out[k] == HarmonicSeries(sin, amps.0, amps.1, r.phase[k])
  {
    var tuned := o.(channels := GroupWidth(active, chan),
                    freq := GroupFreqs(exp2, args.sampleRate, p, i, chan),
                    oddsAmp := amps.0, evensAmp := amps.1);
    Harmonics.Process(sin, tuned, args.sampleTime)
  }

  /** An oscillator value scaled by 5 V and the output knob. */
  function Scaled(x: real, outGain: real): real {
    x * OutputScale * outGain
  }

  /** One output sample: the scaled value clipped to +-5 V. A sample inside
      the range passes unchanged, one outside is held at the nearer limit. */
  function OutputSample(x: real, outGain: real): (v: real)
    ensures -OutputLimit <= v <= OutputLimit
    ensures -OutputLimit <= Scaled(x, outGain) <= OutputLimit ==> v == Scaled(x, outGain)
    ensures Scaled(x, outGain) > OutputLimit ==> v == OutputLimit
    ensures Scaled(x, outGain) < -OutputLimit ==> v == -OutputLimit
  {
    Clamp(Scaled(x, outGain), -OutputLimit, OutputLimit)
  }

  /** What the group writes to its four output lanes. */
  function Publish(o: HarmonicOsc, outGain: real): (r: Quad)
    ensures forall k :: 0 <= k < 4 ==> r[k] == OutputSample(o.out[k], outGain)
  {
    seq(4, k requires 0 <= k < 4 => OutputSample(o.out[k], outGain))
  }

  // ---------------------------------------------------------------------------
  // The whole module
  // ---------------------------------------------------------------------------

  /** `Sage::process`: one sample tick. The loop over groups updates exactly the
      groups holding an active channel. An unpatched output is left exactly
      as it was. A patched one gets its visited lanes written, then
      `setChannels(active)` sets its count and zeroes the lanes from the
      active count up to its old count; its other lanes keep their voltage. */
  function Process(sin: real -> real, exp2: real -> real, args: ProcessArgs, p: Params, i: Inputs,
                   s: Sage): (r: Sage)
    ensures !IsConnected(s.out) ==> r.out == s.out
    ensures IsConnected(s.out) ==> r.out.channels == ActiveChannels(i.voct.channels)
    ensures forall g :: 0 <= g < 4 ==>
              r.oscillators[g] == if GroupSize * g < ActiveChannels(i.voct.channels)
                                  then UpdateGroup(sin, exp2, args, p, i, HarmonicAmps(p, i),
                                                   ActiveChannels(i.voct.channels), GroupSize * g, s.oscillators[g])
                                  else s.oscillators[g]
    ensures IsConnected(s.out) ==>
              forall c :: 0 <= c < 16 ==>
                r.out.voltages[c] == if ActiveChannels(i.voct.channels) <= c < s.out.channels then 0.0
                                     else if Visited(ActiveChannels(i.voct.channels), c)
                                     then Publish(r.oscillators[c / GroupSize], p.outGain)[c % GroupSize]
                                     else s.out.voltages[c]
  {
    var active := ActiveChannels(i.voct.channels);
    var amps := HarmonicAmps(p, i);
    var r := ForEachGroup(active, 0, s.oscillators, s.out.voltages, IsConnected(s.out),
                          (chan: GroupChan, o: HarmonicOsc) => UpdateGroup(sin, exp2, args, p, i, amps, active, chan, o),
                          (o: HarmonicOsc) => Publish(o, p.outGain));
    WrittenThenSetChannels(active, s.out, r.1, (c: Lane) => Publish(r.0[c / GroupSize], p.outGain)[c % GroupSize]);
    Sage(r.0, SetChannels(Port(s.out.channels, r.1), active))
  }

  /** With the knobs in range and a positive sample rate, every group the tick
      visits ends with a channel count in [1, 4], weights in [0, 1],
      frequencies in [0, sampleRate / 16] and phases in [0, 1). */
  lemma VisitedGroupBounds(sin: real -> real, exp2: real -> real, args: ProcessArgs, p: Params, i: Inputs,
                           s: Sage, g: int)
    requires ParamsInRange(p) && args.sampleRate > 0.0
    requires 0 <= g < 4 && GroupSize * g < ActiveChannels(i.voct.channels)
    ensures var o := Process(sin, exp2, args, p, i, s).oscillators[g];
            && 1 <= o.channels <= GroupSize
            && 0.0 <= o.oddsAmp <= 1.0 && 0.0 <= o.evensAmp <= 1.0
            && (forall k :: 0 <= k < 4 ==> 0.0 <= o.freq[k] <= args.sampleRate / HeadroomDivisor)
            && (forall k :: 0 <= k < 4 ==> 0.0 <= o.phase[k] < 1.0)
  {
  }

  /** Every sample the tick publishes is within +-5 V (a lane the channel
      count then clears reads 0 V). */
  lemma PublishedWithinLimits(sin: real -> real, exp2: real -> real, args: ProcessArgs, p: Params, i: Inputs,
                              s: Sage, c: Lane)
    requires IsConnected(s.out) && Visited(ActiveChannels(i.voct.channels), c)
    ensures -OutputLimit <= Process(sin, exp2, args, p, i, s).out.voltages[c] <= OutputLimit
  {
  }

  /** With the output knob at zero every published sample is 0 V. */
  lemma ZeroGainIsSilent(sin: real -> real, exp2: real -> real, args: ProcessArgs, p: Params, i: Inputs,
                         s: Sage, c: Lane)
    requires p.outGain == 0.0
    requires IsConnected(s.out) && Visited(ActiveChannels(i.voct.channels), c)
    ensures Process(sin, exp2, args, p, i, s).out.voltages[c] == 0.0
  {
    var r := Process(sin, exp2, args, p, i, s);
    assert Scaled(r.oscillators[c / GroupSize].out[c % GroupSize], p.outGain) == 0.0;
  }

  /** Total channel count of the groups from `g` on that the loop reaches. */
  function VisitedChannels(bank: Bank, active: Active, g: int): int
    requires 0 <= g <= 4
    decreases 4 - g
  {
    if g == 4 || GroupSize * g >= active then 0 else bank[g].channels + VisitedChannels(bank, active, g + 1)
  }

  /** The visited groups' channel counts add up to the active channel count. */
  lemma GroupChannelsSumToActive(sin: real -> real, exp2: real -> real, args: ProcessArgs, p: Params, i: Inputs,
                                 s: Sage)
    ensures var r := Process(sin, exp2, args, p, i, s);
            VisitedChannels(r.oscillators, ActiveChannels(i.voct.channels), 0) == ActiveChannels(i.voct.channels)
  {
    var r := Process(sin, exp2, args, p, i, s);
    var active := ActiveChannels(i.voct.channels);
    VisitedChannelsAreWidths(r.oscillators, active, 0);
    WidthsCoverActive(active, 0);
  }

  /** Where every visited group holds its loop-assigned width, the two sums agree. */
  lemma {:induction false} VisitedChannelsAreWidths(bank: Bank, active: Active, g: int)
    requires 0 <= g <= 4
    requires forall h :: g <= h < 4 && GroupSize * h < active ==> bank[h].channels == GroupWidth(active, GroupSize * h)
    ensures VisitedChannels(bank, active, g) == WidthsFrom(active, GroupSize * g)
    decreases 4 - g
  {
    if g < 4 && GroupSize * g < active {
      VisitedChannelsAreWidths(bank, active, g + 1);
    }
  }

  /** Whether the output is patched changes only the output port: the
      oscillator groups come out the same; an unpatched output stays unpatched
      and untouched, so no later tick writes to it either; and every patched
      output ends with the same channel count. */
  lemma OutputPatchingOnlyAffectsOutput(sin: real -> real, exp2: real -> real, args: ProcessArgs, p: Params, i: Inputs,
                                        s: Sage, other: Port)
    ensures Process(sin, exp2, args, p, i, s).oscillators == Process(sin, exp2, args, p, i, s.(out := other)).oscillators
    ensures !IsConnected(s.out) ==> !IsConnected(Process(sin, exp2, args, p, i, s).out)
    ensures !IsConnected(s.out) ==> Process(sin, exp2, args, p, i, s).out == s.out
    ensures IsConnected(s.out) && IsConnected(other) ==>
              Process(sin, exp2, args, p, i, s).out.channels == Process(sin, exp2, args, p, i, s.(out := other)).out.channels
  {
    var a := Process(sin, exp2, args, p, i, s).oscillators;
    var b := Process(sin, exp2, args, p, i, s.(out := other)).oscillators;
    assert forall g :: 0 <= g < 4 ==> a[g] == b[g];
  }
}
