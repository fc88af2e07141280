# Digital Apothecary: Linden, Sage and Rue in Dafny

A model of the per-sample processing of three modules from the Digital
Apothecary plugin for a modular-synthesis host, with proofs of what each
tick does.

- **Linden** (`linden.dfy`) has three sections:
  - an analog max/min selector;
  - a Bernoulli gate, which on each rising edge of its gate sends 10 V to
    exactly one of two outputs and holds it there;
  - a controlled-NOT gate over two inputs thresholded at 2 V.
- **Sage** (`harmonics.dfy`, `sage.dfy`) is a polyphonic additive
  oscillator. Up to sixteen voices run in groups of four lanes. Each group
  is one `HarmonicOsc`: a phase accumulator feeding a sine plus harmonics
  2..8, with even and odd harmonics weighted separately.
- **Rue** (`rue.dfy`) is a polyphonic VCA. Its gain is raised to a curve
  exponent, and a CV (plus an offset) can scale it further. The output is
  clipped to +-10 V.
- **Rack** (`rack.dfy`) holds the host vocabulary the modules use:
  - ports with channel counts;
  - monophonic broadcast of a one-channel cable;
  - `clamp`;
  - `ForEachGroup`, the loop `for (chan = 0; chan < active; chan += 4)`.

  `ForEachGroup` is written once, generic in the per-group state, and used
  by both Sage (state `HarmonicOsc`) and Rue (state: the group's four
  amplified samples).

Every module is a set of pure functions: each tick maps the state and the
inputs to a new state and outputs.

Some values come from outside the modules and are taken as parameters:
- The transcendental functions `simd::sin`, `dsp::approxExp2_taylor5` and
  `pow` are the parameters `sin`, `exp2` and `pow`. A lemma that needs a
  fact about one of them, such as `pow(0, e) == 0` for `e >= 1`, states it
  as a precondition.
- The random draw of the Bernoulli gate is a parameter in [0, 1).
- The initial memory of the edge detector is a parameter. The host starts
  it high, so a gate that is already high at start-up does not fire.

Notable behaviours of the code, all modelled as written:
- Sage has a single, exponential FM path: the FM input, scaled by its depth
  knob, is added to the pitch before the exponential. There is no FM mode
  selector and no linear FM.
- The Bernoulli threshold is `volts / 10` with no clamp, so thresholds
  outside [0, 1] always pick one side (`Linden.ThresholdExtremes`).
- A patched EVENS CV is added to the already blended *odds* amplitude, not
  to the evens knob (`Sage.EvensKnobIgnoredWhenPatched`,
  `Sage.EvensCvCentredOnOdds`).
- Harmonic amplitudes are clamped only when their CV is patched; an
  unpatched amplitude is the knob value, which the knob's range keeps in
  [0, 1].
- An unpatched output is never written and keeps 0 channels: the host's
  `setChannels` does nothing on a port with no cable. On a patched output,
  `setChannels` zeroes the lanes from the new channel count up to the old
  one, after the group loop has written its lanes (`Rack.SetChannels`).

## Model

| member | source | states |
|---|---|---|
| Rack.ActiveChannels | src/Sage.cpp:115 | the active channel count is max(1, channels): at least the input's channels, exactly them when patched, 1 when unpatched |
| Rack.PolyVoltage | src/Sage.cpp:128-129 | the voltage a lane reads: its own channel on a polyphonic cable, channel 0 on every lane of a monophonic one |
| Rack.GroupWidth | src/Sage.cpp:127 | a visited group holds between 1 and 4 channels, never more than remain, and fewer than 4 only in the group that reaches the last active channel |
| Rack.VisitedLanes | src/Sage.cpp:125 | every active channel lies in a visited group, and visited lanes beyond the active ones fall in the last, partly filled group |
| Rack.GroupIndexInBank | src/Sage.cpp:126 | every loop start below the active count indexes one of the four groups and leaves room for four lanes |
| Rack.WidthsCoverActive | src/Sage.cpp:125-127 | the widths assigned from `chan` on sum to exactly the channels remaining, so the groups partition the active channels |
| Rack.ForEachGroup | src/Sage.cpp:125-139 | the group loop updates a group iff its start is below the active count, writes an output lane iff the output is patched and its group is visited, and leaves every other group and lane unchanged |
| Rack.WriteQuad | src/Sage.cpp:138 | `setVoltageSimd(q, chan)` sets lanes chan..chan+3 to the four values and keeps all other lanes |
| Rack.SetChannels | src/Sage.cpp:141 | `setChannels(n)` leaves an unpatched output exactly as it was (still 0 channels); a patched one takes n channels, lanes from n up to the old count read 0 V, others are kept |
| Rack.SetChannelsIdempotent | src/Rue.cpp:73 | setting the same channel count twice is the same as setting it once |
| Rack.WrittenThenSetChannels | src/Sage.cpp:137-141 | the group loop's writes followed by `setChannels(active)`: unpatched unchanged; patched gives 0 V from active to the old count, the written value on other visited lanes, the old voltage elsewhere |
| Rack.Clamp | src/Sage.cpp:118 | for lo <= hi the result is in [lo, hi], equals x inside the range, and is the nearer bound outside it |
| Linden.MaxMin | src/Linden.cpp:65-66 | MAX is at least both inputs and equals one of them; MIN is at most both and equals one of them; MAX + MIN = A + B |
| Linden.GateVoltage | src/Linden.cpp:101-102 | a gate output is exactly 10 V or 0 V, and 10 V iff the bit is set |
| Linden.TriggerProcess | src/Linden.cpp:74 | `gateTrig.process(level)` reports a rising edge exactly when the level is high and the remembered one was low, and remembers the level |
| Linden.Init | src/Linden.cpp:42-44 | construction leaves both Bernoulli outputs at 0 V and the trigger remembering the given starting level |
| Linden.FirstTickFires | src/Linden.cpp:74 | on the first tick the gate fires iff it is high and the trigger started low, so a trigger started high ignores an already-high gate |
| Linden.CnotBits | src/Linden.cpp:87-99 | the four-branch if-chain computes outA = A and outB = A xor B |
| Linden.Cnot | src/Linden.cpp:83-102 | the outputs are 0 or 10 V; outA is high iff input A is at least 2 V, outB iff exactly one input is at least 2 V |
| Linden.CnotTruthTable | src/Linden.cpp:87-99 | the four rows (0,0)->(0,0), (0,1)->(0,10), (1,0)->(10,10), (1,1)->(10,0), with exactly 2 V reading as high |
| Linden.CnotSelfInverse | src/Linden.cpp:83-102 | feeding the outputs back in restores the binarised inputs: on logic levels CNOT is its own inverse |
| Linden.BernoulliThreshold | src/Linden.cpp:69-72 | the threshold is 0.5 with the probability input unpatched, and its volts / 10 with no clamp when patched |
| Linden.Bernoulli | src/Linden.cpp:74-79 | fires iff the gate is high and the trigger's memory is low; the memory becomes this tick's level; without a firing both outputs hold; a firing makes exactly one output 10 V, B iff draw < threshold |
| Linden.ThresholdExtremes | src/Linden.cpp:75-78 | with the draw in [0, 1), a threshold at or below 0 always selects A and one at or above 1 always selects B |
| Linden.Process | src/Linden.cpp:63-104 | one tick: the max/min, Bernoulli and CNOT properties together, with the held Bernoulli outputs carried in the state |
| Linden.ProcessKeepsOneHot | src/Linden.cpp:74-79 | once a firing has happened, exactly one Bernoulli output is high on every later tick |
| Linden.NoBackToBackFirings | src/Linden.cpp:74 | two consecutive ticks never both fire: the gate must fall before it can fire again |
| Linden.NoEdgeNoChange | src/Linden.cpp:74-79 | over any run in which the gate never rises, the Bernoulli outputs keep their initial values |
| Linden.ZeroProbabilityAlwaysA | src/Linden.cpp:69-78 | with the probability patched at 0 V or below, any run leaves the outputs untouched or A high and B low |
| Linden.FullProbabilityAlwaysB | src/Linden.cpp:69-78 | with the probability patched at 10 V or above, any run leaves the outputs untouched or B high and A low |
| Harmonics.Reset | src/Sage.cpp:29-36 | reset zeroes the channel count, both weights, and every lane's frequency, phase and output |
| Sage.Init | src/Sage.cpp:90 | construction leaves all four groups reset: zero channels, weights, frequencies, phases and outputs |
| Harmonics.Wrap | src/Sage.cpp:40 | `phase -= floor(phase)` lands in [0, 1) and differs from its input by a whole number |
| Harmonics.WrapFixesUnitInterval | src/Sage.cpp:40 | a phase already in [0, 1) is left alone, so wrapping is idempotent |
| Harmonics.WrapPeriodic | src/Sage.cpp:40 | adding whole cycles before the wrap does not change the wrapped phase |
| Harmonics.Advance | src/Sage.cpp:39-40 | one lane's phase after a sample lies in [0, 1) for any frequency and sample time |
| Harmonics.Accumulate | src/Sage.cpp:53-60 | the harmonic loop from `i` adds exactly the remaining terms of the series to the running total |
| Harmonics.SilentTerms | src/Sage.cpp:53-60 | with both weights zero every remaining harmonic term sums to 0 |
| Harmonics.ShortCircuitMatchesLoop | src/Sage.cpp:47-62 | the early return for zero weights gives the value the full loop would have computed |
| Harmonics.SilentSeries | src/Sage.cpp:47-49 | with both weights zero the series is the bare fundamental sin(2 pi phase) |
| Harmonics.Summation | src/Sage.cpp:45-63 | `summation` equals the harmonic series on both of its paths |
| Harmonics.SeriesWrittenOut | src/Sage.cpp:51-60 | the series is sin(w) plus evens * sin(k w) / k for k = 2, 4, 6, 8 and odds * sin(k w) / k for k = 3, 5, 7, with w = 2 pi phase |
| Harmonics.AdvancePhases | src/Sage.cpp:39-40 | every lane's phase is advanced and wrapped into [0, 1); nothing else in the record changes |
| Harmonics.Evaluate | src/Sage.cpp:41 | every lane's output is the series at that lane's phase; nothing else in the record changes |
| Harmonics.Process | src/Sage.cpp:38-42 | after a step, channels, weights and frequencies are unchanged, each phase is the wrapped advance in [0, 1), and each output is the series at the new phase |
| Sage.HarmonicAmps | src/Sage.cpp:117-123 | a patched ODDS CV gives clamp(cv/15 + knob, 0, 1); a patched EVENS CV gives clamp(cv/15 + blended odds, 0, 1); unpatched, each is its knob; results stay in [0, 1] |
| Sage.EvensKnobIgnoredWhenPatched | src/Sage.cpp:121-123 | with the EVENS CV patched the evens knob has no effect |
| Sage.EvensCvCentredOnOdds | src/Sage.cpp:121-123 | with the EVENS CV patched at 0 V the evens amplitude equals the odds amplitude |
| Sage.Pitch | src/Sage.cpp:128-129 | a lane's pitch is tune/12 plus V/OCT plus FM times depth; monophonic cables give every lane the same pitch; with depth 0 FM has no effect |
| Sage.TuneOctaveIsOneVolt | src/Sage.cpp:111 | twelve semitones on the tune knob raise the pitch by exactly one octave |
| Sage.Frequency | src/Sage.cpp:130-131 | the frequency is always in [0, sampleRate / 16], and equals C4 * exp2(pitch + 30) / 2^30 when that is in range |
| Sage.FrequencyMonotone | src/Sage.cpp:130-131 | for a monotone exp2, frequency never falls as pitch rises |
| Sage.ZeroPitchIsMiddleC | src/Sage.cpp:130-131 | pitch 0 gives exactly 261.6256 Hz when exp2 is exact at 30 and the rate leaves room |
| Sage.OneVoltPerOctave | src/Sage.cpp:128-131 | one more volt of pitch doubles the frequency while it stays below the clamp |
| Sage.GroupFreqs | src/Sage.cpp:128-132 | lane k of the group starting at `chan` gets the frequency of channel chan + k's pitch |
| Sage.UpdateGroup | src/Sage.cpp:126-135 | a visited group gets width min(active - chan, 4), this tick's weights and per-lane frequencies, then advances its phases and sounds the series at them |
| Sage.OutputSample | src/Sage.cpp:138 | an output sample is within +-5 V: the scaled value when inside, the nearer limit when outside |
| Sage.Publish | src/Sage.cpp:137-138 | each lane written is the group's output scaled by 5 V and the output knob, clipped to +-5 V |
| Sage.Process | src/Sage.cpp:110-142 | a tick updates exactly the groups holding an active channel; an unpatched output is returned unchanged; a patched one gets max(1, V/OCT channels) channels, 0 V from there up to its old count, the published value on other visited lanes, and its old voltage elsewhere |
| Sage.VisitedGroupBounds | src/Sage.cpp:125-135 | with knobs in range, every visited group ends with 1..4 channels, weights in [0, 1], frequencies in [0, sampleRate/16] and phases in [0, 1) |
| Sage.PublishedWithinLimits | src/Sage.cpp:137-141 | every lane the tick writes on a patched output ends within +-5 V |
| Sage.ZeroGainIsSilent | src/Sage.cpp:138 | with the output knob at zero every published sample is 0 V |
| Sage.GroupChannelsSumToActive | src/Sage.cpp:125-127 | after a tick the visited groups' channel counts add up to the active channel count |
| Sage.VisitedChannelsAreWidths | src/Sage.cpp:125-127 | where each visited group holds its loop-assigned width, summing the bank's counts equals summing the widths |
| Sage.OutputPatchingOnlyAffectsOutput | src/Sage.cpp:125-141 | patching the output does not change the oscillator groups; an unpatched output stays unpatched and untouched; all patched outputs end with the same channel count |
| Rue.CvFactor | src/Rue.cpp:63 | the CV factor lies in [0, 1]: (cv + offset) / 10 inside the range, 0 at or below 0 V, 1 at or above 10 V |
| Rue.Amplitude | src/Rue.cpp:60-65 | the amplitude is gain^curve with no CV patched, and gain^curve times factor^curve with the CV patched |
| Rue.Amplified | src/Rue.cpp:58-67 | a lane's output before clipping is its input times the gain, further scaled by the CV factor to the curve when a CV is patched; a silent input lane stays silent |
| Rue.GainMonotone | src/Rue.cpp:52 | for a `pow` increasing in its base, a higher GAIN knob never gives a lower gain GAIN^CURVE |
| Rue.Amplify | src/Rue.cpp:58-67 | lane k of the group starting at `chan` is the signal at channel chan + k times that channel's amplitude |
| Rue.Clip | src/Rue.cpp:70 | each lane is clamped to +-10 V |
| Rue.Process | src/Rue.cpp:48-74 | an unpatched output is returned unchanged; a patched one gets max(1, signal channels) channels, 0 V from there up to its old count, the amplified input clipped to +-10 V on other visited lanes, and its old voltage elsewhere; the light shows the gain |
| Rue.GroupLanes | src/Rue.cpp:57-71 | reading the group loop's result lane by lane gives each channel its own amplified, clipped input |
| Rue.PublishedWithinLimits | src/Rue.cpp:69-73 | every lane the tick writes on a patched output ends within +-10 V |
| Rue.UnpatchedCvIgnored | src/Rue.cpp:60-65 | with no CV patched, neither the CV port's voltages nor the offset knob change anything |
| Rue.UnpatchedCvLane | src/Rue.cpp:60-65 | a lane's amplified input does not depend on an unpatched CV or on the offset |
| Rue.UnityGainPassesSignal | src/Rue.cpp:52-73 | at gain 1, curve 1 and no CV, each written lane is its input clamped to +-10 V, except a lane the new channel count clears, which reads 0 V |
| Rue.ZeroGainIsSilent | src/Rue.cpp:52-70 | with the gain at 0 and curve at least 1, every written lane is 0 V for any input and CV |
| Rue.CvOnlyAttenuates | src/Rue.cpp:60-65 | with curve at least 1 and pow keeping [0, 1] in [0, 1], the CV never raises the amplitude above the bare gain |
| Rue.FullCvIsBareGain | src/Rue.cpp:63-64 | a CV at or above 10 V minus the offset opens the VCA fully: the amplitude is the bare gain |
| Rue.OutputPatchingOnlyAffectsOutput | src/Rue.cpp:69-73 | patching the output does not change the light; an unpatched output stays unpatched and untouched; all patched outputs end with the same channel count |

## Left out

- Floating-point rounding, NaN and infinities: voltages, phases and gains are exact reals. In single precision `phase - floor(phase)` can round up to 1.0; the model's [0, 1) bound is the real-number result.
- The numerical content of `simd::sin`, `dsp::approxExp2_taylor5`, `std::pow` and `simd::pow`: they are uninterpreted parameters, and no approximation accuracy is claimed.
- `random::uniform()`: the draw is a parameter, not a generator.
- SIMD `float_4` batching: it is kept only as the group-of-four lane bookkeeping.
- Widgets, panels, `configParam`/`configInput` metadata and model registration, because they are presentation only. The knob ranges survive as the `ParamsInRange` predicates that the bound lemmas assume.
- `paramQuantities[GAIN_PARAM]->displayMultiplier` in Rue, because it only changes how the knob is displayed.
- The host's port plumbing (`isConnected`, `getVoltage`, `getPolyVoltageSimd`, `setVoltageSimd`, `setChannels`) is not part of this model's source; it is modelled from its documented behaviour. A port is patched iff it has at least one channel, a one-channel cable feeds every lane, and `setChannels` is `Rack.SetChannels`.
- Voltages on unpatched inputs: the host holds them at 0 V, the model leaves them arbitrary. Every property holds for any such voltages, so it also holds for 0 V.
- The uninitialised contents of Rue's local `signals[4]`: the model starts the array at zeros, and only lanes the loop writes are ever read.
- An FM mode selector, linear through-zero FM and persisted configuration: none of them exists in the modelled code.
- Harmonics.Advance: states only the [0, 1) bound; that the result differs from `phase + freq * sampleTime` by whole cycles is stated on `Harmonics.Wrap`, which it calls.
