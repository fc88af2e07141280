/** Rue: a polyphonic voltage-controlled amplifier. Every lane of the signal
    input is multiplied by GAIN raised to the CURVE knob and, when a CV is
    patched, by the CV (plus an offset, scaled to [0, 1]) raised to the same
    curve; the result is clipped to +-10 V. The module keeps no state from
    one tick to the next.

    `std::pow` and `simd::pow` are the parameter `pow`; the properties that
    need something of it say so in their preconditions. */
module Rue {
  import opened Rack

  /** The value of the C macro M_SQRT2: the top of the GAIN knob. */
  const Sqrt2: real := 1.41421356237309504880
  /** Volts of CV for the full range of the CV factor. */
  const CvScale: real := 10.0
  /** The output clip level. */
  const SignalLimit: real := 10.0

  /** The knobs: response curve (an exponent), gain, and CV offset in volts. */
  datatype Params = Params(curve: real, gain: real, offset: real)

  /** The ranges the knobs are configured with. */
  predicate ParamsInRange(p: Params) {
    && 1.0 <= p.curve <= 4.0
    && 0.0 <= p.gain <= Sqrt2
    && -5.0 <= p.offset <= 5.0
  }

  datatype Inputs = Inputs(signal: Port, cv: Port)

  /** What a tick produces: the output port and the SIG light's brightness. */
  datatype Outputs = Outputs(vca: Port, sigLight: real)

  /** `pow(GAIN, CURVE)`: the amplitude with no CV patched. */
  function Gain(pow: (real, real) -> real, p: Params): real {
    pow(p.gain, p.curve)
  }

  /** Lane `c`'s CV factor: `(cv + offset) / 10` clamped to [0, 1]. */
  function CvFactor(cv: Port, offset: real, c: Lane): (f: real)
    ensures 0.0 <= f <= 1.0
    ensures 0.0 <= (PolyVoltage(cv, c) + offset) / CvScale <= 1.0 ==> f == (PolyVoltage(cv, c) + offset) / CvScale
    ensures PolyVoltage(cv, c) + offset <= 0.0 ==> f == 0.0
    ensures PolyVoltage(cv, c) + offset >= CvScale ==> f == 1.0
  {
    Clamp((PolyVoltage(cv, c) + offset) / CvScale, 0.0, 1.0)
  }

  /** Lane `c`'s amplitude: the gain alone with no CV patched, else the gain
      times the CV factor raised to the curve. */
  function Amplitude(pow: (real, real) -> real, p: Params, cv: Port, c: Lane): (a: real)
    ensures !IsConnected(cv) ==> a == Gain(pow, p)
    ensures IsConnected(cv) ==> a == Gain(pow, p) * pow(CvFactor(cv, p.offset, c), p.curve)
  {
    var amp := Gain(pow, p);
    if IsConnected(cv) then amp * pow(CvFactor(cv, p.offset, c), p.curve) else amp
  }

  /** Lane `c` of the signal input multiplied by its amplitude: the bare gain
      with no CV patched, the gain scaled by the CV factor to the curve with
      one. A silent input lane stays silent. */
  function Amplified(pow: (real, real) -> real, p: Params, i: Inputs, c: Lane): (v: real)
    ensures !IsConnected(i.cv) ==> v == PolyVoltage(i.signal, c) * Gain(pow, p)
    ensures IsConnected(i.cv) ==>
              v == PolyVoltage(i.signal, c) * Gain(pow, p) * pow(CvFactor(i.cv, p.offset, c), p.curve)
    ensures PolyVoltage(i.signal, c) == 0.0 ==> v == 0.0
  {
    PolyVoltage(i.signal, c) * Amplitude(pow, p, i.cv, c)
  }

  /** Loop body on the group starting at `chan`: its four amplified lanes. */
  function Amplify(pow: (real, real) -> real, p: Params, i: Inputs, chan: GroupChan): (q: Quad)
    ensures forall k :: 0 <= k < 4 ==> q[k] == Amplified(pow, p, i, chan + k)
  {
    seq(4, k requires 0 <= k < 4 => Amplified(pow, p, i, chan + k))
  }

  /** `simd::clamp(signals, -10, 10)`: what the group writes to the output. */
  function Clip(q: Quad): (r: Quad)
    ensures forall k :: 0 <= k < 4 ==> r[k] == Clamp(q[k], -SignalLimit, SignalLimit)
  {
    seq(4, k requires 0 <= k < 4 => Clamp(q[k], -SignalLimit, SignalLimit))
  }

  /** `Rue::process`: one sample tick. An unpatched output is left exactly as
      it was. A patched one gets max(1, signal channels) channels; a lane
      reached by the loop holds its input times its amplitude clipped to
      +-10 V, except that lanes from the active count up to the old count are
      zeroed by `setChannels`; other lanes keep their voltage. The SIG light
      shows the gain. */
  function Process(pow: (real, real) -> real, p: Params, i: Inputs, out: Port): (r: Outputs)
    ensures !IsConnected(out) ==> r.vca == out
    ensures IsConnected(out) ==> r.vca.channels == ActiveChannels(i.signal.channels)
    ensures r.sigLight == Gain(pow, p)
    ensures IsConnected(out) ==>
              forall c: Lane ::
                r.vca.voltages[c] == if ActiveChannels(i.signal.channels) <= c < out.channels then 0.0
                                     else if Visited(ActiveChannels(i.signal.channels), c)
                                     then Clamp(Amplified(pow, p, i, c), -SignalLimit, SignalLimit)
                                     else out.voltages[c]
  {
    var active := ActiveChannels(i.signal.channels);
    var zero: Quad := [0.0, 0.0, 0.0, 0.0];
    var r := ForEachGroup(active, 0, [zero, zero, zero, zero], out.voltages, IsConnected(out),
                          (chan: GroupChan, q: Quad) => Amplify(pow, p, i, chan),
                          (q: Quad) => Clip(q));
    GroupLanes(pow, p, i, active, IsConnected(out), out.voltages, r.0, r.1);
    WrittenThenSetChannels(active, out, r.1, (c: Lane) => Clamp(Amplified(pow, p, i, c), -SignalLimit, SignalLimit));
    Outputs(SetChannels(Port(out.channels, r.1), active), Gain(pow, p))
  }

  /** Reads the loop's per-group result lane by lane: lane `c` of a written
      group holds its own amplified input, clipped. */
  lemma GroupLanes(pow: (real, real) -> real, p: Params, i: Inputs, active: Active, outConnected: bool,
                   out: Voltages, bank: seq<Quad>, v: Voltages)
    requires |bank| == 4
    requires forall g :: 0 <= g < 4 && GroupSize * g < active ==> bank[g] == Amplify(pow, p, i, GroupSize * g)
    requires forall c :: 0 <= c < 16 ==>
               v[c] == if outConnected && Visited(active, c) then Clip(bank[c / GroupSize])[c % GroupSize] else out[c]
    ensures forall c: Lane ::
              v[c] == if outConnected && Visited(active, c)
                      then Clamp(Amplified(pow, p, i, c), -SignalLimit, SignalLimit)
                      else out[c]
  {
    forall c: Lane
      ensures v[c] == if outConnected && Visited(active, c)
                      then Clamp(Amplified(pow, p, i, c), -SignalLimit, SignalLimit)
                      else out[c]
    {
      if outConnected && Visited(active, c) {
        var g := c / GroupSize;
        assert GroupSize * g + c % GroupSize == c;
        assert bank[g][c % GroupSize] == Amplified(pow, p, i, c);
      }
    }
  }

  /** Every lane the tick writes is within +-10 V (a lane the channel count
      then clears reads 0 V). */
  lemma PublishedWithinLimits(pow: (real, real) -> real, p: Params, i: Inputs, out: Port, c: Lane)
    requires IsConnected(out) && Visited(ActiveChannels(i.signal.channels), c)
    ensures -SignalLimit <= Process(pow, p, i, out).vca.voltages[c] <= SignalLimit
  {
  }

  /** The CV factor is the only place the CV and the offset enter: with the
      CV unpatched neither has any effect on the output. */
  lemma UnpatchedCvIgnored(pow: (real, real) -> real, p: Params, i: Inputs, out: Port, cv: Port, offset: real)
    requires !IsConnected(i.cv) && !IsConnected(cv)
    ensures Process(pow, p.(offset := offset), i.(cv := cv), out) == Process(pow, p, i, out)
  {
    var a := Process(pow, p.(offset := offset), i.(cv := cv), out);
    var b := Process(pow, p, i, out);
    if IsConnected(out) {
      assert a.vca.voltages == b.vca.voltages by {
        forall c: Lane
          ensures a.vca.voltages[c] == b.vca.voltages[c]
        {
          UnpatchedCvLane(pow, p, i, cv, offset, c);
        }
      }
      assert a.vca == b.vca;
    }
  }

  /** One lane of `UnpatchedCvIgnored`: the amplified input does not depend on
      an unpatched CV or on the offset. */
  lemma UnpatchedCvLane(pow: (real, real) -> real, p: Params, i: Inputs, cv: Port, offset: real, c: Lane)
    requires !IsConnected(i.cv) && !IsConnected(cv)
    ensures Amplified(pow, p.(offset := offset), i.(cv := cv), c) == Amplified(pow, p, i, c)
  {
  }

  /** At unity gain and a linear curve, with no CV, Rue is a clipper: each
      written lane below the active count is its input clamped to +-10 V, and
      a written lane beyond it is that or, when the channel count clears it, 0 V. */
  lemma UnityGainPassesSignal(pow: (real, real) -> real, p: Params, i: Inputs, out: Port, c: Lane)
    requires pow(1.0, 1.0) == 1.0
    requires p.gain == 1.0 && p.curve == 1.0 && !IsConnected(i.cv)
    requires IsConnected(out) && Visited(ActiveChannels(i.signal.channels), c)
    ensures !(ActiveChannels(i.signal.channels) <= c < out.channels) ==>
              Process(pow, p, i, out).vca.voltages[c] == Clamp(PolyVoltage(i.signal, c), -SignalLimit, SignalLimit)
    ensures ActiveChannels(i.signal.channels) <= c < out.channels ==>
              Process(pow, p, i, out).vca.voltages[c] == 0.0
  {
    assert Amplified(pow, p, i, c) == PolyVoltage(i.signal, c);
  }

  /** With the GAIN knob at zero and a curve of at least 1, every written lane
      is 0 V whatever the signal and the CV, given that 0 to any power of at
      least 1 is 0. */
  lemma ZeroGainIsSilent(pow: (real, real) -> real, p: Params, i: Inputs, out: Port, c: Lane)
    requires forall e :: 1.0 <= e ==> pow(0.0, e) == 0.0
    requires p.gain == 0.0 && 1.0 <= p.curve
    requires IsConnected(out) && Visited(ActiveChannels(i.signal.channels), c)
    ensures Process(pow, p, i, out).vca.voltages[c] == 0.0
  {
    assert Gain(pow, p) == 0.0;
    assert Amplified(pow, p, i, c) == 0.0;
  }

  /** A higher GAIN knob never gives a lower gain, for a `pow` increasing in its
      base over non-negative bases at a fixed curve of at least 1. */
  lemma GainMonotone(pow: (real, real) -> real, p: Params, gain: real)
    requires forall x, y, e :: 0.0 <= x <= y && 1.0 <= e ==> pow(x, e) <= pow(y, e)
    requires 0.0 <= p.gain <= gain && 1.0 <= p.curve
    ensures Gain(pow, p) <= Gain(pow, p.(gain := gain))
  {
    assert pow(p.gain, p.curve) <= pow(gain, p.curve);
  }

  /** The CV can only turn the level down: for a curve of at least 1 and a
      `pow` that maps [0, 1] into [0, 1], a lane's amplitude lies between 0
      and the bare gain. */
  lemma CvOnlyAttenuates(pow: (real, real) -> real, p: Params, cv: Port, c: Lane)
    requires forall x, e :: 0.0 <= x <= 1.0 && 1.0 <= e ==> 0.0 <= pow(x, e) <= 1.0
    requires 1.0 <= p.curve && 0.0 <= Gain(pow, p)
    ensures 0.0 <= Amplitude(pow, p, cv, c) <= Gain(pow, p)
  {
    if IsConnected(cv) {
      var f := pow(CvFactor(cv, p.offset, c), p.curve);
      assert 0.0 <= f <= 1.0;
      assert Gain(pow, p) * f <= Gain(pow, p) * 1.0;
    }
  }

  /** A CV at or above 10 V minus the offset opens the VCA fully: the lane's
      amplitude is the bare gain, given that 1 to any power is 1. */
  lemma FullCvIsBareGain(pow: (real, real) -> real, p: Params, cv: Port, c: Lane)
    requires forall e :: pow(1.0, e) == 1.0
    requires IsConnected(cv) && PolyVoltage(cv, c) + p.offset >= CvScale
    ensures Amplitude(pow, p, cv, c) == Gain(pow, p)
  {
  }

  /** Whether the output is patched changes only the output port: the light
      comes out the same, an unpatched output stays unpatched and untouched,
      and every patched output ends with the same channel count. */
  lemma OutputPatchingOnlyAffectsOutput(pow: (real, real) -> real, p: Params, i: Inputs, out: Port, other: Port)
    ensures Process(pow, p, i, out).sigLight == Process(pow, p, i, other).sigLight
    ensures !IsConnected(out) ==> !IsConnected(Process(pow, p, i, out).vca)
    ensures !IsConnected(out) ==> Process(pow, p, i, out).vca == out
    ensures IsConnected(out) && IsConnected(other) ==>
              Process(pow, p, i, out).vca.channels == Process(pow, p, i, other).vca.channels
  {
  }
}
