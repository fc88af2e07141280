/** Linden: three logic-style gates evaluated once per sample.
    - an analog max/min selector over two voltages;
    - a Bernoulli gate that, on each rising edge of its gate input, sends a
      10 V gate to exactly one of two outputs, chosen by a random draw
      compared against a probability threshold, and holds it until the next edge;
    - a controlled-NOT gate over two thresholded inputs. */
module Linden {

  /** Voltage at or above which an input reads as logic high. */
  const LogicThreshold: real := 2.0
  /** Voltage written for a logic high and a logic low. */
  const High: real := 10.0
  const Low: real := 0.0
  /** Bernoulli threshold used while the probability input is unpatched. */
  const DefaultThreshold: real := 0.5

  predicate IsHigh(v: real) {
    v >= LogicThreshold
  }

  function GateVoltage(b: bool): (v: real)
    ensures v == High || v == Low
    ensures v == High <==> b
  {
    if b then High else Low
  }

  // ---------------------------------------------------------------------------
  // Edge detection (the host's dsp::BooleanTrigger)
  // ---------------------------------------------------------------------------

  /** Remembers the previous thresholded input. The host starts it at `true`,
      so a gate already high when the module starts does not fire; the model
      takes the initial value as a parameter. */
  datatype BooleanTrigger = BooleanTrigger(previous: bool)

  /** Feeds one thresholded sample; reports whether it is a rising edge. */
  function TriggerProcess(t: BooleanTrigger, input: bool): (r: (bool, BooleanTrigger))
    ensures r.0 <==> input && !t.previous
    ensures r.1.previous == input
  {
    (input && !t.previous, BooleanTrigger(input))
  }

  // ---------------------------------------------------------------------------
  // Per-tick data
  // ---------------------------------------------------------------------------

  datatype Inputs = Inputs(
    analogA: real, analogB: real,
    gate: real, probConnected: bool, prob: real,
    cnotA: real, cnotB: real)

  datatype Outputs = Outputs(
    max: real, min: real,
    bernA: real, bernB: real,
    cnotA: real, cnotB: real)

  /** What survives between ticks: the trigger and the two held Bernoulli outputs. */
  datatype State = State(trigger: BooleanTrigger, bernA: real, bernB: real)

  /** Module construction: both Bernoulli outputs start at 0 V, and the
      trigger remembers `startHigh` as the previous level (the host starts it
      high, so a gate already high on the first tick does not fire). */
  function Init(startHigh: bool): (r: State)
    ensures r.bernA == Low && r.bernB == Low
    ensures r.trigger.previous == startHigh
  {
    State(BooleanTrigger(startHigh), Low, Low)
  }

  /** On the first tick after construction the gate fires iff it is high and
      the trigger started low. */
  lemma FirstTickFires(startHigh: bool, i: Inputs, draw: real)
    ensures Bernoulli(Init(startHigh), i.gate, BernoulliThreshold(i.probConnected, i.prob), draw).0
            <==> IsHigh(i.gate) && !startHigh
  {
  }

  // ---------------------------------------------------------------------------
  // Analog max/min
  // ---------------------------------------------------------------------------

  /** The two ternaries of the analog section: (max, min). */
  function MaxMin(a: real, b: real): (r: (real, real))
    ensures r.0 >= a && r.0 >= b && (r.0 == a || r.0 == b)
    ensures r.1 <= a && r.1 <= b && (r.1 == a || r.1 == b)
    ensures r.0 + r.1 == a + b
  {
    (if a > b then a else b, if a < b then a else b)
  }

  // ---------------------------------------------------------------------------
  // CNOT
  // ---------------------------------------------------------------------------

  /** The four-way branch on the thresholded bits, written as in the module. */
  function CnotBits(bitA: bool, bitB: bool): (r: (bool, bool))
    ensures r.0 == bitA
    ensures r.1 == (bitA != bitB)
  {
    if !bitA && !bitB then (false, false)
    else if !bitA && bitB then (false, true)
    else if bitA && !bitB then (true, true)
    else (true, false)
  }

  /** The CNOT section: binarise both inputs, apply the table, emit 0 V or 10 V. */
  function Cnot(a: real, b: real): (r: (real, real))
    ensures r.0 == High || r.0 == Low
    ensures r.1 == High || r.1 == Low
    ensures r.0 == High <==> IsHigh(a)
    ensures r.1 == High <==> IsHigh(a) != IsHigh(b)
  {
    var bits := CnotBits(IsHigh(a), IsHigh(b));
    (GateVoltage(bits.0), GateVoltage(bits.1))
  }

  /** The truth table row by row; exactly 2 V already reads as high. */
  lemma CnotTruthTable(a: real, b: real)
    ensures a < 2.0 && b < 2.0 ==> Cnot(a, b) == (0.0, 0.0)
    ensures a < 2.0 && b >= 2.0 ==> Cnot(a, b) == (0.0, 10.0)
    ensures a >= 2.0 && b < 2.0 ==> Cnot(a, b) == (10.0, 10.0)
    ensures a >= 2.0 && b >= 2.0 ==> Cnot(a, b) == (10.0, 0.0)
  {
  }

  /** Feeding the gate's outputs back into it restores the binarised inputs:
      on logic levels CNOT is its own inverse. */
  lemma CnotSelfInverse(a: real, b: real)
    ensures Cnot(Cnot(a, b).0, Cnot(a, b).1) == (GateVoltage(IsHigh(a)), GateVoltage(IsHigh(b)))
  {
  }

  // ---------------------------------------------------------------------------
  // Bernoulli gate
  // ---------------------------------------------------------------------------

  /** The comparison threshold: 0.5 when unpatched, otherwise volts / 10,
      deliberately without a clamp. */
  function BernoulliThreshold(probConnected: bool, prob: real): (t: real)
    ensures !probConnected ==> t == DefaultThreshold
    ensures probConnected ==> t * 10.0 == prob
  {
    if probConnected then prob / 10.0 else DefaultThreshold
  }

  /** One tick of the Bernoulli section. `draw` stands for the uniform random
      number the module asks for on a firing; it is ignored on other ticks.
      Returns whether the tick fired and the new state. */
  function Bernoulli(s: State, gate: real, threshold: real, draw: real): (r: (bool, State))
    ensures r.0 <==> IsHigh(gate) && !s.trigger.previous
    ensures r.1.trigger.previous == IsHigh(gate)
    ensures !r.0 ==> r.1.bernA == s.bernA && r.1.bernB == s.bernB
    ensures r.0 ==> (r.1.bernA == High && r.1.bernB == Low) || (r.1.bernA == Low && r.1.bernB == High)
    ensures r.0 ==> (r.1.bernB == High <==> draw < threshold)
  {
    var (fired, trigger) := TriggerProcess(s.trigger, IsHigh(gate));
    if fired then
      var outcome := draw < threshold;
      (true, State(trigger, GateVoltage(!outcome), GateVoltage(outcome)))
    else
      (false, s.(trigger := trigger))
  }

  /** A threshold at or below 0 always picks output A, one at or above 1
      always picks output B, for every draw in [0, 1). */
  lemma ThresholdExtremes(s: State, gate: real, threshold: real, draw: real)
    requires 0.0 <= draw < 1.0
    requires Bernoulli(s, gate, threshold, draw).0
    ensures threshold <= 0.0 ==> Bernoulli(s, gate, threshold, draw).1.bernA == High
    ensures threshold >= 1.0 ==> Bernoulli(s, gate, threshold, draw).1.bernB == High
  {
  }

  // ---------------------------------------------------------------------------
  // The whole module
  // ---------------------------------------------------------------------------

  /** `Linden::process`: one sample tick. */
  function Process(s: State, i: Inputs, draw: real): (r: (State, Outputs))
    // analog max/min
    ensures r.1.max >= i.analogA && r.1.max >= i.analogB
    ensures r.1.max == i.analogA || r.1.max == i.analogB
    ensures r.1.min <= i.analogA && r.1.min <= i.analogB
    ensures r.1.min == i.analogA || r.1.min == i.analogB
    // Bernoulli: the trigger remembers this tick's level, fired or not
    ensures r.0.trigger.previous == IsHigh(i.gate)
    ensures !(IsHigh(i.gate) && !s.trigger.previous) ==>
              r.1.bernA == s.bernA && r.1.bernB == s.bernB
    ensures IsHigh(i.gate) && !s.trigger.previous ==>
              (r.1.bernA == High <==> r.1.bernB == Low) && (r.1.bernA == High || r.1.bernA == Low)
    ensures IsHigh(i.gate) && !s.trigger.previous ==>
              (r.1.bernB == High <==> draw < BernoulliThreshold(i.probConnected, i.prob))
    ensures r.1.bernA == r.0.bernA && r.1.bernB == r.0.bernB
    // CNOT
    ensures r.1.cnotA == GateVoltage(IsHigh(i.cnotA))
    ensures r.1.cnotB == GateVoltage(IsHigh(i.cnotA) != IsHigh(i.cnotB))
  {
    var (max, min) := MaxMin(i.analogA, i.analogB);
    var threshold := BernoulliThreshold(i.probConnected, i.prob);
    var (_, s') := Bernoulli(s, i.gate, threshold, draw);
    var (cnotA, cnotB) := Cnot(i.cnotA, i.cnotB);
    (s', Outputs(max, min, s'.bernA, s'.bernB, cnotA, cnotB))
  }

  /** One tick's worth of host input together with the random draw. */
  datatype Tick = Tick(inputs: Inputs, draw: real)

  /** Runs the module over a sequence of ticks. */
  function Run(s: State, ticks: seq<Tick>): State
    decreases |ticks|
  {
    if |ticks| == 0 then s else Run(Process(s, ticks[0].inputs, ticks[0].draw).0, ticks[1..])
  }

  /** Exactly one Bernoulli output is high. */
  predicate OneHot(s: State) {
    (s.bernA == High && s.bernB == Low) || (s.bernA == Low && s.bernB == High)
  }

  /** A tick that fires puts the outputs into a one-hot pair; a one-hot pair
      stays one-hot on every later tick. */
  lemma ProcessKeepsOneHot(s: State, i: Inputs, draw: real)
    requires OneHot(s) || (IsHigh(i.gate) && !s.trigger.previous)
    ensures OneHot(Process(s, i, draw).0)
  {
  }

  /** Two consecutive ticks never both fire: after a firing the trigger
      remembers a high level, so the gate must fall before it can fire again. */
  lemma NoBackToBackFirings(s: State, i1: Inputs, d1: real, i2: Inputs)
    requires IsHigh(i1.gate) && !s.trigger.previous
    ensures !(IsHigh(i2.gate) && !Process(s, i1, d1).0.trigger.previous)
  {
  }

  /** Only a rising edge changes the outputs: over a run whose gate never
      rises, the Bernoulli outputs keep their initial values. */
  lemma {:induction false} NoEdgeNoChange(s: State, ticks: seq<Tick>)
    requires |ticks| > 0 ==> !(IsHigh(ticks[0].inputs.gate) && !s.trigger.previous)
    requires forall k :: 0 < k < |ticks| ==> !(IsHigh(ticks[k].inputs.gate) && !IsHigh(ticks[k - 1].inputs.gate))
    ensures Run(s, ticks).bernA == s.bernA && Run(s, ticks).bernB == s.bernB
    decreases |ticks|
  {
    if |ticks| > 0 {
      var s' := Process(s, ticks[0].inputs, ticks[0].draw).0;
      var rest := ticks[1..];
      if |rest| > 0 {
        assert rest[0] == ticks[1];
      }
      forall k | 0 < k < |rest|
        ensures !(IsHigh(rest[k].inputs.gate) && !IsHigh(rest[k - 1].inputs.gate))
      {
        assert rest[k] == ticks[k + 1] && rest[k - 1] == ticks[k];
      }
      NoEdgeNoChange(s', rest);
    }
  }

  /** With the probability input patched to 0 V or less, every firing selects
      output A: after any run the outputs are either untouched or A high, B low. */
  lemma {:induction false} ZeroProbabilityAlwaysA(s: State, ticks: seq<Tick>)
    requires forall k :: 0 <= k < |ticks| ==> ticks[k].inputs.probConnected && ticks[k].inputs.prob <= 0.0
    requires forall k :: 0 <= k < |ticks| ==> 0.0 <= ticks[k].draw < 1.0
    ensures var e := Run(s, ticks);
            (e.bernA == s.bernA && e.bernB == s.bernB) || (e.bernA == High && e.bernB == Low)
    decreases |ticks|
  {
    if |ticks| > 0 {
      var t := ticks[0];
      var s' := Process(s, t.inputs, t.draw).0;
      ZeroProbabilityAlwaysA(s', ticks[1..]);
      if IsHigh(t.inputs.gate) && !s.trigger.previous {
        assert s'.bernA == High && s'.bernB == Low;
      }
    }
  }

  /** With the probability input patched to 10 V or more, every firing selects
      output B. */
  lemma {:induction false} FullProbabilityAlwaysB(s: State, ticks: seq<Tick>)
    requires forall k :: 0 <= k < |ticks| ==> ticks[k].inputs.probConnected && ticks[k].inputs.prob >= 10.0
    requires forall k :: 0 <= k < |ticks| ==> 0.0 <= ticks[k].draw < 1.0
    ensures var e := Run(s, ticks);
            (e.bernA == s.bernA && e.bernB == s.bernB) || (e.bernA == Low && e.bernB == High)
    decreases |ticks|
  {
    if |ticks| > 0 {
      var t := ticks[0];
      var s' := Process(s, t.inputs, t.draw).0;
      FullProbabilityAlwaysB(s', ticks[1..]);
      if IsHigh(t.inputs.gate) && !s.trigger.previous {
        assert s'.bernA == Low && s'.bernB == High;
      }
    }
  }
}
