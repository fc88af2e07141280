/** The host vocabulary the modules are written against: polyphonic ports,
    voltage clamping, and the bookkeeping that walks up to sixteen polyphonic
    channels in groups of four lanes. */
module Rack {

  /** A polyphonic port carries at most this many channels. */
  const MaxChannels: int := 16

  /** Lanes processed together by one SIMD batch. */
  const GroupSize: int := 4

  type Lane = c: int | 0 <= c < 16
  type ChannelCount = n: int | 0 <= n <= 16
  /** Number of channels a module processes: never zero. */
  type Active = n: int | 1 <= n <= 16 witness 1

  /** The per-channel voltages held by a port. */
  type Voltages = s: seq<real> | |s| == 16 witness seq(16, _ => 0.0)

  /** A batch of four lanes. */
  type Quad = s: seq<real> | |s| == 4 witness [0.0, 0.0, 0.0, 0.0]

  /** An input or output port: its channel count (0 means unpatched) and voltages. */
  datatype Port = Port(channels: ChannelCount, voltages: Voltages)

  predicate IsConnected(p: Port) {
    p.channels > 0
  }

  /** The voltage of channel 0, as read by a monophonic input. */
  function Voltage(p: Port): real {
    p.voltages[0]
  }

  /** The voltage lane `c` sees: a monophonic cable feeds every lane. */
  function PolyVoltage(p: Port, c: Lane): (v: real)
    ensures p.channels != 1 ==> v == p.voltages[c]
    ensures p.channels == 1 ==> v == Voltage(p)
  {
    if p.channels == 1 then p.voltages[0] else p.voltages[c]
  }

  /** `simd::clamp`: `fmin(fmax(x, lo), hi)`. Every use passes lo <= hi, where
      it limits `x` to [lo, hi] (and agrees with the scalar `clamp`). */
  function Clamp(x: real, lo: real, hi: real): (r: real)
    ensures lo <= hi ==> lo <= r <= hi
    ensures lo <= x <= hi ==> r == x
    ensures lo <= hi && x < lo ==> r == lo
    ensures hi < x ==> r == hi
  {
    var atLeast := if x < lo then lo else x;
    if hi < atLeast then hi else atLeast
  }

  /** `Port::setChannels(n)` on an output, with `n >= 1`. An unpatched port is
      left exactly as it was: it keeps 0 channels, so setting a count never
      patches it. A patched port takes `n` channels, and the lanes from `n` up
      to its old count are zeroed; every other lane keeps its voltage. */
  function SetChannels(p: Port, n: Active): (r: Port)
    ensures !IsConnected(p) ==> r == p
    ensures IsConnected(p) ==> r.channels == n
    ensures IsConnected(p) ==>
              forall c :: 0 <= c < 16 ==> r.voltages[c] == if n <= c < p.channels then 0.0 else p.voltages[c]
  {
    if !IsConnected(p) then p
    else Port(n, seq(16, c requires 0 <= c < 16 => if n <= c < p.channels then 0.0 else p.voltages[c]))
  }

  /** Setting the same channel count twice is setting it once: the second call
      finds nothing left to clear. */
  lemma SetChannelsIdempotent(p: Port, n: Active)
    ensures SetChannels(SetChannels(p, n), n) == SetChannels(p, n)
  {
    var q := SetChannels(p, n);
    if IsConnected(p) {
      assert SetChannels(q, n).voltages == q.voltages;
    }
  }

  /** The end of a tick on an output: lanes written by the group loop (`w(c)`
      on visited lanes when patched), then `setChannels(active)`. An unpatched
      output is unchanged; a patched one reads 0 V from the active count up to
      its old count, the written value on other visited lanes, and its old
      voltage elsewhere. */
  lemma WrittenThenSetChannels(active: Active, before: Port, v: Voltages, w: Lane -> real)
    requires forall c :: 0 <= c < 16 ==>
               v[c] == if IsConnected(before) && Visited(active, c) then w(c) else before.voltages[c]
    ensures !IsConnected(before) ==> SetChannels(Port(before.channels, v), active) == before
    ensures IsConnected(before) ==> SetChannels(Port(before.channels, v), active).channels == active
    ensures IsConnected(before) ==>
              forall c :: 0 <= c < 16 ==>
                SetChannels(Port(before.channels, v), active).voltages[c]
                == if active <= c < before.channels then 0.0
                   else if Visited(active, c) then w(c)
                   else before.voltages[c]
  {
    if !IsConnected(before) {
      assert v == before.voltages;
    }
  }

  /** Overwrites the four lanes starting at `chan` and keeps every other lane. */
  function WriteQuad(v: Voltages, chan: int, q: Quad): (r: Voltages)
    requires 0 <= chan <= MaxChannels - GroupSize
    ensures forall c :: 0 <= c < 16 && chan <= c < chan + 4 ==> r[c] == q[c - chan]
    ensures forall c :: 0 <= c < 16 && !(chan <= c < chan + 4) ==> r[c] == v[c]
  {
    seq(16, c requires 0 <= c < 16 => if chan <= c < chan + 4 then q[c - chan] else v[c])
  }

  // ---------------------------------------------------------------------------
  // Channel-group bookkeeping: `for (chan = 0; chan < active; chan += 4)`
  // ---------------------------------------------------------------------------

  /** `std::max(1, channels)`: an unpatched or monophonic input still runs one lane. */
  function ActiveChannels(channels: ChannelCount): (r: Active)
    ensures channels <= r
    ensures channels >= 1 ==> r == channels
    ensures channels == 0 ==> r == 1
  {
    if channels > 1 then channels else 1
  }

  /** A loop counter that starts at 0 and advances by a whole group. */
  predicate GroupStart(chan: int) {
    0 <= chan && chan % GroupSize == 0
  }

  /** The loop counter's values that stay inside the sixteen lanes: 0, 4, 8, 12. */
  type GroupChan = chan: int | 0 <= chan <= MaxChannels - GroupSize && chan % GroupSize == 0

  /** `std::min(active - chan, 4)`: lanes of the group starting at `chan` that carry a channel. */
  function GroupWidth(active: Active, chan: int): (r: int)
    ensures chan < active ==> 1 <= r <= GroupSize
    ensures r <= active - chan
    ensures r < GroupSize ==> chan + r == active
  {
    if active - chan < GroupSize then active - chan else GroupSize
  }

  /** Lane `c` lies in a group the loop visits. */
  predicate Visited(active: Active, c: Lane) {
    (c / GroupSize) * GroupSize < active
  }

  /** Every active channel is visited, and the visited lanes beyond the active
      ones are confined to the last, partly filled group. */
  lemma VisitedLanes(active: Active, c: Lane)
    ensures c < active ==> Visited(active, c)
    ensures Visited(active, c) ==> c < active + GroupSize - 1
  {
  }

  /** Every loop start below the active count indexes one of the four groups
      (`Oscillators[chan / 4]`, `signals[chan / 4]`) and leaves room for a
      whole group of lanes. */
  lemma GroupIndexInBank(active: Active, chan: int)
    requires GroupStart(chan) && chan < active
    ensures 0 <= chan / GroupSize < 4
    ensures chan + GroupSize <= MaxChannels
  {
  }

  /** Sum of the group widths the loop assigns from `chan` on. */
  function WidthsFrom(active: Active, chan: int): int
    requires chan >= 0
    decreases active - chan
  {
    if chan >= active then 0 else GroupWidth(active, chan) + WidthsFrom(active, chan + GroupSize)
  }

  /** The groups partition the active channels: their widths add up to exactly
      the channels that remain from `chan`. */
  lemma {:induction false} WidthsCoverActive(active: Active, chan: int)
    requires 0 <= chan <= active
    ensures WidthsFrom(active, chan) == active - chan
    decreases active - chan
  {
    if chan < active {
      if chan + GroupSize <= active {
        WidthsCoverActive(active, chan + GroupSize);
      }
    }
  }

  /** The loop over groups, `for (chan = chan; chan < active; chan += 4)`, for a
      module whose per-group state is `S`: the body replaces the group's state
      by `update(chan, state)` and, when the output is patched, writes
      `publish` of the new state to the group's four output lanes.

      A group is updated iff the loop reaches it; a lane is written iff the
      output is patched and its group is reached; all else is unchanged. */
  function ForEachGroup<S>(active: Active, chan: int, bank: seq<S>, out: Voltages, outConnected: bool,
                           update: (GroupChan, S) -> S, publish: S -> Quad): (r: (seq<S>, Voltages))
    requires GroupStart(chan) && |bank| == 4
    ensures |r.0| == 4
    ensures forall g :: 0 <= g < 4 ==>
              r.0[g] == if chan <= GroupSize * g < active then update(GroupSize * g, bank[g]) else bank[g]
    ensures forall c :: 0 <= c < 16 ==>
              r.1[c] == if outConnected && chan <= c && Visited(active, c)
                        then publish(r.0[c / GroupSize])[c % GroupSize]
                        else out[c]
    decreases active - chan
  {
    if chan >= active then (bank, out)
    else
      var g := chan / GroupSize;
      var s := update(chan, bank[g]);
      var out' := if outConnected then WriteQuad(out, chan, publish(s)) else out;
      var r := ForEachGroup(active, chan + GroupSize, bank[g := s], out', outConnected, update, publish);
      ForEachGroupStep(active, chan, bank, out, outConnected, update, publish, s, out', r);
      r
  }

  /** The inductive step of `ForEachGroup`: the group at `chan` handled by the
      body, the later ones by the recursive call. */
  lemma ForEachGroupStep<S>(active: Active, chan: int, bank: seq<S>, out: Voltages, outConnected: bool,
                            update: (GroupChan, S) -> S, publish: S -> Quad,
                            s: S, out': Voltages, r: (seq<S>, Voltages))
    requires GroupStart(chan) && chan < active && |bank| == 4 && |r.0| == 4
    requires s == update(chan, bank[chan / GroupSize])
    requires out' == if outConnected then WriteQuad(out, chan, publish(s)) else out
    requires forall g :: 0 <= g < 4 ==>
               r.0[g] == if chan + GroupSize <= GroupSize * g < active
                         then update(GroupSize * g, bank[chan / GroupSize := s][g])
                         else bank[chan / GroupSize := s][g]
    requires forall c :: 0 <= c < 16 ==>
               r.1[c] == if outConnected && chan + GroupSize <= c && Visited(active, c)
                         then publish(r.0[c / GroupSize])[c % GroupSize]
                         else out'[c]
    ensures forall g :: 0 <= g < 4 ==>
              r.0[g] == if chan <= GroupSize * g < active then update(GroupSize * g, bank[g]) else bank[g]
    ensures forall c :: 0 <= c < 16 ==>
              r.1[c] == if outConnected && chan <= c && Visited(active, c)
                        then publish(r.0[c / GroupSize])[c % GroupSize]
                        else out[c]
  {
    var h := chan / GroupSize;
    assert r.0[h] == s;
    forall c | 0 <= c < 16
      ensures r.1[c] == if outConnected && chan <= c && Visited(active, c)
                        then publish(r.0[c / GroupSize])[c % GroupSize]
                        else out[c]
    {
      if chan <= c < chan + GroupSize {
        assert c / GroupSize == h && c % GroupSize == c - chan;
      }
    }
  }
}
