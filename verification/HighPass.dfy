/**
 A one-pole high-pass over interleaved samples, a slot for each channel, and the frame energies
 measured behind it. Samples are exact reals; levels are mean squares, not their roots.
 */
module HighPass {
  import opened Prelude
  import M = Mix

  /** Previous input and output of a channel, once it has had a sample. */
  type Slot = Option<(real, real)>

  function Output(pole: real, slot: Slot, x: real): real {
    var (prevIn, prevOut) := if slot.Some? then slot.value else (x, 0.0);
    pole * (prevOut + x - prevIn)
  }

  function NextSlot(pole: real, slot: Slot, x: real): Slot {
    Some((x, Output(pole, slot, x)))
  }

  /** Filter interleaved samples, the first on channel 0. */
  function Filtered(pole: real, st: seq<Slot>, xs: seq<real>): (r: (seq<Slot>, seq<real>))
    requires |st| > 0
    ensures |r.0| == |st| && |r.1| == |xs|
  {
    if xs == [] then (st, [])
    else
      var n := |xs| - 1;
      var (mid, ys) := Filtered(pole, st, xs[..n]);
      var c := Lane(n, |st|);
      (mid[c := NextSlot(pole, mid[c], xs[n])], ys + [Output(pole, mid[c], xs[n])])
  }

  // ---------------------------------------------------------------------------------------------
  // Offsets

  /** `ys` is `xs` with a constant added to each channel. */
  ghost predicate Offset(xs: seq<real>, ys: seq<real>, off: seq<real>)
    requires |off| > 0
  {
    |xs| == |ys| && forall i :: 0 <= i < |xs| ==> ys[i] == xs[i] + off[Lane(i, |off|)]
  }

  /** The same filter state, as if its input had been offset. */
  ghost predicate OffsetState(st: seq<Slot>, sh: seq<Slot>, off: seq<real>) {
    && |st| == |sh| == |off|
    && forall c :: 0 <= c < |st| ==>
         if st[c].None? then sh[c].None? else sh[c] == Some((st[c].value.0 + off[c], st[c].value.1))
  }

  lemma OutputIgnoresOffset(pole: real, slot: Slot, shifted: Slot, x: real, off: real)
    requires if slot.None? then shifted.None? else shifted == Some((slot.value.0 + off, slot.value.1))
    ensures Output(pole, shifted, x + off) == Output(pole, slot, x)
  {
    if slot.Some? {
      assert slot.value.1 + (x + off) - (slot.value.0 + off) == slot.value.1 + x - slot.value.0;
    } else {
      assert 0.0 + (x + off) - (x + off) == 0.0 + x - x;
    }
  }

  lemma OffsetStateStep(pole: real, st: seq<Slot>, sh: seq<Slot>, off: seq<real>, c: nat, x: real)
    requires OffsetState(st, sh, off) && c < |st|
    ensures Output(pole, sh[c], x + off[c]) == Output(pole, st[c], x)
    ensures OffsetState(st[c := NextSlot(pole, st[c], x)], sh[c := NextSlot(pole, sh[c], x + off[c])], off)
  {
    OutputIgnoresOffset(pole, st[c], sh[c], x, off[c]);
  }

  /** A constant offset on any channel leaves every filtered sample unchanged. */
  lemma {:induction false} OffsetNeverPasses(pole: real, st: seq<Slot>, sh: seq<Slot>, xs: seq<real>, ys: seq<real>, off: seq<real>)
    requires |st| > 0 && OffsetState(st, sh, off) && Offset(xs, ys, off)
    ensures Filtered(pole, sh, ys).1 == Filtered(pole, st, xs).1
    ensures OffsetState(Filtered(pole, st, xs).0, Filtered(pole, sh, ys).0, off)
    decreases |xs|
  {
    if xs != [] {
      var n := |xs| - 1;
      OffsetNeverPasses(pole, st, sh, xs[..n], ys[..n], off);
      var c := Lane(n, |st|);
      OffsetStateStep(pole, Filtered(pole, st, xs[..n]).0, Filtered(pole, sh, ys[..n]).0, off, c, xs[n]);
    }
  }

  // ---------------------------------------------------------------------------------------------
  // Channels

  /** The samples of channel `c`. */
  function Channel(xs: seq<real>, c: nat, channels: nat): seq<real>
    requires channels > 0
  {
    if xs == [] then []
    else Channel(xs[..|xs| - 1], c, channels) + if Lane(|xs| - 1, channels) == c then [xs[|xs| - 1]] else []
  }

  /** The filter over a single channel. */
  function Mono(pole: real, slot: Slot, xs: seq<real>): (Slot, seq<real>) {
    if xs == [] then (slot, [])
    else
      var (mid, ys) := Mono(pole, slot, xs[..|xs| - 1]);
      (NextSlot(pole, mid, xs[|xs| - 1]), ys + [Output(pole, mid, xs[|xs| - 1])])
  }

  /** Interleaved channels filter as separate mono streams. */
  lemma {:induction false} ChannelsAreIndependent(pole: real, st: seq<Slot>, xs: seq<real>, c: nat)
    requires c < |st|
    ensures Filtered(pole, st, xs).0[c] == Mono(pole, st[c], Channel(xs, c, |st|)).0
    ensures Channel(Filtered(pole, st, xs).1, c, |st|) == Mono(pole, st[c], Channel(xs, c, |st|)).1
    decreases |xs|
  {
    if xs != [] {
      var n := |xs| - 1;
      ChannelsAreIndependent(pole, st, xs[..n], c);
      var ys := Filtered(pole, st, xs).1;
      assert ys[..n] == Filtered(pole, st, xs[..n]).1;
      var front := Channel(xs[..n], c, |st|);
      if Lane(n, |st|) == c {
        assert (front + [xs[n]])[..|front|] == front;
      } else {
        assert front + [] == front;
        assert Channel(ys[..n], c, |st|) + [] == Channel(ys[..n], c, |st|);
      }
    }
  }

  // ---------------------------------------------------------------------------------------------
  // The response

  /** `n` samples of the same level. */
  function Steady(x: real, n: nat): seq<real> {
    seq(n, _ => x)
  }

  lemma MonoLast(pole: real, slot: Slot, xs: seq<real>, x: real)
    ensures Mono(pole, slot, xs + [x]).0 == NextSlot(pole, Mono(pole, slot, xs).0, x)
    ensures Mono(pole, slot, xs + [x]).1 == Mono(pole, slot, xs).1 + [Output(pole, Mono(pole, slot, xs).0, x)]
  {
    assert (xs + [x])[..|xs|] == xs;
  }

  /** The slot holds this input and this output. */
  predicate Holds(slot: Slot, x: real, y: real) {
    slot.Some? && slot.value.0 == x && slot.value.1 == y
  }

  lemma OutputUnderSteadyInput(pole: real, slot: Slot, x: real, y: real)
    requires Holds(slot, x, y)
    ensures Output(pole, slot, x) == pole * y
  {
    assert y + x - x == y;
  }

  lemma FirstOutput(pole: real, x: real)
    ensures Output(pole, None, x) == 0.0
  {
    assert 0.0 + x - x == 0.0;
  }

  lemma DecaysOnce(x: real, pole: real, n: nat)
    ensures Decayed(x, pole, n + 1) == pole * Decayed(x, pole, n)
  {
  }

  /** A channel that stood at input `a` and output `y` and steps to `x` passes the step on, and what it
      passes on decays by the pole with every sample. */
  lemma {:induction false} StepDecays(pole: real, slot: Slot, a: real, y: real, x: real, n: nat)
    requires Holds(slot, a, y)
    ensures Holds(Mono(pole, slot, Steady(x, n + 1)).0, x, Decayed(y + x - a, pole, n + 1))
    ensures var ys := Mono(pole, slot, Steady(x, n + 1)).1;
            |ys| == n + 1 && ys[n] == Decayed(y + x - a, pole, n + 1)
  {
    var step := y + x - a;
    DecaysOnce(step, pole, n);
    assert Steady(x, n + 1) == Steady(x, n) + [x];
    MonoLast(pole, slot, Steady(x, n), x);
    if n == 0 {
      assert Steady(x, 0) == [];
      assert Output(pole, slot, x) == pole * step;
    } else {
      StepDecays(pole, slot, a, y, x, n - 1);
      OutputUnderSteadyInput(pole, Mono(pole, slot, Steady(x, n)).0, x, Decayed(step, pole, n));
    }
  }

  /** A fresh channel takes its first sample as its level: a steady input gives nothing. */
  lemma {:induction false} FreshChannelStartsAtRest(pole: real, x: real, n: nat)
    ensures Mono(pole, None, Steady(x, n)).1 == Steady(0.0, n)
    ensures n > 0 ==> Holds(Mono(pole, None, Steady(x, n)).0, x, 0.0)
  {
    if n > 0 {
      FreshChannelStartsAtRest(pole, x, n - 1);
      assert Steady(x, n) == Steady(x, n - 1) + [x];
      MonoLast(pole, None, Steady(x, n - 1), x);
      if n == 1 {
        assert Steady(x, 0) == [];
        FirstOutput(pole, x);
      } else {
        OutputUnderSteadyInput(pole, Mono(pole, None, Steady(x, n - 1)).0, x, 0.0);
      }
      assert Steady(0.0, n) == Steady(0.0, n - 1) + [0.0];
    }
  }

  // ---------------------------------------------------------------------------------------------
  // Frames

  lemma {:induction false} FilteredInPieces(pole: real, st: seq<Slot>, xs: seq<real>, zs: seq<real>)
    requires |st| > 0 && Lane(|xs|, |st|) == 0
    ensures Filtered(pole, st, xs + zs).0 == Filtered(pole, Filtered(pole, st, xs).0, zs).0
    ensures Filtered(pole, st, xs + zs).1 == Filtered(pole, st, xs).1 + Filtered(pole, Filtered(pole, st, xs).0, zs).1
    decreases |zs|
  {
    if zs == [] {
      assert xs + zs == xs;
    } else {
      var n := |zs| - 1;
      FilteredInPieces(pole, st, xs, zs[..n]);
      assert (xs + zs)[..|xs| + n] == xs + zs[..n];
      assert (xs + zs)[|xs| + n] == zs[n];
      LaneShift(|xs|, n, |st|);
    }
  }

  function Energy(ys: seq<real>): real {
    if ys == [] then 0.0 else Energy(ys[..|ys| - 1]) + ys[|ys| - 1] * ys[|ys| - 1]
  }

  function MeanSquare(ys: seq<real>): real
    requires ys != []
  {
    Energy(ys) / |ys| as real
  }

  /** The mean square of each `size`-long frame of a chunk (the last may be shorter), and the filter
      state carried on. */
  function Levels(pole: real, st: seq<Slot>, xs: seq<real>, size: nat): (r: (seq<Slot>, seq<real>))
    requires |st| > 0 && size > 0
    ensures |r.0| == |st|
    decreases |xs|
  {
    if xs == [] then (st, [])
    else
      var cut := if |xs| < size then |xs| else size;
      var (mid, ys) := Filtered(pole, st, xs[..cut]);
      var (end, rest) := Levels(pole, mid, xs[cut..], size);
      (end, [MeanSquare(ys)] + rest)
  }

  /** The first frame's level, then the rest's. */
  lemma LevelsStartWithAFrame(pole: real, st: seq<Slot>, xs: seq<real>, size: nat, cut: nat)
    requires |st| > 0 && size > 0 && xs != [] && cut == if |xs| < size then |xs| else size
    ensures var (mid, ys) := Filtered(pole, st, xs[..cut]);
            && Levels(pole, st, xs, size).0 == Levels(pole, mid, xs[cut..], size).0
            && Levels(pole, st, xs, size).1 == [MeanSquare(ys)] + Levels(pole, mid, xs[cut..], size).1
  {
  }

  lemma LevelsAfterAFrame(pole: real, st: seq<Slot>, first: seq<real>, later: seq<real>, size: nat)
    requires |st| > 0 && |first| == size > 0
    ensures var (mid, ys) := Filtered(pole, st, first);
            && Levels(pole, st, first + later, size).0 == Levels(pole, mid, later, size).0
            && Levels(pole, st, first + later, size).1 == [MeanSquare(ys)] + Levels(pole, mid, later, size).1
  {
    LevelsStartWithAFrame(pole, st, first + later, size, size);
    assert (first + later)[..size] == first && (first + later)[size..] == later;
  }

  /** The mean square of each `size`-long frame of a signal. */
  function Means(ys: seq<real>, size: nat): seq<real>
    requires size > 0
  {
    if ys == [] then []
    else if |ys| < size then [MeanSquare(ys)]
    else [MeanSquare(ys[..size])] + Means(ys[size..], size)
  }

  lemma MeansOfPieces(ys: seq<real>, zs: seq<real>, size: nat)
    requires size > 0 && |ys| == size
    ensures Means(ys + zs, size) == [MeanSquare(ys)] + Means(zs, size)
  {
    assert (ys + zs)[..size] == ys && (ys + zs)[size..] == zs;
  }

  lemma LevelsOfOneFrame(pole: real, st: seq<Slot>, xs: seq<real>, size: nat)
    requires |st| > 0 && 0 < |xs| <= size
    ensures Levels(pole, st, xs, size).0 == Filtered(pole, st, xs).0
    ensures Levels(pole, st, xs, size).1 == Means(Filtered(pole, st, xs).1, size)
  {
    LevelsStartWithAFrame(pole, st, xs, size, |xs|);
    assert xs[..|xs|] == xs && xs[|xs|..] == [];
    var ys := Filtered(pole, st, xs).1;
    if |xs| == size {
      MeansOfPieces(ys, [], size);
      assert ys + [] == ys;
    }
  }

  lemma SignalStartsWithAFrame(pole: real, st: seq<Slot>, first: seq<real>, later: seq<real>, size: nat)
    requires |st| > 0 && |first| == size > 0 && Lane(size, |st|) == 0
    ensures var (mid, ys) := Filtered(pole, st, first);
            && Filtered(pole, st, first + later).0 == Filtered(pole, mid, later).0
            && Means(Filtered(pole, st, first + later).1, size) == [MeanSquare(ys)] + Means(Filtered(pole, mid, later).1, size)
  {
    var (mid, ys) := Filtered(pole, st, first);
    FilteredInPieces(pole, st, first, later);
    MeansOfPieces(ys, Filtered(pole, mid, later).1, size);
  }

  /** Frame by frame, the levels are those of the one signal the filter makes of all the samples. */
  lemma {:induction false} LevelsAreOfOneSignal(pole: real, st: seq<Slot>, xs: seq<real>, size: nat)
    requires |st| > 0 && size > 0 && Lane(size, |st|) == 0
    ensures Levels(pole, st, xs, size).0 == Filtered(pole, st, xs).0
    ensures Levels(pole, st, xs, size).1 == Means(Filtered(pole, st, xs).1, size)
    decreases |xs|
  {
    if 0 < |xs| <= size {
      LevelsOfOneFrame(pole, st, xs, size);
    } else if xs != [] {
      assert xs == xs[..size] + xs[size..];
      SignalStartsWithAFrame(pole, st, xs[..size], xs[size..], size);
      LevelsStartWithAFrame(pole, st, xs, size, size);
      LevelsAreOfOneSignal(pole, Filtered(pole, st, xs[..size]).0, xs[size..], size);
    }
  }

  /** A constant offset on any channel leaves every frame's level unchanged. */
  lemma {:induction false} OffsetLeavesLevels(pole: real, st: seq<Slot>, sh: seq<Slot>, xs: seq<real>, ys: seq<real>, off: seq<real>, size: nat)
    requires |st| > 0 && size > 0 && Lane(size, |st|) == 0
    requires OffsetState(st, sh, off) && Offset(xs, ys, off)
    ensures Levels(pole, sh, ys, size).1 == Levels(pole, st, xs, size).1
    ensures OffsetState(Levels(pole, st, xs, size).0, Levels(pole, sh, ys, size).0, off)
    decreases |xs|
  {
    if xs != [] {
      var cut := if |xs| < size then |xs| else size;
      OffsetNeverPasses(pole, st, sh, xs[..cut], ys[..cut], off);
      if |xs| <= size {
        assert xs[cut..] == [] && ys[cut..] == [];
      } else {
        forall i | 0 <= i < |xs| - cut
          ensures ys[cut..][i] == xs[cut..][i] + off[Lane(i, |off|)]
        {
          LaneShift(size, i, |off|);
          assert ys[cut + i] == xs[cut + i] + off[Lane(cut + i, |off|)];
        }
      }
      OffsetLeavesLevels(pole, Filtered(pole, st, xs[..cut]).0, Filtered(pole, sh, ys[..cut]).0, xs[cut..], ys[cut..], off, size);
    }
  }

  /** The tap on a whole session: any constant offset from the start reads exactly as none. */
  lemma FreshFilterHidesOffset(pole: real, channels: nat, xs: seq<real>, ys: seq<real>, off: seq<real>, size: nat)
    requires channels > 0 && |off| == channels && size > 0 && Lane(size, channels) == 0 && Offset(xs, ys, off)
    ensures var fresh0: seq<Slot> := seq(channels, _ => None);
            Levels(pole, fresh0, ys, size).1 == Levels(pole, fresh0, xs, size).1
  {
    var fresh0: seq<Slot> := seq(channels, _ => None);
    OffsetLeavesLevels(pole, fresh0, fresh0, xs, ys, off, size);
  }

  /** Levels do not depend on where audio is cut into chunks, as long as the cut is at a frame. */
  lemma {:induction false} LevelsChunkAnywhere(pole: real, st: seq<Slot>, xs: seq<real>, zs: seq<real>, size: nat, frames: nat)
    requires |st| > 0 && size > 0 && |xs| == Times(size, frames)
    ensures Levels(pole, st, xs + zs, size).0 == Levels(pole, Levels(pole, st, xs, size).0, zs, size).0
    ensures Levels(pole, st, xs + zs, size).1
         == Levels(pole, st, xs, size).1 + Levels(pole, Levels(pole, st, xs, size).0, zs, size).1
    decreases frames
  {
    if frames == 0 {
      assert xs + zs == zs;
    } else {
      assert |xs| == size + Times(size, frames - 1);
      var first, later := xs[..size], xs[size..];
      var (mid, ys) := Filtered(pole, st, first);
      assert xs == first + later;
      Regroup(first, later, zs);
      LevelsAfterAFrame(pole, st, first, later, size);
      LevelsAfterAFrame(pole, st, first, later + zs, size);
      LevelsChunkAnywhere(pole, mid, later, zs, size, frames - 1);
      var (end, levels) := Levels(pole, mid, later, size);
      Regroup([MeanSquare(ys)], levels, Levels(pole, end, zs, size).1);
    }
  }

  // ---------------------------------------------------------------------------------------------
  // Chunks of S16 audio

  /** The samples of a chunk, full scale being one; an odd byte at its end is none. */
  function Samples(data: seq<Byte>): (xs: seq<real>)
    ensures |xs| == |data| / 2
  {
    seq(|data| / 2, i requires 0 <= i < |data| / 2 => M.Decode(data[2 * i], data[2 * i + 1]) as real / 32768.0)
  }

  lemma SamplesSplit(data: seq<Byte>, half: nat)
    requires 2 * half <= |data|
    ensures Samples(data[..2 * half]) == Samples(data)[..half]
    ensures Samples(data[2 * half..]) == Samples(data)[half..]
  {
  }

  /** Bytes in a voice frame: twenty milliseconds of audio, at least one sample of every channel. */
  function FrameBytes(rate: nat, channels: nat): nat {
    var frame := MaxNat(channels, 1) * 2;
    MaxNat((rate as real * 0.02).Floor * frame, frame)
  }

  /** A voice frame is whole rounds of the channels. */
  lemma FrameIsWholeRounds(rate: nat, channels: nat) returns (half: nat)
    ensures FrameBytes(rate, channels) == 2 * half && half > 0 && Lane(half, MaxNat(channels, 1)) == 0
  {
    var c, per := MaxNat(channels, 1), (rate as real * 0.02).Floor;
    half := Times(c, if per > 0 then per else 1);
    LaneOfTimes(c, if per > 0 then per else 1);
    TimesIsProduct(c, if per > 0 then per else 1);
    MulAtLeast(per, c * 2);
  }

  /** The mean square and the seconds of each `bytes`-long frame of a chunk. */
  function ByteLevels(pole: real, st: seq<Slot>, data: seq<Byte>, bytes: nat, perSecond: nat): (r: (seq<Slot>, seq<(real, real)>))
    requires |st| > 0 && bytes >= 2 && perSecond > 0
    ensures |r.0| == |st|
    decreases |data|
  {
    if |data| < 2 then (st, [])
    else
      var cut := if |data| < bytes then |data| else bytes;
      var (mid, ys) := Filtered(pole, st, Samples(data[..cut]));
      var (end, rest) := ByteLevels(pole, mid, data[cut..], bytes, perSecond);
      (end, [(MeanSquare(ys), cut as real / perSecond as real)] + rest)
  }

  function Firsts(levels: seq<(real, real)>): (xs: seq<real>)
    ensures |xs| == |levels|
  {
    seq(|levels|, i requires 0 <= i < |levels| => levels[i].0)
  }

  lemma FirstsOfCons(level: (real, real), rest: seq<(real, real)>)
    ensures Firsts([level] + rest) == [level.0] + Firsts(rest)
  {
  }

  lemma ByteLevelsStep(pole: real, st: seq<Slot>, data: seq<Byte>, half: nat, perSecond: nat)
    requires |st| > 0 && half > 0 && perSecond > 0 && |data| >= 2 * half
    ensures var (mid, ys) := Filtered(pole, st, Samples(data)[..half]);
            var rest := ByteLevels(pole, mid, data[2 * half..], 2 * half, perSecond);
            && ByteLevels(pole, st, data, 2 * half, perSecond).0 == rest.0
            && Firsts(ByteLevels(pole, st, data, 2 * half, perSecond).1) == [MeanSquare(ys)] + Firsts(rest.1)
  {
    SamplesSplit(data, half);
    var (mid, ys) := Filtered(pole, st, Samples(data)[..half]);
    FirstsOfCons((MeanSquare(ys), (2 * half) as real / perSecond as real), ByteLevels(pole, mid, data[2 * half..], 2 * half, perSecond).1);
  }

  lemma ByteLevelsOfShort(pole: real, st: seq<Slot>, data: seq<Byte>, half: nat, perSecond: nat)
    requires |st| > 0 && half > 0 && perSecond > 0 && 2 <= |data| < 2 * half
    ensures ByteLevels(pole, st, data, 2 * half, perSecond).0 == Levels(pole, st, Samples(data), half).0
    ensures Firsts(ByteLevels(pole, st, data, 2 * half, perSecond).1) == Levels(pole, st, Samples(data), half).1
  {
    var xs := Samples(data);
    assert data[..|data|] == data && data[|data|..] == [];
    LevelsStartWithAFrame(pole, st, xs, half, |xs|);
    assert xs[..|xs|] == xs && xs[|xs|..] == [];
  }

  /** A chunk's levels are those of its samples. */
  lemma {:induction false} ByteLevelsAreLevels(pole: real, st: seq<Slot>, data: seq<Byte>, half: nat, perSecond: nat)
    requires |st| > 0 && half > 0 && perSecond > 0
    ensures ByteLevels(pole, st, data, 2 * half, perSecond).0 == Levels(pole, st, Samples(data), half).0
    ensures Firsts(ByteLevels(pole, st, data, 2 * half, perSecond).1) == Levels(pole, st, Samples(data), half).1
    decreases |data|
  {
    if 2 <= |data| < 2 * half {
      ByteLevelsOfShort(pole, st, data, half, perSecond);
    } else if |data| >= 2 {
      var mid := Filtered(pole, st, Samples(data)[..half]).0;
      ByteLevelsStep(pole, st, data, half, perSecond);
      SamplesSplit(data, half);
      ByteLevelsAreLevels(pole, mid, data[2 * half..], half, perSecond);
      LevelsStartWithAFrame(pole, st, Samples(data), half, half);
    }
  }

  /** The filter as the stats tap keeps it: one slot per channel, overwritten in place. */
  class HighPass {
    const pole: real
    const state: array<Slot>

    constructor (pole: real, channels: nat)
      ensures this.pole == pole && fresh(state) && state.Length == MaxNat(channels, 1)
      ensures forall c :: 0 <= c < state.Length ==> state[c].None?
    {
      this.pole := pole;
      this.state := new Slot[MaxNat(channels, 1)](_ => None);
    }

    method Filter(channel: nat, x: real) returns (y: real)
      requires state.Length > 0
      modifies state
      ensures var c := channel % state.Length;
              state[..] == old(state[..])[c := NextSlot(pole, old(state[c]), x)] && y == Output(pole, old(state[c]), x)
    {
      var c := channel % state.Length;
      var (prevIn, prevOut) := if state[c].Some? then state[c].value else (x, 0.0);
      y := pole * (prevOut + x - prevIn);
      assert y == Output(pole, state[c], x);
      state[c] := Some((x, y));
      assert state[..] == old(state[..])[c := Some((x, y))];
    }

    /** One frame's mean square. */
    method FrameLevel(frame: seq<real>) returns (level: real)
      requires state.Length > 0 && frame != []
      modifies state
      ensures state[..] == Filtered(pole, old(state[..]), frame).0
      ensures level == MeanSquare(Filtered(pole, old(state[..]), frame).1)
    {
      var sum := 0.0;
      for i := 0 to |frame|
        invariant state[..] == Filtered(pole, old(state[..]), frame[..i]).0
        invariant sum == Energy(Filtered(pole, old(state[..]), frame[..i]).1)
      {
        assert frame[..i + 1][..i] == frame[..i];
        ghost var ys := Filtered(pole, old(state[..]), frame[..i]).1;
        LaneIsRemainder(i, state.Length);
        var v := Filter(i, frame[i]);
        assert (ys + [v])[..i] == ys;
        sum := sum + v * v;
      }
      assert frame[..|frame|] == frame;
      level := sum / |frame| as real;
    }

    /** `frame_levels`: a chunk cut into voice frames, each with its mean square and its seconds;
        nothing for samples that are not two bytes wide. */
    method FrameLevels(data: seq<Byte>, width: nat, channels: nat, rate: nat, bytesPerSecond: nat)
      returns (levels: seq<(real, real)>)
      requires state.Length == MaxNat(channels, 1)
      modifies state
      ensures width != 2 ==> levels == [] && state[..] == old(state[..])
      ensures FrameBytes(rate, channels) >= 2
      ensures width == 2 ==>
        (state[..], levels)
          == ByteLevels(pole, old(state[..]), data, FrameBytes(rate, channels), MaxNat(bytesPerSecond, 1))
    {
      var bytes, perSecond := FrameBytes(rate, channels), MaxNat(bytesPerSecond, 1);
      var half := FrameIsWholeRounds(rate, channels);
      levels := [];
      if width != 2 {
        return;
      }
      var rest := data;
      ghost var st := state[..];
      ghost var all := ByteLevels(pole, st, data, bytes, perSecond);
      while |rest| >= 2
        invariant st == state[..]
        invariant all.0 == ByteLevels(pole, st, rest, bytes, perSecond).0
        invariant all.1 == levels + ByteLevels(pole, st, rest, bytes, perSecond).1
        decreases |rest|
      {
        var cut := if |rest| < bytes then |rest| else bytes;
        var frame := Samples(rest[..cut]);
        var level := FrameLevel(frame);
        st := state[..];
        Regroup(levels, [(level, cut as real / perSecond as real)], ByteLevels(pole, st, rest[cut..], bytes, perSecond).1);
        levels := levels + [(level, cut as real / perSecond as real)];
        rest := rest[cut..];
      }
      assert levels + [] == levels;
    }
  }
}
