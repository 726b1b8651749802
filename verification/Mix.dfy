/** Stream buffers into capture audio: channels passed through, or picked and averaged. */
module Mix {
  import opened Prelude

  datatype Mix =
    | Passthrough(frameBytes: nat)
    | Select(inChannels: nat, buckets: seq<seq<nat>>)

  ghost predicate Valid(m: Mix) {
    match m
    case Passthrough(frameBytes) => frameBytes > 0
    case Select(inChannels, buckets) => inChannels > 0 && buckets != []
  }

  /** The selected channels that land in output channel `b` of `out`, in order. */
  function Dealt(selected: seq<nat>, out: nat, b: nat): seq<nat>
    requires b < out
  {
    if selected == [] then []
    else
      var n := |selected| - 1;
      Dealt(selected[..n], out, b) + if n % out == b then [selected[n]] else []
  }

  /** Deal the selected channels round-robin over the output channels. */
  method ChannelBuckets(selected: seq<nat>, out: nat) returns (buckets: seq<seq<nat>>)
    requires out > 0
    ensures |buckets| == out
    ensures forall b :: 0 <= b < out ==> buckets[b] == Dealt(selected, out, b)
  {
    buckets := seq(out, _ => []);
    for n := 0 to |selected|
      invariant |buckets| == out
      invariant forall b :: 0 <= b < out ==> buckets[b] == Dealt(selected[..n], out, b)
    {
      assert selected[..n + 1][..n] == selected[..n];
      buckets := buckets[n % out := buckets[n % out] + [selected[n]]];
    }
    assert selected[..|selected|] == selected;
  }

  /** `Mix::new`: pick and downmix with a usable selection, else pass the stream through. */
  method NewMix(selection: Option<seq<nat>>, inChannels: nat, out: nat) returns (m: Mix)
    ensures Valid(m)
    ensures m.Select? <==> selection.Some? && selection.value != [] && out > 0
    ensures m.Select? ==>
      && m.inChannels == MaxNat(inChannels, 1) && |m.buckets| == out
      && forall b :: 0 <= b < out ==> m.buckets[b] == Dealt(selection.value, out, b)
    ensures m.Passthrough? ==> m.frameBytes == MaxNat(inChannels, 1) * 2
  {
    if selection.Some? && selection.value != [] && out > 0 {
      var buckets := ChannelBuckets(selection.value, out);
      m := Select(MaxNat(inChannels, 1), buckets);
    } else {
      m := Passthrough(MaxNat(inChannels, 1) * 2);
    }
  }

  /** How many frames of the stream a buffer holds, a partial one at its end not counted. */
  function Frames(m: Mix, samples: seq<Byte>): nat
    requires Valid(m)
  {
    match m
    case Passthrough(frameBytes) => WholeIn(|samples|, frameBytes)
    case Select(inChannels, _) => WholeIn(|samples|, inChannels * 2)
  }

  // ---------------------------------------------------------------------------------------------
  // Downmixing

  type Sample = v: int | -32768 <= v <= 32767

  function Decode(lo: Byte, hi: Byte): Sample {
    var u := lo + 256 * hi;
    if u >= 32768 then u - 65536 else u
  }

  function Encode(v: Sample): (bytes: seq<Byte>)
    ensures |bytes| == 2 && Decode(bytes[0], bytes[1]) == v
  {
    var u := if v < 0 then v + 65536 else v;
    [u % 256, u / 256]
  }

  /** Integer division that truncates toward zero. */
  function Truncated(sum: int, count: nat): int
    requires count > 0
  {
    if sum >= 0 then sum / count else -((-sum) / count)
  }

  lemma TruncatedInHull(sum: int, count: nat, lo: int, hi: int)
    requires count > 0 && lo * count <= sum <= hi * count
    ensures lo <= Truncated(sum, count) <= hi
  {
    var q := Truncated(sum, count);
    var m := if sum >= 0 then sum % count else (-sum) % count;
    assert sum >= 0 ==> sum == q * count + m;
    assert sum < 0 ==> sum == q * count - m;
    MulAtLeast(lo - q, count);
    MulAtLeast(q - hi, count);
    assert (lo - q) * count == lo * count - q * count;
    assert (q - hi) * count == q * count - hi * count;
  }

  /** Sum and number of the samples a bucket picks from one frame; it picks none for a channel the
      stream does not have. */
  function Gathered(frame: seq<Byte>, inChannels: nat, bucket: seq<nat>): (r: (int, nat))
    requires |frame| == inChannels * 2
    ensures -32768 * r.1 <= r.0 <= 32767 * r.1
  {
    if bucket == [] then (0, 0)
    else
      var (sum, count) := Gathered(frame, inChannels, bucket[..|bucket| - 1]);
      var ch := bucket[|bucket| - 1];
      if ch < inChannels then (sum + Decode(frame[2 * ch], frame[2 * ch + 1]), count + 1) else (sum, count)
  }

  /** One output sample: the average, which always fits a sample, or silence. */
  function Mixdown(frame: seq<Byte>, inChannels: nat, bucket: seq<nat>): (v: Sample)
    requires |frame| == inChannels * 2
  {
    var (sum, count) := Gathered(frame, inChannels, bucket);
    if count > 0 then (TruncatedInHull(sum, count, -32768, 32767); Truncated(sum, count)) else 0
  }

  function FrameMix(frame: seq<Byte>, inChannels: nat, buckets: seq<seq<nat>>): (out: seq<Byte>)
    requires |frame| == inChannels * 2
    ensures |out| == 2 * |buckets|
  {
    if buckets == [] then []
    else FrameMix(frame, inChannels, buckets[..|buckets| - 1])
         + Encode(Mixdown(frame, inChannels, buckets[|buckets| - 1]))
  }

  /** Output channel `b` of a frame carries exactly its bucket's mix. */
  lemma {:induction false} FrameMixAt(frame: seq<Byte>, inChannels: nat, buckets: seq<seq<nat>>, b: nat)
    requires |frame| == inChannels * 2 && b < |buckets|
    ensures var out := FrameMix(frame, inChannels, buckets);
            Decode(out[2 * b], out[2 * b + 1]) == Mixdown(frame, inChannels, buckets[b])
    decreases |buckets|
  {
    if b < |buckets| - 1 {
      FrameMixAt(frame, inChannels, buckets[..|buckets| - 1], b);
    }
  }

  /** Every whole frame mixed, a trailing partial one dropped. */
  function Downmix(data: seq<Byte>, inChannels: nat, buckets: seq<seq<nat>>): seq<Byte>
    requires inChannels > 0
  {
    var width := inChannels * 2;
    if |data| < width then []
    else FrameMix(data[..width], inChannels, buckets) + Downmix(data[width..], inChannels, buckets)
  }

  lemma {:induction false} DownmixLength(data: seq<Byte>, inChannels: nat, buckets: seq<seq<nat>>)
    requires inChannels > 0
    ensures |Downmix(data, inChannels, buckets)| == Times(2 * |buckets|, WholeIn(|data|, inChannels * 2))
    decreases |data|
  {
    var width := inChannels * 2;
    WholeInStep(|data|, width);
    if |data| >= width {
      DownmixLength(data[width..], inChannels, buckets);
      TimesStep(2 * |buckets|, WholeIn(|data| - width, width));
    }
  }

  /** The bytes of input frame `k`. */
  function FrameOf(data: seq<Byte>, inChannels: nat, k: nat): (frame: seq<Byte>)
    requires inChannels > 0 && Times(inChannels * 2, k) + inChannels * 2 <= |data|
    ensures |frame| == inChannels * 2
  {
    data[Times(inChannels * 2, k)..][..inChannels * 2]
  }

  lemma FrameOfTail(data: seq<Byte>, inChannels: nat, k: nat)
    requires inChannels > 0 && k > 0 && Times(inChannels * 2, k) + inChannels * 2 <= |data|
    ensures FrameOf(data, inChannels, k) == FrameOf(data[inChannels * 2..], inChannels, k - 1)
  {
    DropTwice(data, inChannels * 2, Times(inChannels * 2, k - 1));
  }

  /** The bytes of output frame `k`, of `channels` channels. */
  ghost predicate IsFrame(out: seq<Byte>, channels: nat, k: nat, frame: seq<Byte>) {
    Times(2 * channels, k) + 2 * channels <= |out| && out[Times(2 * channels, k)..][..2 * channels] == frame
  }

  lemma LaterFrame(first: seq<Byte>, rest: seq<Byte>, channels: nat, k: nat, frame: seq<Byte>)
    requires |first| == 2 * channels && k > 0 && IsFrame(rest, channels, k - 1, frame)
    ensures IsFrame(first + rest, channels, k, frame)
  {
    DropPast(first, rest, Times(2 * channels, k - 1));
  }

  lemma FirstFrame(first: seq<Byte>, rest: seq<Byte>, channels: nat)
    requires |first| == 2 * channels
    ensures IsFrame(first + rest, channels, 0, first)
  {
    assert (first + rest)[0..] == first + rest;
  }

  /** Output frame `k` of a buffer is input frame `k` mixed. */
  lemma {:induction false} DownmixFrameAt(data: seq<Byte>, inChannels: nat, buckets: seq<seq<nat>>, k: nat)
    requires inChannels > 0 && Times(inChannels * 2, k) + inChannels * 2 <= |data|
    ensures IsFrame(Downmix(data, inChannels, buckets), |buckets|, k, FrameMix(FrameOf(data, inChannels, k), inChannels, buckets))
    decreases k
  {
    var tail := data[inChannels * 2..];
    var first, rest := FrameMix(data[..inChannels * 2], inChannels, buckets), Downmix(tail, inChannels, buckets);
    if k == 0 {
      assert data[0..] == data;
      FirstFrame(first, rest, |buckets|);
    } else {
      DownmixFrameAt(tail, inChannels, buckets, k - 1);
      FrameOfTail(data, inChannels, k);
      LaterFrame(first, rest, |buckets|, k, FrameMix(FrameOf(data, inChannels, k), inChannels, buckets));
    }
  }

  // ---------------------------------------------------------------------------------------------
  // What the downmix is, on bytes

  /** Two bytes, low first, are a sixteen-bit number in two's complement. */
  lemma DecodeIsLittleEndian(lo: Byte, hi: Byte)
    ensures (lo + 256 * hi - Decode(lo, hi)) % 65536 == 0
    ensures Encode(Decode(lo, hi)) == [lo, hi]
  {
  }

  /** How many of the bucket's channels the stream has. */
  function Present(inChannels: nat, bucket: seq<nat>): nat {
    if bucket == [] then 0 else (if bucket[0] < inChannels then 1 else 0) + Present(inChannels, bucket[1..])
  }

  /** The sum of their samples in one frame, read as sixteen-bit numbers low byte first. */
  function SampleSum(frame: seq<Byte>, inChannels: nat, bucket: seq<nat>): int
    requires |frame| == inChannels * 2
  {
    if bucket == [] then 0
    else
      var ch := bucket[0];
      (if ch < inChannels then Signed(frame[2 * ch], frame[2 * ch + 1]) else 0)
        + SampleSum(frame, inChannels, bucket[1..])
  }

  function Signed(low: Byte, high: Byte): int {
    if high < 128 then low as int + 256 * (high as int) else low as int + 256 * (high as int - 256)
  }

  lemma SignedIsDecode(low: Byte, high: Byte)
    ensures Signed(low, high) == Decode(low, high)
  {
  }

  lemma {:induction false} SumAppend(frame: seq<Byte>, inChannels: nat, bucket: seq<nat>, ch: nat)
    requires |frame| == inChannels * 2
    ensures SampleSum(frame, inChannels, bucket + [ch]) == SampleSum(frame, inChannels, bucket) + SampleSum(frame, inChannels, [ch])
    ensures Present(inChannels, bucket + [ch]) == Present(inChannels, bucket) + Present(inChannels, [ch])
    decreases |bucket|
  {
    if bucket == [] {
      assert bucket + [ch] == [ch];
    } else {
      SumAppend(frame, inChannels, bucket[1..], ch);
      assert (bucket + [ch])[1..] == bucket[1..] + [ch];
    }
  }

  lemma {:induction false} GatheredIsSum(frame: seq<Byte>, inChannels: nat, bucket: seq<nat>)
    requires |frame| == inChannels * 2
    ensures Gathered(frame, inChannels, bucket) == (SampleSum(frame, inChannels, bucket), Present(inChannels, bucket))
    decreases |bucket|
  {
    if bucket != [] {
      var front, ch := bucket[..|bucket| - 1], bucket[|bucket| - 1];
      GatheredIsSum(frame, inChannels, front);
      SumAppend(frame, inChannels, front, ch);
      assert bucket == front + [ch];
    }
  }

  /** `q` is `sum` over `count`, rounded toward zero. */
  predicate RoundsTowardZero(q: int, sum: int, count: nat) {
    if sum >= 0 then 0 <= q && q * count <= sum < q * count + count
    else q <= 0 && q * count - count < sum <= q * count
  }

  lemma TruncatedRounds(sum: int, count: nat)
    requires count > 0
    ensures RoundsTowardZero(Truncated(sum, count), sum, count)
  {
    var x := if sum >= 0 then sum else -sum;
    var q, m := x / count, x % count;
    assert x == q * count + m;
    Quotient(x, count);
    assert (-q) * count == -(q * count);
  }

  /** `q` is the average of the samples of the bucket's channels, and silence if it has none. */
  predicate Averages(q: int, frame: seq<Byte>, inChannels: nat, bucket: seq<nat>)
    requires |frame| == inChannels * 2
  {
    var count := Present(inChannels, bucket);
    if count == 0 then q == 0 else RoundsTowardZero(q, SampleSum(frame, inChannels, bucket), count)
  }

  lemma MixdownAverages(frame: seq<Byte>, inChannels: nat, bucket: seq<nat>)
    requires |frame| == inChannels * 2
    ensures Averages(Mixdown(frame, inChannels, bucket), frame, inChannels, bucket)
  {
    GatheredIsSum(frame, inChannels, bucket);
    if Present(inChannels, bucket) > 0 {
      TruncatedRounds(SampleSum(frame, inChannels, bucket), Present(inChannels, bucket));
    }
  }

  lemma FrameAverages(frame: seq<Byte>, inChannels: nat, buckets: seq<seq<nat>>, b: nat)
    requires |frame| == inChannels * 2 && b < |buckets|
    ensures var out := FrameMix(frame, inChannels, buckets);
            Averages(Signed(out[2 * b], out[2 * b + 1]), frame, inChannels, buckets[b])
  {
    var out := FrameMix(frame, inChannels, buckets);
    FrameMixAt(frame, inChannels, buckets, b);
    MixdownAverages(frame, inChannels, buckets[b]);
    SignedIsDecode(out[2 * b], out[2 * b + 1]);
  }

  /** On bytes: in output frame `k`, output channel `b` is, low byte first, the average of the samples of
      its bucket's channels in input frame `k`, rounded toward zero. */
  lemma DownmixAverages(data: seq<Byte>, inChannels: nat, buckets: seq<seq<nat>>, k: nat, b: nat) returns (out: seq<Byte>)
    requires inChannels > 0 && Times(inChannels * 2, k) + inChannels * 2 <= |data| && b < |buckets|
    ensures IsFrame(Downmix(data, inChannels, buckets), |buckets|, k, out) && |out| == 2 * |buckets|
    ensures Averages(Signed(out[2 * b], out[2 * b + 1]), FrameOf(data, inChannels, k), inChannels, buckets[b])
  {
    out := FrameMix(FrameOf(data, inChannels, k), inChannels, buckets);
    DownmixFrameAt(data, inChannels, buckets, k);
    FrameAverages(FrameOf(data, inChannels, k), inChannels, buckets, b);
  }

  lemma SingleMix(frame: seq<Byte>, inChannels: nat, ch: nat)
    requires |frame| == inChannels * 2 && ch < inChannels
    ensures Encode(Mixdown(frame, inChannels, [ch])) == [frame[2 * ch], frame[2 * ch + 1]]
  {
    GatheredIsSum(frame, inChannels, [ch]);
    DecodeIsLittleEndian(frame[2 * ch], frame[2 * ch + 1]);
  }

  lemma SingleInFrame(frame: seq<Byte>, inChannels: nat, buckets: seq<seq<nat>>, b: nat, ch: nat)
    requires |frame| == inChannels * 2 && b < |buckets| && buckets[b] == [ch] && ch < inChannels
    ensures var out := FrameMix(frame, inChannels, buckets);
            out[2 * b] == frame[2 * ch] && out[2 * b + 1] == frame[2 * ch + 1]
  {
    var out := FrameMix(frame, inChannels, buckets);
    FrameMixAt(frame, inChannels, buckets, b);
    SingleMix(frame, inChannels, ch);
    DecodeIsLittleEndian(out[2 * b], out[2 * b + 1]);
  }

  /** An output channel dealt one channel of the stream copies its two bytes in every frame. */
  lemma SingleChannelIsCopied(data: seq<Byte>, inChannels: nat, buckets: seq<seq<nat>>, k: nat, b: nat, ch: nat) returns (out: seq<Byte>)
    requires inChannels > 0 && Times(inChannels * 2, k) + inChannels * 2 <= |data| && b < |buckets|
    requires buckets[b] == [ch] && ch < inChannels
    ensures IsFrame(Downmix(data, inChannels, buckets), |buckets|, k, out) && |out| == 2 * |buckets|
    ensures var frame := FrameOf(data, inChannels, k); out[2 * b] == frame[2 * ch] && out[2 * b + 1] == frame[2 * ch + 1]
  {
    out := FrameMix(FrameOf(data, inChannels, k), inChannels, buckets);
    DownmixFrameAt(data, inChannels, buckets, k);
    SingleInFrame(FrameOf(data, inChannels, k), inChannels, buckets, b, ch);
  }

  /** Every channel to its own output. */
  function Identity(channels: nat): (buckets: seq<seq<nat>>)
    ensures |buckets| == channels && forall b :: 0 <= b < channels ==> buckets[b] == [b]
  {
    seq(channels, b requires 0 <= b < channels => [b])
  }

  lemma FrameMixLast(frame: seq<Byte>, inChannels: nat, buckets: seq<seq<nat>>, bucket: seq<nat>)
    requires |frame| == inChannels * 2
    ensures FrameMix(frame, inChannels, buckets + [bucket])
         == FrameMix(frame, inChannels, buckets) + Encode(Mixdown(frame, inChannels, bucket))
  {
    assert (buckets + [bucket])[..|buckets|] == buckets;
  }

  lemma TwoMore(s: seq<Byte>, n: nat)
    requires n + 2 <= |s|
    ensures s[..n] + [s[n], s[n + 1]] == s[..n + 2]
  {
  }

  lemma {:induction false} IdentityFrame(frame: seq<Byte>, inChannels: nat, n: nat)
    requires |frame| == inChannels * 2 && n <= inChannels
    ensures FrameMix(frame, inChannels, Identity(n)) == frame[..2 * n]
  {
    if n > 0 {
      IdentityFrame(frame, inChannels, n - 1);
      assert Identity(n) == Identity(n - 1) + [[n - 1]];
      FrameMixLast(frame, inChannels, Identity(n - 1), [n - 1]);
      SingleMix(frame, inChannels, n - 1);
      TwoMore(frame, 2 * (n - 1));
    }
  }

  lemma IdentityStep(data: seq<Byte>, inChannels: nat)
    requires 0 < inChannels && inChannels * 2 <= |data|
    ensures Downmix(data, inChannels, Identity(inChannels))
         == data[..inChannels * 2] + Downmix(data[inChannels * 2..], inChannels, Identity(inChannels))
  {
    IdentityFrame(data[..inChannels * 2], inChannels, inChannels);
    assert data[..inChannels * 2][..2 * inChannels] == data[..inChannels * 2];
  }

  /** The identity selection passes every whole frame through unchanged. */
  lemma {:induction false} IdentityKeepsEveryFrame(data: seq<Byte>, inChannels: nat)
    requires inChannels > 0
    ensures Downmix(data, inChannels, Identity(inChannels)) <= data
    ensures |data| - |Downmix(data, inChannels, Identity(inChannels))| < inChannels * 2
    decreases |data|
  {
    var width := inChannels * 2;
    if |data| >= width {
      IdentityStep(data, inChannels);
      IdentityKeepsEveryFrame(data[width..], inChannels);
      assert data == data[..width] + data[width..];
    }
  }

  /** The channels in order, dealt over as many outputs, are the identity. */
  lemma {:induction false} InOrderIsDealtAsIdentity(n: nat, out: nat, b: nat)
    requires n <= out && b < out
    ensures Dealt(seq(n, i => i), out, b) == if b < n then [b] else []
  {
    if n > 0 {
      InOrderIsDealtAsIdentity(n - 1, out, b);
      assert seq(n, i => i)[..n - 1] == seq(n - 1, i => i);
      Small(n - 1, out);
    }
  }

  lemma Small(n: nat, d: nat)
    requires n < d
    ensures n % d == n
  {
  }

  // ---------------------------------------------------------------------------------------------
  // Buffers

  /** What a buffer becomes. */
  function Mixed(m: Mix, samples: seq<Byte>): seq<Byte>
    requires Valid(m)
  {
    match m
    case Passthrough(_) => samples
    case Select(inChannels, buckets) => Downmix(samples, inChannels, buckets)
  }

  /** The room `deliver` asks the realtime ring for. */
  function Reserved(m: Mix, samples: seq<Byte>): nat
    requires Valid(m)
  {
    match m
    case Passthrough(_) => |samples|
    case Select(_, buckets) => Times(2 * |buckets|, Frames(m, samples))
  }

  /** A mixed buffer is exactly as long as the room asked for it, so none is ever split. */
  lemma MixedFillsReservation(m: Mix, samples: seq<Byte>)
    requires Valid(m)
    ensures |Mixed(m, samples)| == Reserved(m, samples)
  {
    match m
    case Passthrough(_) =>
    case Select(inChannels, buckets) => DownmixLength(samples, inChannels, buckets);
  }

  /** Bytes in a frame of capture audio. */
  function Width(m: Mix): (width: nat)
    requires Valid(m)
    ensures width > 0
  {
    match m
    case Passthrough(frameBytes) => frameBytes
    case Select(_, buckets) => 2 * |buckets|
  }

  /** Frames of capture audio in a mixed buffer. */
  function FramesOut(m: Mix, mixed: seq<Byte>): nat
    requires Valid(m)
  {
    WholeIn(|mixed|, Width(m))
  }

  /** Mixing keeps the frame count, so what the account is told can be counted in the audio. */
  lemma MixedKeepsFrames(m: Mix, samples: seq<Byte>)
    requires Valid(m)
    ensures FramesOut(m, Mixed(m, samples)) == Frames(m, samples)
  {
    match m
    case Passthrough(_) =>
    case Select(inChannels, buckets) =>
      DownmixLength(samples, inChannels, buckets);
      WholeInTimes(2 * |buckets|, Frames(m, samples));
  }
}
