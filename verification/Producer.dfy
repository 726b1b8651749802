/**
 The producer end of a capture: raw audio in any buffer size becomes whole-frame chunks for the
 ring, and its outcome becomes the health and the stream's single fault.
 */
module Producer {
  import opened Prelude
  import opened Capture
  import opened Ring

  // ---------------------------------------------------------------------------------------------
  // Re-chunking

  /** The full chunks of `data`, in order. */
  function Chunks(data: seq<Byte>, size: nat): seq<Chunk>
    requires size > 0
  {
    if |data| < size then [] else [data[..size]] + Chunks(data[size..], size)
  }

  /** What is left once the full chunks are taken. */
  function Rest(data: seq<Byte>, size: nat): (rest: seq<Byte>)
    requires size > 0
    ensures |rest| < size && |rest| <= |data|
  {
    if |data| < size then data else Rest(data[size..], size)
  }

  lemma ConcatFirst(first: Chunk, rest: seq<Chunk>)
    ensures Concat([first] + rest) == first + Concat(rest)
  {
    ConcatPlus([first], rest);
    ConcatAppend([], first);
    assert [] + [first] == [first];
  }

  lemma ChunksStep(first: Chunk, more: seq<Byte>, size: nat)
    requires size > 0 && |first| == size
    ensures Chunks(first + more, size) == [first] + Chunks(more, size)
    ensures Rest(first + more, size) == Rest(more, size)
  {
    assert (first + more)[..size] == first && (first + more)[size..] == more;
  }

  lemma {:induction false} ChunksRejoin(data: seq<Byte>, size: nat)
    requires size > 0
    ensures Concat(Chunks(data, size)) + Rest(data, size) == data
    decreases |data|
  {
    if |data| < size {
      assert Concat(Chunks(data, size)) == [];
    } else {
      var first, more := data[..size], data[size..];
      assert data == first + more;
      ChunksRejoin(more, size);
      ChunksRejoinFirst(first, more, size);
    }
  }

  lemma ChunksRejoinFirst(first: Chunk, more: seq<Byte>, size: nat)
    requires size > 0 && |first| == size && Concat(Chunks(more, size)) + Rest(more, size) == more
    ensures Concat(Chunks(first + more, size)) + Rest(first + more, size) == first + more
  {
    ChunksStep(first, more, size);
    ConcatFirst(first, Chunks(more, size));
    Regroup(first, Concat(Chunks(more, size)), Rest(more, size));
  }

  lemma {:induction false} ChunksAreFull(data: seq<Byte>, size: nat, i: nat)
    requires size > 0 && i < |Chunks(data, size)|
    ensures |Chunks(data, size)[i]| == size
    decreases i
  {
    if i > 0 {
      ChunksAreFull(data[size..], size, i - 1);
    }
  }

  lemma {:induction false} ChunksOfMore(data: seq<Byte>, more: seq<Byte>, size: nat)
    requires size > 0
    ensures Chunks(data + more, size) == Chunks(data, size) + Chunks(Rest(data, size) + more, size)
    ensures Rest(data + more, size) == Rest(Rest(data, size) + more, size)
    decreases |data|
  {
    if |data| >= size {
      ChunksOfMore(data[size..], more, size);
      assert (data + more)[..size] == data[..size];
      assert (data + more)[size..] == data[size..] + more;
    }
  }

  ghost predicate AllFull(chunks: seq<Chunk>, size: nat) {
    forall i :: 0 <= i < |chunks| ==> |chunks[i]| == size
  }

  /** Full chunks rejoined and cut again are the same chunks. */
  lemma {:induction false} FullChunksLead(chunks: seq<Chunk>, more: seq<Byte>, size: nat)
    requires size > 0 && AllFull(chunks, size)
    ensures Chunks(Concat(chunks) + more, size) == chunks + Chunks(more, size)
    ensures Rest(Concat(chunks) + more, size) == Rest(more, size)
    decreases |chunks|
  {
    if chunks == [] {
      assert Concat(chunks) + more == more;
    } else {
      var front, last := chunks[..|chunks| - 1], chunks[|chunks| - 1];
      FullChunksLead(front, last + more, size);
      ChunksStep(last, more, size);
      Regroup(Concat(front), last, more);
      assert chunks == front + [last];
    }
  }

  /** What a producer fed these buffers one by one emits, and what it holds back. */
  function Fed(buffers: seq<seq<Byte>>, size: nat): (seq<Chunk>, seq<Byte>)
    requires size > 0
  {
    if buffers == [] then ([], [])
    else
      var (out, pending) := Fed(buffers[..|buffers| - 1], size);
      var held := pending + buffers[|buffers| - 1];
      (out + Chunks(held, size), Rest(held, size))
  }

  /** The chunks depend only on the audio, never on how the backend split it. */
  lemma {:induction false} SplitIndependent(buffers: seq<seq<Byte>>, size: nat)
    requires size > 0
    ensures Fed(buffers, size) == (Chunks(Concat(buffers), size), Rest(Concat(buffers), size))
    decreases |buffers|
  {
    if buffers != [] {
      var front := buffers[..|buffers| - 1];
      SplitIndependent(front, size);
      ChunksOfMore(Concat(front), buffers[|buffers| - 1], size);
    }
  }

  /** The bytes of `pending` that make whole frames. */
  function Whole(pending: seq<Byte>, frameBytes: nat): (whole: seq<Byte>)
    requires frameBytes > 0
    ensures whole <= pending && |whole| % frameBytes == 0 && |pending| < |whole| + frameBytes
  {
    RoundDown(|pending|, frameBytes);
    pending[..|pending| - |pending| % frameBytes]
  }

  /** Everything a producer that is fed and then concluded hands to the ring. */
  function Emission(audio: seq<Byte>, chunkBytes: nat, frameBytes: nat): seq<Chunk>
    requires chunkBytes > 0 && frameBytes > 0
  {
    var last := Whole(Rest(audio, chunkBytes), frameBytes);
    Chunks(audio, chunkBytes) + if last == [] then [] else [last]
  }

  lemma ConcatWithLast(full: seq<Chunk>, last: Chunk)
    ensures Concat(full + if last == [] then [] else [last]) == Concat(full) + last
  {
    ConcatAppend(full, last);
    assert full + [] == full;
  }

  /** What reaches the ring is the audio less a trailing partial frame. */
  lemma EmissionIsTheAudio(audio: seq<Byte>, chunkBytes: nat, frameBytes: nat)
    requires chunkBytes > 0 && frameBytes > 0
    ensures Concat(Emission(audio, chunkBytes, frameBytes)) <= audio
    ensures |audio| - |Concat(Emission(audio, chunkBytes, frameBytes))| < frameBytes
  {
    ChunksRejoin(audio, chunkBytes);
    ConcatWithLast(Chunks(audio, chunkBytes), Whole(Rest(audio, chunkBytes), frameBytes));
  }

  /** Two ways of splitting the same audio emit the same chunks and hold back the same bytes. */
  lemma SameAudioSameChunks(buffers: seq<seq<Byte>>, others: seq<seq<Byte>>, chunkBytes: nat)
    requires chunkBytes > 0 && Concat(buffers) == Concat(others)
    ensures Fed(buffers, chunkBytes) == Fed(others, chunkBytes)
  {
    SplitIndependent(buffers, chunkBytes);
    SplitIndependent(others, chunkBytes);
  }

  /** Every chunk but the last is full, and every chunk is whole frames. */
  lemma EmissionShape(audio: seq<Byte>, chunkBytes: nat, frameBytes: nat, i: nat)
    requires chunkBytes > 0 && frameBytes > 0 && chunkBytes % frameBytes == 0
    requires i < |Emission(audio, chunkBytes, frameBytes)|
    ensures var out := Emission(audio, chunkBytes, frameBytes);
            && 0 < |out[i]| <= chunkBytes && |out[i]| % frameBytes == 0
            && (i < |out| - 1 ==> |out[i]| == chunkBytes)
  {
    if i < |Chunks(audio, chunkBytes)| {
      ChunksAreFull(audio, chunkBytes, i);
    }
  }

  // ---------------------------------------------------------------------------------------------
  // Sizes

  function BytesIn(bytesPerSecond: nat, seconds: real): nat
    requires seconds >= 0.0
  {
    (MaxNat(bytesPerSecond, 1) as real * seconds).Floor
  }

  /** `capture()`'s sizes: whole-frame chunks of about `chunk` seconds, a bound of about `depth`.
      An empty ring so sized takes any chunk the producer makes. */
  method Sizes(channels: nat, widthBytes: nat, bytesPerSecond: nat, chunk: real, depth: real)
    returns (frameBytes: nat, chunkBytes: nat, maxBytes: nat)
    requires chunk >= 0.0 && depth >= 0.0
    ensures frameBytes == MaxNat(channels * widthBytes, 1)
    ensures chunkBytes >= frameBytes && chunkBytes % frameBytes == 0
    ensures var asked := BytesIn(bytesPerSecond, chunk);
            asked >= frameBytes ==> asked - frameBytes < chunkBytes <= asked
    ensures maxBytes >= chunkBytes && maxBytes >= BytesIn(bytesPerSecond, depth)
    ensures forall r: Inner, c: Chunk ::
      r.maxBytes == New(maxBytes, bytesPerSecond).maxBytes && r.queuedBytes == 0 && !Terminated(r) && |c| <= chunkBytes
      ==> Accepts(r, c)
  {
    frameBytes := MaxNat(channels * widthBytes, 1);
    chunkBytes := BytesIn(bytesPerSecond, chunk);
    RoundDown(chunkBytes, frameBytes);
    chunkBytes := chunkBytes - chunkBytes % frameBytes;
    ModOfMultiple(1, frameBytes);
    chunkBytes := MaxNat(chunkBytes, frameBytes);
    maxBytes := MaxNat(BytesIn(bytesPerSecond, depth), chunkBytes);
  }

  // ---------------------------------------------------------------------------------------------
  // The producer itself

  /** `emit`: one chunk to the ring; an overload it latches is published. */
  function Emitted(r: Inner, h: Health, chunk: Chunk): (Inner, Health) {
    var (pushed, overload) := Pushed(r, chunk);
    (pushed, if overload.Some? then Published(h, Faulted(overload.value)) else h)
  }

  function EmittedAll(r: Inner, h: Health, chunks: seq<Chunk>): (Inner, Health) {
    if chunks == [] then (r, h)
    else
      var (r', h') := EmittedAll(r, h, chunks[..|chunks| - 1]);
      Emitted(r', h', chunks[|chunks| - 1])
  }

  lemma EmittedOneMore(r: Inner, h: Health, chunks: seq<Chunk>, chunk: Chunk)
    ensures EmittedAll(r, h, chunks + [chunk])
         == var (r', h') := EmittedAll(r, h, chunks); Emitted(r', h', chunk)
  {
    assert (chunks + [chunk])[..|chunks|] == chunks;
  }

  lemma {:induction false} EmittedFirst(r: Inner, h: Health, chunk: Chunk, rest: seq<Chunk>)
    ensures EmittedAll(r, h, [chunk] + rest) == var (r', h') := Emitted(r, h, chunk); EmittedAll(r', h', rest)
    decreases |rest|
  {
    if rest == [] {
      assert [chunk] + rest == [chunk];
      EmittedOneMore(r, h, [], chunk);
      assert [] + [chunk] == [chunk];
    } else {
      var front, last := rest[..|rest| - 1], rest[|rest| - 1];
      EmittedFirst(r, h, chunk, front);
      EmittedOneMore(r, h, [chunk] + front, last);
      assert [chunk] + rest == ([chunk] + front) + [last];
    }
  }

  /** The terminal health of an outcome: an abandoned capture ends, whatever went wrong. */
  function Outcome(closed: bool, fault: Option<CaptureError>): Health {
    if fault.Some? && !closed then Faulted(fault.value) else Ended
  }

  class Producer {
    const ring: Ring
    const chunkBytes: nat
    const frameBytes: nat
    var health: Health
    var concluded: bool
    var pending: seq<Byte>

    ghost predicate Valid()
      reads this
    {
      chunkBytes > 0 && frameBytes > 0 && |pending| < chunkBytes
    }

    constructor (ring: Ring, chunkBytes: nat, frameBytes: nat)
      requires chunkBytes > 0 && frameBytes > 0
      ensures Valid() && this.ring == ring && this.chunkBytes == chunkBytes && this.frameBytes == frameBytes
      ensures health == Opening && !concluded && pending == []
    {
      this.ring, this.chunkBytes, this.frameBytes := ring, chunkBytes, frameBytes;
      health, concluded, pending := Opening, false, [];
    }

    method Publish(next: Health)
      modifies this`health
      ensures health == Published(old(health), next)
    {
      if !(health.Faulted? || health.Ended?) && health != next {
        health := next;
      }
    }

    method Emit(chunk: Chunk)
      modifies this`health, ring
      ensures (ring.View(), health) == Emitted(old(ring.View()), old(health), chunk)
    {
      var overload := ring.Push(chunk);
      if overload.Some? {
        Publish(Faulted(overload.value));
      }
    }

    /** Deliver raw audio: its full chunks go to the ring, the rest is held back. */
    method Push(data: seq<Byte>) returns (wanted: bool)
      requires Valid()
      modifies this`health, this`pending, ring
      ensures Valid()
      ensures old(Terminated(ring.View())) ==>
        !wanted && pending == old(pending) && health == old(health) && ring.View() == old(ring.View())
      ensures !old(Terminated(ring.View())) ==>
        && pending == Rest(old(pending) + data, chunkBytes)
        && (ring.View(), health) == EmittedAll(old(ring.View()),
                                               if data == [] then old(health) else Published(old(health), Capturing),
                                               Chunks(old(pending) + data, chunkBytes))
        && wanted == !Terminated(ring.View())
    {
      var over := ring.IsTerminated();
      if over {
        return false;
      }
      if data != [] {
        Publish(Capturing);
      }
      pending := pending + data;
      ghost var all, r0, h0, out := pending, ring.View(), health, [];
      while |pending| >= chunkBytes
        invariant Chunks(all, chunkBytes) == out + Chunks(pending, chunkBytes)
        invariant Rest(all, chunkBytes) == Rest(pending, chunkBytes)
        invariant (ring.View(), health) == EmittedAll(r0, h0, out)
        decreases |pending|
      {
        var chunk := pending[..chunkBytes];
        ghost var later := Chunks(pending[chunkBytes..], chunkBytes);
        assert Chunks(all, chunkBytes) == (out + [chunk]) + later;
        EmittedOneMore(r0, h0, out, chunk);
        pending := pending[chunkBytes..];
        out := out + [chunk];
        Emit(chunk);
      }
      assert out + [] == out;
      over := ring.IsTerminated();
      wanted := !over;
    }

    /** `finish`, and a drop without one: flush the whole frames, publish the outcome once, end the
        stream with it. */
    method Conclude(fault: Option<CaptureError>)
      requires Valid()
      modifies this, ring
      ensures Valid() && concluded
      ensures old(concluded) ==> health == old(health) && pending == old(pending) && ring.View() == old(ring.View())
      ensures !old(concluded) ==>
        var whole := Whole(old(pending), frameBytes);
        var (r, h) := if whole == [] then (old(ring.View()), old(health))
                      else Emitted(old(ring.View()), old(health), whole);
        && pending == old(pending)[|whole|..] && |pending| < frameBytes
        && health == Published(h, Outcome(r.closed, fault))
        && ring.View() == Finished(r, fault)
    {
      if concluded {
        return;
      }
      concluded := true;
      var whole := Whole(pending, frameBytes);
      if |whole| > 0 {
        pending := pending[|whole|..];
        Emit(whole);
      }
      Publish(Outcome(ring.closed, fault));
      ring.Finish(fault);
    }
  }
}
