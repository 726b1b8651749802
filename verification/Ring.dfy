/**
 The bounded capture buffer between producer and consumer. It never drops: past its bound it
 latches a fault that the consumer receives once, after everything queued.
 */
module Ring {
  import opened Prelude
  import opened Capture

  datatype Inner = Inner(
    queue: seq<Chunk>,
    queuedBytes: nat,
    maxBytes: nat,
    peakBytes: nat,
    bytesPerSecond: nat,
    done: bool,
    fault: Option<CaptureError>,
    closed: bool)

  /** What one poll of the stream yields; `Pending` is the consumer left waiting. */
  datatype Item = Audio(chunk: Chunk) | Err(error: CaptureError) | End | Pending

  function New(maxBytes: nat, bytesPerSecond: nat): Inner {
    Inner([], 0, MaxNat(maxBytes, 1), 0, bytesPerSecond, false, None, false)
  }

  predicate Terminated(r: Inner) {
    r.closed || r.done
  }

  /** A push that is enqueued, rather than refused or overloading. */
  predicate Accepts(r: Inner, chunk: Chunk) {
    !Terminated(r) && r.queuedBytes + |chunk| <= r.maxBytes
  }

  function Overload(r: Inner): CaptureError {
    Overloaded(r.peakBytes as real / MaxNat(r.bytesPerSecond, 1) as real)
  }

  function Pushed(r: Inner, chunk: Chunk): (Inner, Option<CaptureError>) {
    if Terminated(r) then (r, None)
    else if !Accepts(r, chunk) then (r.(done := true, fault := Some(Overload(r))), Some(Overload(r)))
    else
      var queued := r.queuedBytes + |chunk|;
      (r.(queue := r.queue + [chunk], queuedBytes := queued, peakBytes := MaxNat(r.peakBytes, queued)), None)
  }

  function Finished(r: Inner, fault: Option<CaptureError>): Inner {
    if r.done then r
    else if r.closed then r.(done := true)
    else r.(done := true, fault := fault)
  }

  function Polled(r: Inner): (Inner, Item)
    requires r.queuedBytes == Total(r.queue)
  {
    if r.queue != [] then
      TotalTail(r.queue);
      (r.(queue := r.queue[1..], queuedBytes := r.queuedBytes - |r.queue[0]|), Audio(r.queue[0]))
    else if r.fault.Some? then (r.(fault := None), Err(r.fault.value))
    else (r, if r.done || r.closed then End else Pending)
  }

  function Closed(r: Inner): Inner {
    r.(closed := true, queue := [], queuedBytes := 0, fault := None)
  }

  // ---------------------------------------------------------------------------------------------
  // Every history of the ring

  datatype Op = Push(chunk: Chunk) | Finish(fault: Option<CaptureError>) | Next | Close

  /** The ring with its history: what was pushed, what of that was enqueued, the fault it came to
      hold, and what the consumer received. */
  datatype History = History(
    ring: Inner,
    pushed: seq<Chunk>,
    accepted: seq<Chunk>,
    raised: Option<CaptureError>,
    items: seq<Item>)

  function Blank(maxBytes: nat, bytesPerSecond: nat): History {
    History(New(maxBytes, bytesPerSecond), [], [], None, [])
  }

  /** The audio among the items, in order. */
  function Received(items: seq<Item>): seq<Chunk> {
    if items == [] then []
    else
      var last := items[|items| - 1];
      Received(items[..|items| - 1]) + if last.Audio? then [last.chunk] else []
  }

  lemma ReceivedAppend(items: seq<Item>, item: Item)
    ensures Received(items + [item]) == Received(items) + if item.Audio? then [item.chunk] else []
  {
    assert (items + [item])[..|items|] == items;
  }

  function Applied(h: History, op: Op): History
    requires h.ring.queuedBytes == Total(h.ring.queue)
  {
    var r := h.ring;
    match op
    case Push(c) =>
      h.(ring := Pushed(r, c).0, pushed := h.pushed + [c],
         accepted := h.accepted + if Accepts(r, c) then [c] else [],
         raised := if Terminated(r) || Accepts(r, c) then h.raised else Some(Overload(r)))
    case Finish(f) =>
      h.(ring := Finished(r, f), raised := if Terminated(r) then h.raised else f)
    case Next =>
      h.(ring := Polled(r).0, items := h.items + [Polled(r).1])
    case Close =>
      h.(ring := Closed(r))
  }

  /** Once the stream has faulted or ended, only its end remains. */
  ghost predicate StreamShaped(items: seq<Item>) {
    forall i, j :: 0 <= i < j < |items| && (items[i].Err? || items[i].End?) ==> items[j].End?
  }

  ghost predicate Over(items: seq<Item>) {
    exists i :: 0 <= i < |items| && (items[i].Err? || items[i].End?)
  }

  ghost predicate Accounted(r: Inner) {
    && r.queuedBytes == Total(r.queue) <= r.maxBytes
    && r.queuedBytes <= r.peakBytes <= r.maxBytes
    && 1 <= r.maxBytes
  }

  /** What every history of the ring keeps. */
  ghost predicate Kept(h: History) {
    && Accounted(h.ring)
    // Accepted audio is a prefix of what was pushed: a refusal is final.
    && h.accepted <= h.pushed
    && (!Terminated(h.ring) ==> h.accepted == h.pushed)
    // It comes out in order, and all of it unless the consumer abandons it.
    && Received(h.items) <= h.accepted
    && (!h.ring.closed ==> h.accepted == Received(h.items) + h.ring.queue)
    // Chunks, then at most one fault, then the end for good.
    && StreamShaped(h.items)
    && (Over(h.items) ==> h.ring.queue == [] && h.ring.fault == None && Terminated(h.ring))
    // The one fault is the one raised, and it is never swallowed.
    && (h.raised.Some? ==> h.ring.done)
    && (h.ring.closed ==> h.ring.queue == [] && h.ring.fault == None)
    && (forall i :: 0 <= i < |h.items| && h.items[i].Err? ==> h.raised == Some(h.items[i].error))
    && (h.ring.fault.Some? ==> h.raised == h.ring.fault)
    && (!h.ring.closed && h.raised.Some? && h.ring.fault.None? ==> Err(h.raised.value) in h.items)
  }

  lemma BlankKept(maxBytes: nat, bytesPerSecond: nat)
    ensures Kept(Blank(maxBytes, bytesPerSecond))
  {
  }

  lemma PushKeeps(h: History, c: Chunk)
    requires Kept(h)
    ensures Kept(Applied(h, Push(c)))
  {
    TotalAppend(h.ring.queue, c);
  }

  /** One more item is no new fault or end but itself. */
  lemma OverAppend(items: seq<Item>, item: Item)
    ensures Over(items + [item]) <==> Over(items) || item.Err? || item.End?
  {
    var after := items + [item];
    assert after[|items|] == item;
    assert forall i :: 0 <= i < |items| ==> after[i] == items[i];
  }

  lemma NextAudioKeeps(h: History)
    requires Kept(h) && h.ring.queue != []
    ensures Kept(Applied(h, Next))
  {
    var q := h.ring.queue;
    ReceivedAppend(h.items, Audio(q[0]));
    OverAppend(h.items, Audio(q[0]));
    TotalTail(q);
    assert Received(h.items) + q == (Received(h.items) + [q[0]]) + q[1..];
  }

  lemma NextDrainedKeeps(h: History)
    requires Kept(h) && h.ring.queue == []
    ensures Kept(Applied(h, Next))
  {
    var item := Polled(h.ring).1;
    ReceivedAppend(h.items, item);
    OverAppend(h.items, item);
    assert (h.items + [item])[|h.items|] == item;
  }

  lemma NextKeeps(h: History)
    requires Kept(h)
    ensures Kept(Applied(h, Next))
  {
    if h.ring.queue != [] {
      NextAudioKeeps(h);
    } else {
      NextDrainedKeeps(h);
    }
  }

  lemma StepKeeps(h: History, op: Op)
    requires Kept(h)
    ensures Kept(Applied(h, op))
  {
    match op
    case Push(c) => PushKeeps(h, c);
    case Next => NextKeeps(h);
    case Finish(f) =>
    case Close =>
  }

  ghost function After(maxBytes: nat, bytesPerSecond: nat, ops: seq<Op>): (h: History)
    ensures Kept(h)
  {
    if ops == [] then Blank(maxBytes, bytesPerSecond)
    else
      var h := After(maxBytes, bytesPerSecond, ops[..|ops| - 1]);
      StepKeeps(h, ops[|ops| - 1]);
      Applied(h, ops[|ops| - 1])
  }

  /** For every sequence of operations: the accounting is exact and bounded, the stream is chunks,
      then at most one fault, then the end, and a consumer that stayed to the end received every
      accepted chunk and the raised fault, or neither was there. */
  lemma EveryHistory(maxBytes: nat, bytesPerSecond: nat, ops: seq<Op>)
    ensures var h := After(maxBytes, bytesPerSecond, ops);
            && h.ring.queuedBytes == Total(h.ring.queue) <= h.ring.maxBytes
            && Received(h.items) <= h.accepted <= h.pushed
            && StreamShaped(h.items)
            && (!h.ring.closed && End in h.items ==>
                  && Received(h.items) == h.accepted
                  && (forall e :: Err(e) in h.items <==> h.raised == Some(e)))
  {
    var h := After(maxBytes, bytesPerSecond, ops);
    if !h.ring.closed && End in h.items {
      var i :| 0 <= i < |h.items| && h.items[i] == End;
      assert Over(h.items);
      assert Received(h.items) + h.ring.queue == Received(h.items);
    }
  }

  // ---------------------------------------------------------------------------------------------
  // When a push overloads

  lemma StepKeepsBound(h: History, op: Op)
    requires h.ring.queuedBytes == Total(h.ring.queue)
    ensures Applied(h, op).ring.maxBytes == h.ring.maxBytes && Applied(h, op).ring.bytesPerSecond == h.ring.bytesPerSecond
  {
  }

  lemma {:induction false} BoundStays(maxBytes: nat, bytesPerSecond: nat, ops: seq<Op>)
    ensures After(maxBytes, bytesPerSecond, ops).ring.maxBytes == MaxNat(maxBytes, 1)
    ensures After(maxBytes, bytesPerSecond, ops).ring.bytesPerSecond == bytesPerSecond
  {
    if ops != [] {
      BoundStays(maxBytes, bytesPerSecond, ops[..|ops| - 1]);
      StepKeepsBound(After(maxBytes, bytesPerSecond, ops[..|ops| - 1]), ops[|ops| - 1]);
    }
  }

  lemma {:induction false} TotalPlus(xs: seq<Chunk>, ys: seq<Chunk>)
    ensures Total(xs + ys) == Total(xs) + Total(ys)
    decreases |ys|
  {
    if ys == [] {
      assert xs + ys == xs;
    } else {
      var front, last := ys[..|ys| - 1], ys[|ys| - 1];
      TotalPlus(xs, front);
      TotalAppend(xs + front, last);
      assert xs + ys == (xs + front) + [last];
    }
  }

  /** The bytes a history has accepted and not yet yielded. */
  ghost function Backlog(h: History): int {
    Total(h.accepted) - Total(Received(h.items))
  }

  /** The high water of the backlog, over the whole history. */
  ghost function Peak(maxBytes: nat, bytesPerSecond: nat, ops: seq<Op>): nat {
    var queued := After(maxBytes, bytesPerSecond, ops).ring.queuedBytes;
    if ops == [] then queued else MaxNat(Peak(maxBytes, bytesPerSecond, ops[..|ops| - 1]), queued)
  }

  lemma {:induction false} PeakIsHighWater(maxBytes: nat, bytesPerSecond: nat, ops: seq<Op>)
    ensures After(maxBytes, bytesPerSecond, ops).ring.peakBytes == Peak(maxBytes, bytesPerSecond, ops)
  {
    if ops != [] {
      var before := After(maxBytes, bytesPerSecond, ops[..|ops| - 1]);
      PeakIsHighWater(maxBytes, bytesPerSecond, ops[..|ops| - 1]);
      PeakStep(before, ops[|ops| - 1]);
    }
  }

  lemma PeakStep(h: History, op: Op)
    requires Kept(h)
    ensures Applied(h, op).ring.peakBytes == MaxNat(h.ring.peakBytes, Applied(h, op).ring.queuedBytes)
  {
  }

  /** A push into a live ring overloads it exactly when the backlog and the chunk pass the bound, naming
      the seconds of the most the ring ever held, and is queued otherwise; into a finished or abandoned
      one it changes nothing. */
  lemma PushOverloadsExactlyWhen(maxBytes: nat, bytesPerSecond: nat, ops: seq<Op>, chunk: Chunk)
    ensures var h := After(maxBytes, bytesPerSecond, ops);
            var after := Applied(h, Push(chunk));
            if Terminated(h.ring) then after == h.(pushed := h.pushed + [chunk])
            else if Backlog(h) + |chunk| > MaxNat(maxBytes, 1) then
              && after.accepted == h.accepted && after.ring.done
              && after.raised == Some(Overloaded(Peak(maxBytes, bytesPerSecond, ops) as real / MaxNat(bytesPerSecond, 1) as real))
            else
              && after.accepted == h.accepted + [chunk] && after.ring.queue == h.ring.queue + [chunk]
              && after.raised == h.raised && !Terminated(after.ring)
  {
    var h := After(maxBytes, bytesPerSecond, ops);
    BoundStays(maxBytes, bytesPerSecond, ops);
    PeakIsHighWater(maxBytes, bytesPerSecond, ops);
    TotalPlus(Received(h.items), h.ring.queue);
    assert h.accepted + [] == h.accepted;
  }

  // ---------------------------------------------------------------------------------------------
  // The ring itself, updated in place under its mutex

  class Ring {
    var queue: seq<Chunk>
    var queuedBytes: nat
    const maxBytes: nat
    var peakBytes: nat
    const bytesPerSecond: nat
    var done: bool
    var fault: Option<CaptureError>
    var closed: bool

    ghost function View(): Inner
      reads this
    {
      Inner(queue, queuedBytes, maxBytes, peakBytes, bytesPerSecond, done, fault, closed)
    }

    constructor (maxBytes: nat, bytesPerSecond: nat)
      ensures View() == New(maxBytes, bytesPerSecond)
    {
      queue, queuedBytes, peakBytes := [], 0, 0;
      this.maxBytes, this.bytesPerSecond := MaxNat(maxBytes, 1), bytesPerSecond;
      done, fault, closed := false, None, false;
    }

    method IsTerminated() returns (b: bool)
      ensures b == Terminated(View())
    {
      b := closed || done;
    }

    method Push(chunk: Chunk) returns (overload: Option<CaptureError>)
      modifies this
      ensures (View(), overload) == Pushed(old(View()), chunk)
    {
      if closed || done {
        return None;
      }
      if queuedBytes + |chunk| > maxBytes {
        done := true;
        var seconds := peakBytes as real / MaxNat(bytesPerSecond, 1) as real;
        fault := Some(Overloaded(seconds));
        return fault;
      }
      queuedBytes := queuedBytes + |chunk|;
      peakBytes := MaxNat(peakBytes, queuedBytes);
      queue := queue + [chunk];
      return None;
    }

    method Finish(outcome: Option<CaptureError>)
      modifies this
      ensures View() == Finished(old(View()), outcome)
    {
      if done {
        return;
      }
      done := true;
      if !closed {
        fault := outcome;
      }
    }

    /** One pass of `next`'s loop; `Pending` is where it awaits. */
    method Poll() returns (item: Item)
      requires Accounted(View())
      modifies this
      ensures (View(), item) == Polled(old(View()))
    {
      if queue != [] {
        TotalTail(queue);
        item := Audio(queue[0]);
        queuedBytes := queuedBytes - |queue[0]|;
        queue := queue[1..];
        return;
      }
      if fault.Some? {
        item := Err(fault.value);
        fault := None;
        return;
      }
      item := if done || closed then End else Pending;
    }

    method Close()
      modifies this
      ensures View() == Closed(old(View()))
    {
      closed := true;
      queue, queuedBytes := [], 0;
      fault := None;
    }
  }
}
