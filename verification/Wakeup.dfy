/**
 `push`, `finish` and `next` interleaved over the ring's mutex and its `Notify`: a consumer is never
 left asleep on audio, a fault or the end.
 */
module Wakeup {
  import opened Prelude
  import opened Capture
  import opened Ring

  /** Where the single consumer is in `next`. */
  datatype Consumer =
    | Away                // not polling
    | Checking            // about to look under the lock
    | Awaiting            // looked and found nothing; the await not yet polled
    | Asleep              // registered with the notify
    | Gone                // dropped the stream

  /** `owes`: the producer has changed the ring and not yet called `notify_one`. */
  datatype World = World(h: History, permit: bool, owes: bool, consumer: Consumer)

  /** Each step is one atomic action of one thread. */
  datatype Step =
    | LockedPush(chunk: Chunk)
    | LockedFinish(fault: Option<CaptureError>)
    | Notify
    | Call
    | Check
    | Await
    | Drop

  /** `notify_one`: wake the registered waiter, or leave a permit. */
  function Notified(w: World): World {
    if w.consumer.Asleep? then w.(consumer := Checking) else w.(permit := true)
  }

  /** The next poll would yield something. */
  predicate Available(r: Inner) {
    r.queue != [] || r.fault.Some? || r.done || r.closed
  }

  ghost predicate Parked(w: World) {
    w.consumer.Awaiting? || w.consumer.Asleep?
  }

  function Begin(maxBytes: nat, bytesPerSecond: nat): World {
    World(Blank(maxBytes, bytesPerSecond), false, false, Away)
  }

  /** A step that its thread cannot take changes nothing. */
  function Stepped(w: World, step: Step): World
    requires Kept(w.h)
  {
    var r := w.h.ring;
    match step
    case LockedPush(c) =>
      if w.owes then w
      else if Terminated(r) then w.(h := Applied(w.h, Push(c)))
      // The overload notifies before the lock is released, an accepted chunk after.
      else if Accepts(r, c) then w.(h := Applied(w.h, Push(c)), owes := true)
      else Notified(w.(h := Applied(w.h, Push(c))))
    case LockedFinish(f) =>
      if w.owes then w
      else w.(h := Applied(w.h, Finish(f)), owes := !r.done)
    case Notify => if w.owes then Notified(w.(owes := false)) else w
    case Call => if w.consumer.Away? then w.(consumer := Checking) else w
    case Check =>
      if w.consumer.Checking?
      then w.(h := Applied(w.h, Next), consumer := if Polled(r).1.Pending? then Awaiting else Away)
      else w
    case Await =>
      if !w.consumer.Awaiting? then w
      else if w.permit then w.(permit := false, consumer := Checking)
      else w.(consumer := Asleep)
    case Drop => w.(h := Applied(w.h, Close), consumer := Gone)
  }

  ghost predicate NoLostWakeup(w: World) {
    && Kept(w.h)
    && (w.consumer.Asleep? ==> !w.permit)
    && (Parked(w) && Available(w.h.ring) ==> w.permit || w.owes)
  }

  lemma StepKeepsWakeup(w: World, step: Step)
    requires NoLostWakeup(w)
    ensures NoLostWakeup(Stepped(w, step))
  {
    match step
    case LockedPush(c) => StepKeeps(w.h, Push(c));
    case LockedFinish(f) => StepKeeps(w.h, Finish(f));
    case Check => StepKeeps(w.h, Next);
    case Drop => StepKeeps(w.h, Close);
    case Notify =>
    case Call =>
    case Await =>
  }

  ghost function After(maxBytes: nat, bytesPerSecond: nat, steps: seq<Step>): (w: World)
    ensures NoLostWakeup(w)
  {
    if steps == [] then Begin(maxBytes, bytesPerSecond)
    else
      var w := After(maxBytes, bytesPerSecond, steps[..|steps| - 1]);
      StepKeepsWakeup(w, steps[|steps| - 1]);
      Stepped(w, steps[|steps| - 1])
  }

  /** In every interleaving, a consumer parked while a chunk, fault or end is there for it has a
      permit stored or a notify owed, and taking just those steps hands it the item. */
  lemma ParkedConsumerWakes(maxBytes: nat, bytesPerSecond: nat, steps: seq<Step>)
    ensures var w := After(maxBytes, bytesPerSecond, steps);
            Parked(w) && Available(w.h.ring) ==>
              && (w.permit || w.owes)
              && var woken := Stepped(Stepped(w, Notify), Await);
                 && woken.consumer.Checking?
                 && Kept(woken.h)
                 && Stepped(woken, Check).consumer.Away?
                 && !Polled(woken.h.ring).1.Pending?
  {
    var w := After(maxBytes, bytesPerSecond, steps);
    StepKeepsWakeup(w, Notify);
    StepKeepsWakeup(Stepped(w, Notify), Await);
  }
}
