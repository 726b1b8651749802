/**
 The session's fine-grained steps are the methods they come from: run without interruption they do
 exactly what `DataPath.Process`, `Producer.Push` and `Producer.Conclude` promise.
 */
module Refinement {
  import opened Prelude
  import opened Capture
  import D = DataPath
  import M = Mix
  import R = Ring
  import P = Producer
  import V = Supervisor
  import opened Session

  // ---------------------------------------------------------------------------------------------
  // The process callback

  /** Deliver these, then go on. */
  function Delivers(buffers: seq<seq<Byte>>, rest: seq<Step>): seq<Step> {
    if buffers == [] then rest else [Deliver(buffers[0])] + Delivers(buffers[1..], rest)
  }

  /** The data thread's state and its frame count. */
  function Counting(s: Session): (D.Data, nat) {
    (s.data, s.callback.counted)
  }

  ghost predicate InCallback(s: Session) {
    !s.quiesced && s.callback.read.None?
  }

  lemma DeliverStep(cfg: Config, s: Session, buffer: seq<Byte>)
    requires Inv(cfg, s) && InCallback(s)
    ensures var t := Stepped(cfg, s, Deliver(buffer));
            && InCallback(t)
            && Counting(t) == if buffer == [] then Counting(s)
                              else (D.Delivered(s.data, buffer), s.callback.counted + M.Frames(s.data.mix, buffer))
  {
  }

  /** One buffer on, the count comes to the same. */
  lemma CountsOn(d: D.Data, frames: nat, later: (D.Data, nat), buffers: seq<seq<Byte>>)
    requires D.Valid(d) && D.Valid(later.0) && buffers != []
    requires later == if buffers[0] == [] then (d, frames)
                      else (D.Delivered(d, buffers[0]), frames + M.Frames(d.mix, buffers[0]))
    ensures D.Counted(later.0, buffers[1..], later.1) == D.Counted(d, buffers, frames)
  {
  }

  lemma DeliverCounts(cfg: Config, s: Session, buffers: seq<seq<Byte>>)
    requires Inv(cfg, s) && InCallback(s) && buffers != []
    ensures var t := Stepped(cfg, s, Deliver(buffers[0]));
            && InCallback(t) && D.Valid(t.data)
            && D.Counted(t.data, buffers[1..], t.callback.counted) == D.Counted(s.data, buffers, s.callback.counted)
  {
    DeliverStep(cfg, s, buffers[0]);
    CountsOn(s.data, s.callback.counted, Counting(Stepped(cfg, s, Deliver(buffers[0]))), buffers);
  }

  lemma DeliverFirst(cfg: Config, s: Session, buffers: seq<seq<Byte>>, rest: seq<Step>) returns (t: Session)
    requires Inv(cfg, s) && InCallback(s) && buffers != []
    ensures Inv(cfg, t) && InCallback(t) && From(cfg, s, [Deliver(buffers[0])] + rest) == From(cfg, t, rest)
    ensures D.Counted(t.data, buffers[1..], t.callback.counted) == D.Counted(s.data, buffers, s.callback.counted)
  {
    FromCons(cfg, s, Deliver(buffers[0]), rest);
    DeliverCounts(cfg, s, buffers);
    t := Stepped(cfg, s, Deliver(buffers[0]));
  }

  lemma DeliversNothing(cfg: Config, s: Session, rest: seq<Step>)
    requires Inv(cfg, s)
    ensures From(cfg, s, Delivers([], rest)) == From(cfg, s, rest)
    ensures D.Counted(s.data, [], s.callback.counted) == Counting(s)
  {
  }

  lemma {:induction false} DeliversAreCounted(cfg: Config, s: Session, buffers: seq<seq<Byte>>, rest: seq<Step>) returns (t: Session)
    requires Inv(cfg, s) && InCallback(s)
    ensures Inv(cfg, t) && InCallback(t) && From(cfg, s, Delivers(buffers, rest)) == From(cfg, t, rest)
    ensures Counting(t) == D.Counted(s.data, buffers, s.callback.counted)
    decreases |buffers|
  {
    if buffers == [] {
      DeliversNothing(cfg, s, rest);
      t := s;
    } else {
      t := DeliverFirst(cfg, s, buffers, Delivers(buffers[1..], rest));
      t := DeliversAreCounted(cfg, t, buffers[1..], rest);
    }
  }

  /** Whether the callback goes on to account its frames. */
  predicate Accounts(s: Session, clock: Option<D.Clock>) {
    s.callback.counted > 0 && clock.Some?
  }

  lemma ClockStep(cfg: Config, s: Session, clock: Option<D.Clock>)
    requires Inv(cfg, s) && InCallback(s)
    ensures var t := Stepped(cfg, s, ReadClock(clock));
            && t.data == s.data && !t.quiesced
            && (Accounts(s, clock) ==> t.callback == s.callback.(read := Some((clock.value, s.data.epoch))))
            && (!Accounts(s, clock) ==> t.callback.read.None?)
  {
  }

  lemma AccountStep(cfg: Config, s: Session)
    requires Inv(cfg, s) && !s.quiesced
    ensures From(cfg, s, [Account]).data
         == if s.callback.read.None? then s.data
            else D.Accounted(s.data, s.callback.read.value.1, D.ReportOf(s.callback.read.value.0, s.callback.counted))
  {
    FromCons(cfg, s, Account, []);
    assert [Account] + [] == [Account];
  }

  lemma ClockSteps(cfg: Config, s: Session, clock: Option<D.Clock>)
    requires Inv(cfg, s) && InCallback(s)
    ensures D.Valid(s.data)
    ensures From(cfg, s, [ReadClock(clock)] + [Account]).data
         == if !Accounts(s, clock) then s.data
            else D.Accounted(s.data, s.data.epoch, D.ReportOf(clock.value, s.callback.counted))
  {
    FromCons(cfg, s, ReadClock(clock), [Account]);
    ClockStep(cfg, s, clock);
    AccountStep(cfg, Stepped(cfg, s, ReadClock(clock)));
  }

  /** Deliveries, clock read and account, undisturbed, are one `process` callback. */
  lemma CallbackIsProcess(cfg: Config, s: Session, buffers: seq<seq<Byte>>, clock: Option<D.Clock>)
    requires Inv(cfg, s) && InCallback(s) && s.callback.counted == 0
    ensures D.Valid(s.data)
    ensures From(cfg, s, Delivers(buffers, [ReadClock(clock)] + [Account])).data == D.Processed(s.data, buffers, clock)
  {
    var t := DeliversAreCounted(cfg, s, buffers, [ReadClock(clock)] + [Account]);
    ClockSteps(cfg, t, clock);
  }

  // ---------------------------------------------------------------------------------------------
  // The producer

  /** `n` chunks, each handed to the ring and its overload, if any, published; then `rest`. */
  function Emits(n: nat, rest: seq<Step>): seq<Step> {
    if n == 0 then rest else [Emit] + ([PublishOverload] + Emits(n - 1, rest))
  }

  /** All of a session that the loop thread sees. */
  datatype Handover = Handover(
    pc: Pc,
    pending: seq<Byte>,
    overload: Option<CaptureError>,
    ring: R.Inner,
    health: Health,
    items: seq<R.Item>,
    data: D.Data,
    moved: seq<Byte>,
    ending: Option<Ending>,
    quiesced: bool)

  function Of(s: Session): Handover {
    Handover(s.pc, s.pending, s.overload, s.out.ring, s.health, s.out.items, s.data, s.moved, s.ending, s.quiesced)
  }

  /** Enough of the invariant for a step to be defined. */
  ghost predicate Ready(cfg: Config, s: Session) {
    D.Valid(s.data) && R.Accounted(s.out.ring) && cfg.frameBytes > 0
  }

  function Pushed(h: Handover, size: nat): Handover
    requires size > 0
  {
    var (ring, health) := P.EmittedAll(h.ring, h.health, P.Chunks(h.pending, size));
    h.(pending := P.Rest(h.pending, size), overload := None, ring := ring, health := health)
  }

  function OneChunk(h: Handover, size: nat): Handover
    requires size <= |h.pending|
  {
    var (ring, health) := P.Emitted(h.ring, h.health, h.pending[..size]);
    h.(pending := h.pending[size..], overload := None, ring := ring, health := health)
  }

  lemma PushStartsWithAChunk(h: Handover, size: nat)
    requires 0 < size <= |h.pending|
    ensures Pushed(h, size) == Pushed(OneChunk(h, size), size)
    ensures |P.Chunks(h.pending, size)| == 1 + |P.Chunks(OneChunk(h, size).pending, size)|
  {
    P.EmittedFirst(h.ring, h.health, h.pending[..size], P.Chunks(h.pending[size..], size));
  }

  lemma OverloadStep(cfg: Config, s: Session)
    requires Ready(cfg, s)
    ensures Of(Stepped(cfg, s, PublishOverload))
         == Of(s).(overload := None,
                   health := if s.overload.Some? then Published(s.health, Faulted(s.overload.value)) else s.health)
  {
  }

  lemma EmitStep(cfg: Config, s: Session)
    requires Ready(cfg, s) && s.pc.Pushing? && s.overload.None? && |s.pending| >= cfg.chunkBytes
    ensures Of(Stepped(cfg, s, Emit))
         == var (ring, overload) := R.Pushed(s.out.ring, s.pending[..cfg.chunkBytes]);
            Of(s).(pending := s.pending[cfg.chunkBytes..], overload := overload, ring := ring)
  {
  }

  lemma EmitIsOneChunk(cfg: Config, s: Session, rest: seq<Step>) returns (t: Session)
    requires Inv(cfg, s) && s.pc.Pushing? && s.overload.None? && |s.pending| >= cfg.chunkBytes
    ensures Inv(cfg, t) && From(cfg, s, [Emit] + ([PublishOverload] + rest)) == From(cfg, t, rest)
    ensures Of(t) == OneChunk(Of(s), cfg.chunkBytes)
  {
    FromCons(cfg, s, Emit, [PublishOverload] + rest);
    EmitStep(cfg, s);
    t := Stepped(cfg, s, Emit);
    FromCons(cfg, t, PublishOverload, rest);
    OverloadStep(cfg, t);
    t := Stepped(cfg, t, PublishOverload);
  }

  lemma NothingToEmit(cfg: Config, s: Session, rest: seq<Step>)
    requires Inv(cfg, s) && s.overload.None? && |s.pending| < cfg.chunkBytes
    ensures P.Chunks(s.pending, cfg.chunkBytes) == [] && Emits(0, rest) == rest
    ensures Pushed(Of(s), cfg.chunkBytes) == Of(s)
  {
  }

  /** Emitting until less than a chunk is left hands the ring exactly the pending audio's chunks. */
  lemma {:induction false} EmitsArePush(cfg: Config, s: Session, rest: seq<Step>) returns (t: Session)
    requires Inv(cfg, s) && s.pc.Pushing? && s.overload.None?
    ensures Inv(cfg, t) && From(cfg, s, Emits(|P.Chunks(s.pending, cfg.chunkBytes)|, rest)) == From(cfg, t, rest)
    ensures Of(t) == Pushed(Of(s), cfg.chunkBytes)
    decreases |s.pending|
  {
    if |s.pending| >= cfg.chunkBytes {
      var k := |P.Chunks(s.pending, cfg.chunkBytes)|;
      PushStartsWithAChunk(Of(s), cfg.chunkBytes);
      t := EmitIsOneChunk(cfg, s, Emits(k - 1, rest));
      t := EmitsArePush(cfg, t, rest);
    } else {
      NothingToEmit(cfg, s, rest);
      t := s;
    }
  }

  /** `Producer.Conclude`'s result. */
  function Concluded(h: Handover, frameBytes: nat, fault: Option<CaptureError>): Handover
    requires frameBytes > 0
  {
    var whole := P.Whole(h.pending, frameBytes);
    var (r, health) := if whole == [] then (h.ring, h.health) else P.Emitted(h.ring, h.health, whole);
    h.(pc := Done, pending := h.pending[|whole|..], overload := None, ring := R.Finished(r, fault),
       health := Published(health, P.Outcome(r.closed, fault)))
  }

  lemma FlushStep(cfg: Config, s: Session)
    requires Ready(cfg, s) && s.pc.Concluding? && s.overload.None?
    ensures var whole := P.Whole(s.pending, cfg.frameBytes);
            var (r, o) := if whole == [] then (s.out.ring, None) else R.Pushed(s.out.ring, whole);
            Of(Stepped(cfg, s, Flush))
              == Of(s).(pc := Publishing(s.pc.fault), pending := s.pending[|whole|..], overload := o, ring := r)
  {
  }

  lemma FlushSteps(cfg: Config, s: Session, rest: seq<Step>) returns (t: Session)
    requires Inv(cfg, s) && s.pc.Concluding? && s.overload.None?
    ensures Inv(cfg, t) && From(cfg, s, [Flush] + ([PublishOverload] + rest)) == From(cfg, t, rest)
    ensures var whole := P.Whole(s.pending, cfg.frameBytes);
            var (r, h) := if whole == [] then (s.out.ring, s.health) else P.Emitted(s.out.ring, s.health, whole);
            Of(t) == Of(s).(pc := Publishing(s.pc.fault), pending := s.pending[|whole|..], overload := None, ring := r, health := h)
  {
    FromCons(cfg, s, Flush, [PublishOverload] + rest);
    FlushStep(cfg, s);
    t := Stepped(cfg, s, Flush);
    FromCons(cfg, t, PublishOverload, rest);
    OverloadStep(cfg, t);
    t := Stepped(cfg, t, PublishOverload);
  }

  lemma PublishStep(cfg: Config, s: Session)
    requires Ready(cfg, s) && s.pc.Publishing? && s.overload.None?
    ensures Of(Stepped(cfg, s, ReadClosed)) == Of(s).(pc := Sealing(s.pc.fault, P.Outcome(s.out.ring.closed, s.pc.fault)))
  {
  }

  lemma SealStep(cfg: Config, s: Session)
    requires Ready(cfg, s) && s.pc.Sealing?
    ensures Of(Stepped(cfg, s, Publish)) == Of(s).(pc := Finishing(s.pc.fault), health := Published(s.health, s.pc.outcome))
  {
  }

  lemma PublishSteps(cfg: Config, s: Session, rest: seq<Step>) returns (t: Session)
    requires Inv(cfg, s) && s.pc.Publishing? && s.overload.None?
    ensures Inv(cfg, t) && From(cfg, s, [ReadClosed] + ([Publish] + rest)) == From(cfg, t, rest)
    ensures Of(t) == Of(s).(pc := Finishing(s.pc.fault),
                            health := Published(s.health, P.Outcome(s.out.ring.closed, s.pc.fault)))
  {
    FromCons(cfg, s, ReadClosed, [Publish] + rest);
    PublishStep(cfg, s);
    t := Stepped(cfg, s, ReadClosed);
    FromCons(cfg, t, Publish, rest);
    SealStep(cfg, t);
    t := Stepped(cfg, t, Publish);
  }

  lemma FinishEffect(cfg: Config, s: Session)
    requires Ready(cfg, s) && s.pc.Finishing?
    ensures Of(Stepped(cfg, s, FinishRing)) == Of(s).(pc := Done, ring := R.Finished(s.out.ring, s.pc.fault))
  {
  }

  lemma FinishStep(cfg: Config, s: Session, rest: seq<Step>) returns (t: Session)
    requires Inv(cfg, s) && s.pc.Finishing?
    ensures Inv(cfg, t) && From(cfg, s, [FinishRing] + rest) == From(cfg, t, rest)
    ensures Of(t) == Of(s).(pc := Done, ring := R.Finished(s.out.ring, s.pc.fault))
  {
    FromCons(cfg, s, FinishRing, rest);
    FinishEffect(cfg, s);
    t := Stepped(cfg, s, FinishRing);
  }

  /** Flush, publish and finish, then `rest`. */
  function Conclusion(rest: seq<Step>): seq<Step> {
    [Flush] + ([PublishOverload] + ([ReadClosed] + ([Publish] + ([FinishRing] + rest))))
  }

  /** Flush, publish and finish, undisturbed, are `Conclude`. */
  lemma ConclusionIsConclude(cfg: Config, s: Session, rest: seq<Step>) returns (t: Session)
    requires Inv(cfg, s) && s.pc.Concluding? && s.overload.None?
    ensures Inv(cfg, t) && From(cfg, s, Conclusion(rest)) == From(cfg, t, rest)
    ensures Of(t) == Concluded(Of(s), cfg.frameBytes, s.pc.fault)
  {
    t := FlushSteps(cfg, s, [ReadClosed] + ([Publish] + ([FinishRing] + rest)));
    t := PublishSteps(cfg, t, [FinishRing] + rest);
    t := FinishStep(cfg, t, rest);
  }

  // ---------------------------------------------------------------------------------------------
  // The drain

  lemma ReadEffect(cfg: Config, s: Session)
    requires Ready(cfg, s)
    ensures s.pc.Polling? ==> Of(Stepped(cfg, s, ReadLoss)) == Of(s).(pc := SawLoss(D.ReadLoss(s.data.loss)))
    ensures s.pc.SawLoss? ==>
      Of(Stepped(cfg, s, ReadSlots))
        == Of(s).(pc := if s.data.ring == [] then Ran(s.pc.loss, false) else SawSlots(s.pc.loss, |s.data.ring|))
  {
  }

  lemma ReadSteps(cfg: Config, s: Session, rest: seq<Step>) returns (t: Session)
    requires Inv(cfg, s) && s.pc.Polling?
    ensures Inv(cfg, t) && From(cfg, s, [ReadLoss] + ([ReadSlots] + rest)) == From(cfg, t, rest)
    ensures Of(t) == Of(s).(pc := if s.data.ring == [] then Ran(D.ReadLoss(s.data.loss), false)
                                  else SawSlots(D.ReadLoss(s.data.loss), |s.data.ring|))
  {
    FromCons(cfg, s, ReadLoss, [ReadSlots] + rest);
    ReadEffect(cfg, s);
    t := Stepped(cfg, s, ReadLoss);
    FromCons(cfg, t, ReadSlots, rest);
    ReadEffect(cfg, t);
    t := Stepped(cfg, t, ReadSlots);
  }

  lemma TakeEffect(cfg: Config, s: Session)
    requires Ready(cfg, s) && s.pc.SawSlots? && s.pc.slots == |s.data.ring|
    ensures Of(Stepped(cfg, s, Take))
         == Of(s).(pc := Holding(s.pc.loss, s.data.ring), moved := s.moved + s.data.ring, data := s.data.(ring := []))
  {
    assert s.data.ring[..|s.data.ring|] == s.data.ring && s.data.ring[|s.data.ring|..] == [];
  }

  lemma TakeStep(cfg: Config, s: Session, rest: seq<Step>) returns (t: Session)
    requires Inv(cfg, s) && s.pc.SawSlots? && s.pc.slots == |s.data.ring|
    ensures Inv(cfg, t) && From(cfg, s, [Take] + rest) == From(cfg, t, rest)
    ensures Of(t) == Of(s).(pc := Holding(s.pc.loss, s.data.ring), moved := s.moved + s.data.ring,
                            data := s.data.(ring := []))
  {
    FromCons(cfg, s, Take, rest);
    TakeEffect(cfg, s);
    t := Stepped(cfg, s, Take);
  }

  lemma EnterEffect(cfg: Config, s: Session)
    requires Ready(cfg, s) && s.pc.Holding? && !R.Terminated(s.out.ring)
    ensures Of(Stepped(cfg, s, EnterPush)) == Of(s).(pc := Entering(s.pc.loss, s.pc.bytes))
  {
  }

  lemma ExtendEffect(cfg: Config, s: Session)
    requires Ready(cfg, s) && s.pc.Entering?
    ensures Of(Stepped(cfg, s, Extend))
         == Of(s).(pc := Pushing(s.pc.loss), pending := s.pending + s.pc.bytes, health := Published(s.health, Capturing))
  {
  }

  lemma ExtendSteps(cfg: Config, s: Session, rest: seq<Step>) returns (t: Session)
    requires Inv(cfg, s) && s.pc.Holding? && !R.Terminated(s.out.ring)
    ensures Inv(cfg, t) && From(cfg, s, [EnterPush] + ([Extend] + rest)) == From(cfg, t, rest)
    ensures Of(t) == Of(s).(pc := Pushing(s.pc.loss), pending := s.pending + s.pc.bytes, health := Published(s.health, Capturing))
  {
    FromCons(cfg, s, EnterPush, [Extend] + rest);
    EnterEffect(cfg, s);
    t := Stepped(cfg, s, EnterPush);
    FromCons(cfg, t, Extend, rest);
    ExtendEffect(cfg, t);
    t := Stepped(cfg, t, Extend);
  }

  lemma LeaveEffect(cfg: Config, s: Session)
    requires Ready(cfg, s) && s.pc.Pushing? && s.overload.None? && |s.pending| < cfg.chunkBytes
    ensures Of(Stepped(cfg, s, LeavePush)) == Of(s).(pc := Ran(s.pc.loss, R.Terminated(s.out.ring)))
  {
  }

  lemma LeaveStep(cfg: Config, s: Session, rest: seq<Step>) returns (t: Session)
    requires Inv(cfg, s) && s.pc.Pushing? && s.overload.None? && |s.pending| < cfg.chunkBytes
    ensures Inv(cfg, t) && From(cfg, s, [LeavePush] + rest) == From(cfg, t, rest)
    ensures Of(t) == Of(s).(pc := Ran(s.pc.loss, R.Terminated(s.out.ring)))
  {
    FromCons(cfg, s, LeavePush, rest);
    LeaveEffect(cfg, s);
    t := Stepped(cfg, s, LeavePush);
  }

  /** What `Drain::run` makes of a FIFO with something in it: all of it goes to `Producer.Push`. */
  function Run(h: Handover, size: nat): Handover
    requires size > 0
  {
    var pushed := Pushed(h.(pending := h.pending + h.data.ring, moved := h.moved + h.data.ring,
                            data := h.data.(ring := []), health := Published(h.health, Capturing)), size);
    pushed.(pc := Ran(D.ReadLoss(h.data.loss), R.Terminated(pushed.ring)))
  }

  /** The drain's steps, `chunks` of them emits, then `rest`. */
  function DrainSteps(chunks: nat, rest: seq<Step>): seq<Step> {
    [ReadLoss] + ([ReadSlots] + ([Take] + ([EnterPush] + ([Extend] + Emits(chunks, [LeavePush] + rest)))))
  }

  /** The drain's steps, undisturbed, are one `Drain::run` over a FIFO with something in it. */
  lemma DrainIsRun(cfg: Config, s: Session, rest: seq<Step>) returns (t: Session)
    requires Inv(cfg, s) && s.pc.Polling? && s.overload.None? && s.data.ring != [] && !R.Terminated(s.out.ring)
    ensures Inv(cfg, t) && Of(t) == Run(Of(s), cfg.chunkBytes)
    ensures From(cfg, s, DrainSteps(|P.Chunks(s.pending + s.data.ring, cfg.chunkBytes)|, rest)) == From(cfg, t, rest)
  {
    var k := |P.Chunks(s.pending + s.data.ring, cfg.chunkBytes)|;
    var last := Emits(k, [LeavePush] + rest);
    t := ReadSteps(cfg, s, [Take] + ([EnterPush] + ([Extend] + last)));
    t := TakeStep(cfg, t, [EnterPush] + ([Extend] + last));
    t := ExtendSteps(cfg, t, last);
    t := EmitsArePush(cfg, t, [LeavePush] + rest);
    t := LeaveStep(cfg, t, rest);
  }

  // ---------------------------------------------------------------------------------------------
  // The poll timer

  /** The ending that stands after a poll that could note any of three. */
  function Noted(ending: Option<Ending>, abandoned: bool, loss: Option<Loss>, tick: Option<Ending>): Option<Ending> {
    if ending.Some? then ending
    else if abandoned then Some(Clean)
    else if loss.Some? then Some(Fault(AudioLost(loss.value)))
    else tick
  }

  lemma ReturnNotes(cfg: Config, s: Session, tick: Option<Ending>)
    requires D.Valid(s.data) && R.Accounted(s.out.ring) && cfg.frameBytes > 0 && s.pc.Ran? && !s.quiesced
    ensures Stepped(cfg, s, Return(tick)).ending == Noted(s.ending, s.pc.abandoned, s.pc.loss, tick)
  {
  }

  lemma PollNotes(watch: V.Watch, ending: Option<Ending>, now: nat, drained: V.Drained, loss: Option<Loss>, stopped: bool)
    ensures var seen := V.Stepped(V.Loop(watch, None), V.PollAt(now, drained, loss, stopped)).watch;
            V.Stepped(V.Loop(watch, ending), V.PollAt(now, drained, loss, stopped)).ending
              == Noted(ending, drained.Audio? && drained.abandoned, loss, V.Ticked(seen, now, stopped))
  {
  }

  /** The session's return from a drain notes exactly the ending the capture loop's poll does. */
  lemma ReturnIsPoll(cfg: Config, s: Session, watch: V.Watch, now: nat, drained: V.Drained, stopped: bool)
    requires Inv(cfg, s) && s.pc.Ran? && !s.quiesced
    requires s.pc.abandoned == (drained.Audio? && drained.abandoned)
    ensures var seen := V.Stepped(V.Loop(watch, None), V.PollAt(now, drained, s.pc.loss, stopped)).watch;
            Stepped(cfg, s, Return(V.Ticked(seen, now, stopped))).ending
              == V.Stepped(V.Loop(watch, s.ending), V.PollAt(now, drained, s.pc.loss, stopped)).ending
  {
    var seen := V.Stepped(V.Loop(watch, None), V.PollAt(now, drained, s.pc.loss, stopped)).watch;
    ReturnNotes(cfg, s, V.Ticked(seen, now, stopped));
    PollNotes(watch, s.ending, now, drained, s.pc.loss, stopped);
  }

  /** A change of stream state notes exactly the ending the capture loop does. */
  lemma StateChangeIsStreamState(cfg: Config, s: Session, watch: V.Watch, detail: string)
    requires Inv(cfg, s) && s.pc.Polling? && !s.quiesced
    ensures Stepped(cfg, s, StateChange(Some(DeviceUnavailable(detail)))).ending
         == V.Stepped(V.Loop(watch, s.ending), V.StreamFailed(detail)).ending
    ensures Stepped(cfg, s, StateChange(None)).ending == V.Stepped(V.Loop(watch, s.ending), V.StreamAccepted).ending
  {
  }
}
