/**
 How a session ends: which fault its stream is given, exactly when it is given none, and what its
 health shows until then.
 */
module Endings {
  import opened Prelude
  import opened Capture
  import R = Ring
  import C = Continuity
  import D = DataPath
  import P = Producer
  import opened Session

  /** The fault a finished session owes its stream: the one noted first, else the loss latched, else the
      deficit held. */
  ghost function Conclusion(s: Session): Option<CaptureError> {
    if s.ending.Some? && s.ending.value.Fault? then Some(s.ending.value.error)
    else if s.data.loss == D.OVERFLOW then Some(AudioLost(Overflow))
    else if s.data.loss != D.NONE then Some(AudioLost(Missed(s.data.loss)))
    else if s.data.unconfirmed != D.NONE then Some(AudioLost(Missed(s.data.unconfirmed)))
    else None
  }

  /** No fault was noted, no loss latched, and nothing held. */
  ghost predicate NothingWrong(s: Session) {
    !(s.ending.Some? && s.ending.value.Fault?) && !s.data.lost && s.data.unconfirmed == D.NONE
  }

  /** Some chunk was pushed that the ring did not take. */
  ghost predicate Refused(s: Session) {
    s.out.accepted != s.out.pushed
  }

  ghost predicate Overload(fault: Option<CaptureError>) {
    fault.Some? && fault.value.Overloaded?
  }

  /** The loss a drain carries is the one latched, and the fault a conclusion carries is the session's. */
  ghost predicate Carried(s: Session) {
    && (Draining(s.pc) && LossRead(s.pc).Some? ==> LossRead(s.pc) == D.ReadLoss(s.data.loss))
    && (Concluded(s.pc) ==> s.quiesced)
    && (Concluded(s.pc) && !s.pc.Done? ==> s.pc.fault == Conclusion(s))
  }

  /** For a consumer that stays, the stream's fault is an overload once a chunk was refused, and before
      the end there is no other; at the end it is the session's. */
  ghost predicate Faulting(s: Session) {
    !s.out.ring.closed ==>
      && |s.out.accepted| <= |s.out.pushed|
      && (Refused(s) ==> Overload(s.out.raised))
      && (!Refused(s) ==> s.out.raised == if s.pc.Done? then Conclusion(s) else None)
  }

  /** What the steps below need of the session's invariant. */
  ghost predicate Base(cfg: Config, s: Session) {
    && D.Valid(s.data) && R.Accounted(s.out.ring) && cfg.frameBytes > 0 && DrainsAll(s)
    && (s.out.raised.Some? ==> s.out.ring.done)
    && (Uncut(s) && s.out.ring.done ==> s.pc.Done?)
    && (s.out.accepted <= s.out.pushed)
  }

  lemma InvIsBase(cfg: Config, s: Session)
    requires Inv(cfg, s)
    ensures Base(cfg, s)
  {
  }

  // ---------------------------------------------------------------------------------------------
  // Every step keeps it

  /** The stream's record and the session's fault are as they were. */
  ghost predicate SameEnd(s: Session, t: Session) {
    && t.out.accepted == s.out.accepted && t.out.pushed == s.out.pushed && t.out.raised == s.out.raised
    && (s.out.ring.closed ==> t.out.ring.closed)
    && (t.pc.Done? <==> s.pc.Done?)
    && (Concluded(s.pc) ==> Conclusion(t) == Conclusion(s))
  }

  lemma SameEndFaults(s: Session, t: Session)
    requires Faulting(s) && SameEnd(s, t)
    ensures Faulting(t)
  {
  }

  lemma DataStep(cfg: Config, s: Session, step: Step)
    requires Base(cfg, s) && Carried(s) && (step.Deliver? || step.ReadClock? || step.Account? || step.StateChange?)
    ensures SameEnd(s, Stepped(cfg, s, step)) && Carried(Stepped(cfg, s, step))
  {
    if step.Deliver? {
      D.DeliveredWholeOrNotAtAll(s.data, step.samples);
    } else if step.Account? && s.callback.read.Some? {
      var (clock, epoch) := s.callback.read.value;
      D.AccountedMovesNothing(s.data, epoch, D.ReportOf(clock, s.callback.counted));
    }
  }

  lemma ReadStep(cfg: Config, s: Session, step: Step)
    requires Base(cfg, s) && Carried(s) && (step.ReadLoss? || step.ReadSlots?)
    ensures SameEnd(s, Stepped(cfg, s, step)) && Carried(Stepped(cfg, s, step))
  {
  }

  lemma TakeStep(cfg: Config, s: Session)
    requires Base(cfg, s) && Carried(s)
    ensures SameEnd(s, Stepped(cfg, s, Take)) && Carried(Stepped(cfg, s, Take))
  {
  }

  lemma EnterStep(cfg: Config, s: Session, step: Step)
    requires Base(cfg, s) && Carried(s) && (step.EnterPush? || step.Extend?)
    ensures SameEnd(s, Stepped(cfg, s, step)) && Carried(Stepped(cfg, s, step))
  {
  }

  lemma LeaveStep(cfg: Config, s: Session, step: Step)
    requires Base(cfg, s) && Carried(s) && (step.LeavePush? || step.PublishOverload?)
    ensures SameEnd(s, Stepped(cfg, s, step)) && Carried(Stepped(cfg, s, step))
  {
  }

  lemma PollStep(cfg: Config, s: Session, step: Step)
    requires Base(cfg, s) && Carried(s) && (step.Return? || step.Quit?)
    ensures SameEnd(s, Stepped(cfg, s, step)) && Carried(Stepped(cfg, s, step))
  {
  }

  lemma SealStep(cfg: Config, s: Session, step: Step)
    requires Base(cfg, s) && Carried(s) && (step.ReadClosed? || step.Publish?)
    ensures SameEnd(s, Stepped(cfg, s, step)) && Carried(Stepped(cfg, s, step))
  {
  }

  /** The final drain's loss, the deficit and the noted ending make the session's fault. */
  lemma SettlingConcludes(s: Session)
    requires D.Valid(s.data) && DrainsAll(s) && Carried(s) && s.pc.Ran? && s.quiesced
    ensures var loss := if s.pc.loss.Some? then s.pc.loss else D.ReadUnconfirmed(s.data.unconfirmed);
            IntoFault(FinalEnding(s.ending, loss)) == Conclusion(s)
  {
  }

  lemma ConcludeStep(cfg: Config, s: Session, step: Step)
    requires Base(cfg, s) && Carried(s) && (step.Settle? || step.Fail?)
    ensures SameEnd(s, Stepped(cfg, s, step)) && Carried(Stepped(cfg, s, step))
  {
    if step.Settle? && s.pc.Ran? && s.quiesced {
      SettlingConcludes(s);
    }
  }

  lemma ConsumerStepEnds(cfg: Config, s: Session, step: Step)
    requires Base(cfg, s) && Carried(s) && (step.Poll? || step.Abort?)
    ensures SameEnd(s, Stepped(cfg, s, step)) && Carried(Stepped(cfg, s, step))
  {
    ConsumerStep(cfg, s, step);
  }

  lemma EmitFaults(cfg: Config, s: Session, chunk: Chunk, pending: seq<Byte>, pc: Pc)
    requires Base(cfg, s) && Faulting(s) && !s.pc.Done? && !pc.Done?
    ensures Faulting(EmitChunk(s, chunk).(pending := pending, pc := pc))
  {
  }

  lemma EmitStepEnds(cfg: Config, s: Session)
    requires Base(cfg, s) && Carried(s) && Faulting(s)
    ensures Carried(Stepped(cfg, s, Emit)) && Faulting(Stepped(cfg, s, Emit))
  {
    if s.pc.Pushing? && s.overload.None? && |s.pending| >= cfg.chunkBytes {
      EmitFaults(cfg, s, s.pending[..cfg.chunkBytes], s.pending[cfg.chunkBytes..], s.pc);
    }
  }

  lemma FlushStepEnds(cfg: Config, s: Session)
    requires Base(cfg, s) && Carried(s) && Faulting(s)
    ensures Carried(Stepped(cfg, s, Flush)) && Faulting(Stepped(cfg, s, Flush))
  {
    if s.pc.Concluding? && s.overload.None? {
      var whole := P.Whole(s.pending, cfg.frameBytes);
      EmitFaults(cfg, s, whole, s.pending[|whole|..], Publishing(s.pc.fault));
    }
  }

  lemma FinishStepEnds(cfg: Config, s: Session)
    requires Base(cfg, s) && Carried(s) && Faulting(s)
    ensures Carried(Stepped(cfg, s, FinishRing)) && Faulting(Stepped(cfg, s, FinishRing))
  {
  }

  lemma StepEnds(cfg: Config, s: Session, step: Step)
    requires Base(cfg, s) && Carried(s) && Faulting(s)
    ensures Carried(Stepped(cfg, s, step)) && Faulting(Stepped(cfg, s, step))
  {
    match step
    case Emit => EmitStepEnds(cfg, s);
    case Flush => FlushStepEnds(cfg, s);
    case FinishRing => FinishStepEnds(cfg, s);
    case Deliver(_) | ReadClock(_) | Account | StateChange(_) =>
      DataStep(cfg, s, step);
      SameEndFaults(s, Stepped(cfg, s, step));
    case ReadLoss | ReadSlots =>
      ReadStep(cfg, s, step);
      SameEndFaults(s, Stepped(cfg, s, step));
    case Take =>
      TakeStep(cfg, s);
      SameEndFaults(s, Stepped(cfg, s, step));
    case EnterPush | Extend =>
      EnterStep(cfg, s, step);
      SameEndFaults(s, Stepped(cfg, s, step));
    case LeavePush | PublishOverload =>
      LeaveStep(cfg, s, step);
      SameEndFaults(s, Stepped(cfg, s, step));
    case Return(_) | Quit =>
      PollStep(cfg, s, step);
      SameEndFaults(s, Stepped(cfg, s, step));
    case ReadClosed | Publish =>
      SealStep(cfg, s, step);
      SameEndFaults(s, Stepped(cfg, s, step));
    case Settle | Fail(_) =>
      ConcludeStep(cfg, s, step);
      SameEndFaults(s, Stepped(cfg, s, step));
    case Poll | Abort =>
      ConsumerStepEnds(cfg, s, step);
      SameEndFaults(s, Stepped(cfg, s, step));
  }

  lemma {:induction false} EveryRunEnds(cfg: Config, s: Session, steps: seq<Step>)
    requires Inv(cfg, s) && Carried(s) && Faulting(s)
    ensures Carried(From(cfg, s, steps)) && Faulting(From(cfg, s, steps))
    decreases |steps|
  {
    if steps != [] {
      InvIsBase(cfg, s);
      SessionStepKeeps(cfg, s, steps[0]);
      StepEnds(cfg, s, steps[0]);
      EveryRunEnds(cfg, Stepped(cfg, s, steps[0]), steps[1..]);
    }
  }

  lemma RunEnds(cfg: Config, steps: seq<Step>)
    requires Sane(cfg)
    ensures Carried(After(cfg, steps)) && Faulting(After(cfg, steps))
  {
    OpenKeeps(cfg);
    EveryRunEnds(cfg, Open(cfg), steps);
  }

  // ---------------------------------------------------------------------------------------------
  // What that comes to

  /** The session's fault is none exactly when nothing went wrong. */
  lemma NoFaultExactlyWhenNothingWrong(s: Session)
    requires D.Valid(s.data)
    ensures Conclusion(s).None? <==> NothingWrong(s)
  {
  }

  /** In every run, once the final drain has run, the session concludes with the fault noted first, else
      the loss latched, else the deficit held, and with none exactly when there is none of these. */
  lemma ConcludesExactlyWith(cfg: Config, steps: seq<Step>)
    requires Sane(cfg)
    ensures var s := After(cfg, steps);
            s.pc.Ran? && s.quiesced ==>
              && Stepped(cfg, s, Settle).pc == Concluding(Conclusion(s))
              && (Conclusion(s).None? <==> NothingWrong(s))
  {
    var s := After(cfg, steps);
    RunEnds(cfg, steps);
    if s.pc.Ran? && s.quiesced {
      SettlingConcludes(s);
      NoFaultExactlyWhenNothingWrong(s);
    }
  }

  /** Once the producer has concluded, a consumer that stayed is owed no fault exactly when nothing went
      wrong and every chunk was taken; else an overload if a chunk was refused, else the session's fault. */
  lemma FaultExactlyWhen(cfg: Config, steps: seq<Step>)
    requires Sane(cfg)
    ensures var s := After(cfg, steps);
            s.pc.Done? && !s.out.ring.closed ==>
              && (s.out.raised.None? <==> NothingWrong(s) && !Refused(s))
              && (if Refused(s) then Overload(s.out.raised) else s.out.raised == Conclusion(s))
  {
    RunEnds(cfg, steps);
    NoFaultExactlyWhenNothingWrong(After(cfg, steps));
  }

  /** A stream that ran to its end for a consumer that stayed ended clean exactly then. */
  lemma EndedCleanExactlyWhen(cfg: Config, steps: seq<Step>)
    requires Sane(cfg)
    ensures var s := After(cfg, steps);
            s.pc.Done? && !s.out.ring.closed && R.End in s.out.items ==>
              (EndedClean(s) <==> NothingWrong(s) && !Refused(s))
  {
    var s := After(cfg, steps);
    FaultExactlyWhen(cfg, steps);
    HealthIsTheStreamsOutcome(cfg, steps);
  }

  /** The deficit held is the account's, and there is one exactly when the balance is past the credit and
      the tolerance together. */
  lemma HeldExactlyWhenUnexplained(cfg: Config, steps: seq<Step>)
    requires Sane(cfg)
    ensures var s := After(cfg, steps);
            var rate := s.data.account.rate;
            !s.data.lost ==>
              (s.data.unconfirmed != D.NONE <==> LastDeficit(s) > C.Credit(rate, s.data.account.balance) + C.Tolerance(rate))
  {
  }

  // ---------------------------------------------------------------------------------------------
  // Health until then

  /** Bytes have been pushed to the producer. */
  ghost predicate Flowing(s: Session) {
    |s.moved| > |InHand(s.pc)|
  }

  /** A drain takes only if there is something, and an uncut capture shows itself opening until something
      was pushed, then capturing. */
  ghost predicate Showing(s: Session) {
    && (s.pc.SawSlots? ==> s.pc.slots > 0)
    && |InHand(s.pc)| <= |s.moved|
    && (s.pc.Holding? || s.pc.Entering? ==> s.pc.bytes != [])
    && (Uncut(s) && !Terminal(s.health) ==> s.health == if Flowing(s) then Capturing else Opening)
  }

  lemma DataShows(cfg: Config, s: Session, step: Step)
    requires Base(cfg, s) && Showing(s) && (step.Deliver? || step.ReadClock? || step.Account? || step.StateChange?)
    ensures Showing(Stepped(cfg, s, step))
  {
  }

  lemma ReadShows(cfg: Config, s: Session, step: Step)
    requires Base(cfg, s) && Showing(s) && (step.ReadLoss? || step.ReadSlots? || step.Take?)
    ensures Showing(Stepped(cfg, s, step))
  {
  }

  lemma EnterShows(cfg: Config, s: Session, step: Step)
    requires Base(cfg, s) && Showing(s) && (step.EnterPush? || step.Extend?)
    ensures Showing(Stepped(cfg, s, step))
  {
  }

  lemma EmitShows(cfg: Config, s: Session, step: Step)
    requires Base(cfg, s) && Showing(s) && (step.Emit? || step.Flush?)
    ensures Showing(Stepped(cfg, s, step))
  {
  }

  lemma LeaveShows(cfg: Config, s: Session, step: Step)
    requires Base(cfg, s) && Showing(s) && (step.LeavePush? || step.PublishOverload? || step.Return? || step.Quit?)
    ensures Showing(Stepped(cfg, s, step))
  {
  }

  lemma SealShows(cfg: Config, s: Session, step: Step)
    requires Base(cfg, s) && HealthAgrees(s) && Showing(s) && (step.Settle? || step.Fail? || step.ReadClosed? || step.Publish?)
    ensures Showing(Stepped(cfg, s, step))
  {
  }

  lemma RingShows(cfg: Config, s: Session, step: Step)
    requires Base(cfg, s) && Showing(s) && (step.FinishRing? || step.Poll? || step.Abort?)
    ensures Showing(Stepped(cfg, s, step))
  {
  }

  lemma StepShows(cfg: Config, s: Session, step: Step)
    requires Base(cfg, s) && HealthAgrees(s) && Showing(s)
    ensures Showing(Stepped(cfg, s, step))
  {
    match step
    case Deliver(_) | ReadClock(_) | Account | StateChange(_) => DataShows(cfg, s, step);
    case ReadLoss | ReadSlots | Take => ReadShows(cfg, s, step);
    case EnterPush | Extend => EnterShows(cfg, s, step);
    case Emit | Flush => EmitShows(cfg, s, step);
    case LeavePush | PublishOverload | Return(_) | Quit => LeaveShows(cfg, s, step);
    case Settle | Fail(_) | ReadClosed | Publish => SealShows(cfg, s, step);
    case FinishRing | Poll | Abort => RingShows(cfg, s, step);
  }

  lemma {:induction false} EveryRunShows(cfg: Config, s: Session, steps: seq<Step>)
    requires Inv(cfg, s) && Showing(s)
    ensures Showing(From(cfg, s, steps))
    decreases |steps|
  {
    if steps != [] {
      InvIsBase(cfg, s);
      SessionStepKeeps(cfg, s, steps[0]);
      StepShows(cfg, s, steps[0]);
      EveryRunShows(cfg, Stepped(cfg, s, steps[0]), steps[1..]);
    }
  }

  /** In every run, until a fault, an end or an abort, health is capturing exactly once audio has been
      pushed to the producer, and opening before. */
  lemma HealthShowsCapture(cfg: Config, steps: seq<Step>)
    requires Sane(cfg)
    ensures var s := After(cfg, steps);
            Uncut(s) && !Terminal(s.health) ==> s.health == if Flowing(s) then Capturing else Opening
  {
    OpenKeeps(cfg);
    EveryRunShows(cfg, Open(cfg), steps);
  }
}
