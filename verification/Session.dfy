/**
 One capture session: the realtime data thread, the loop thread and the consumer, interleaved
 wherever one touches what another can see. Either all audio arrives in order, or the stream ends
 with its one fault.
 */
module Session {
  import opened Prelude
  import opened Capture
  import opened Ring
  import C = Continuity
  import M = Mix
  import D = DataPath
  import L = Ledger
  import P = Producer

  datatype Config = Config(
    chunkBytes: nat,
    frameBytes: nat,
    maxBytes: nat,
    bytesPerSecond: nat,
    capacity: nat,
    mix: M.Mix,
    rate: nat)

  ghost predicate Sane(cfg: Config) {
    cfg.chunkBytes > 0 && cfg.frameBytes > 0 && M.Valid(cfg.mix)
  }

  /** Where the loop thread is. `loss` is what its current `Drain::run` read first. */
  datatype Pc =
    | Polling
    | SawLoss(loss: Option<Loss>)
    | SawSlots(loss: Option<Loss>, slots: nat)
    | Holding(loss: Option<Loss>, bytes: seq<Byte>)
    | Entering(loss: Option<Loss>, bytes: seq<Byte>)
    | Pushing(loss: Option<Loss>)
    | Ran(loss: Option<Loss>, abandoned: bool)
    | Concluding(fault: Option<CaptureError>)
    | Publishing(fault: Option<CaptureError>)
    | Sealing(fault: Option<CaptureError>, outcome: Health)
    | Finishing(fault: Option<CaptureError>)
    | Done

  /** The data thread's `process` callback under way: the buffers offered from `start` on, the frames
      counted in them, and, past its clock read, the clock and the epoch it read. `unread` counts the
      callbacks since the last report that had frames and no clock to report them by. */
  datatype Callback = Callback(start: nat, counted: nat, read: Option<(D.Clock, nat)>, unread: nat)

  /** The callback behind a report: it offered the buffers from `start` up to `end`, after `unread`
      callbacks whose clock could not be read. */
  datatype Call = Call(start: nat, end: nat, unread: nat)

  /** `offered`: every mixed buffer in order. `handed`: those the data thread wrote. `moved`: the
      bytes the loop thread has taken to the producer. `reports`: everything accounted, and `calls`
      the callback of each. `overload`: an overload the ring returned, not published yet.
      `quiesced`: `process` has returned for good. */
  datatype Session = Session(
    data: D.Data,
    callback: Callback,
    reports: seq<L.Event>,
    calls: seq<Call>,
    quiesced: bool,
    offered: seq<seq<Byte>>,
    handed: seq<seq<Byte>>,
    moved: seq<Byte>,
    pc: Pc,
    ending: Option<Ending>,
    pending: seq<Byte>,
    overload: Option<CaptureError>,
    health: Health,
    out: History)

  datatype Step =
    // the data thread
    | Deliver(samples: seq<Byte>)
    | ReadClock(clock: Option<D.Clock>)
    | Account
    // the loop thread
    | StateChange(error: Option<CaptureError>)
    | ReadLoss
    | ReadSlots
    | Take
    | EnterPush
    | Extend
    | Emit
    | PublishOverload
    | LeavePush
    | Return(tick: Option<Ending>)
    | Quit
    | Settle
    | Fail(cause: CaptureError)
    | Flush
    | ReadClosed
    | Publish
    | FinishRing
    // the consumer
    | Poll
    | Abort

  /** Between callbacks, or in one that has not counted a frame. */
  function IdleFrom(start: nat): Callback {
    Callback(start, 0, None, 0)
  }

  function Open(cfg: Config): Session {
    Session(D.New(cfg.capacity, cfg.mix, cfg.rate), IdleFrom(0), [], [], false, [], [], [], Polling, None, [],
            None, Opening, Blank(cfg.maxBytes, cfg.bytesPerSecond))
  }

  /** How the session ends: a fault already noted stands, a loss turns any other ending into one. */
  function FinalEnding(why: Option<Ending>, loss: Option<Loss>): Option<Ending> {
    if why.Some? && why.value.Fault? then why
    else if loss.Some? then Some(Fault(AudioLost(loss.value)))
    else why
  }

  function IntoFault(why: Option<Ending>): Option<CaptureError> {
    if why.Some? && why.value.Fault? then Some(why.value.error) else None
  }

  function EmitChunk(s: Session, chunk: Chunk): Session
    requires Accounted(s.out.ring)
  {
    s.(out := Applied(s.out, Push(chunk)), overload := Pushed(s.out.ring, chunk).1)
  }

  predicate Concluded(pc: Pc) {
    pc.Concluding? || pc.Publishing? || pc.Sealing? || pc.Finishing? || pc.Done?
  }

  /** A step its thread cannot take where it stands changes nothing. */
  function Stepped(cfg: Config, s: Session, step: Step): Session
    requires D.Valid(s.data) && Accounted(s.out.ring) && cfg.frameBytes > 0
  {
    match step
    case Deliver(samples) =>
      if s.quiesced || s.callback.read.Some? || samples == [] then s
      else
        var mixed := M.Mixed(s.data.mix, samples);
        s.(data := D.Delivered(s.data, samples), offered := s.offered + [mixed],
           handed := s.handed + if D.Fits(s.data, samples) then [mixed] else [],
           callback := s.callback.(counted := s.callback.counted + M.Frames(s.data.mix, samples)))
    case ReadClock(clock) =>
      if s.quiesced || s.callback.read.Some? then s
      else if s.callback.counted == 0 then s.(callback := s.callback.(start := |s.offered|))
      else if clock.None? then s.(callback := IdleFrom(|s.offered|).(unread := s.callback.unread + 1))
      else s.(callback := s.callback.(read := Some((clock.value, s.data.epoch))))
    case Account =>
      if s.quiesced || s.callback.read.None? then s
      else
        var (clock, epoch) := s.callback.read.value;
        var report := D.ReportOf(clock, s.callback.counted);
        s.(data := D.Accounted(s.data, epoch, report),
           reports := s.reports + [L.Event(epoch != s.data.seenEpoch, report)],
           calls := s.calls + [Call(s.callback.start, |s.offered|, s.callback.unread)],
           callback := IdleFrom(|s.offered|))
    case StateChange(error) =>
      if !s.pc.Polling? || s.quiesced then s
      else s.(data := s.data.(epoch := s.data.epoch + 1),
              ending := First(s.ending, if error.Some? then Some(Fault(error.value)) else None))
    case ReadLoss =>
      if s.pc.Polling? then s.(pc := SawLoss(D.ReadLoss(s.data.loss))) else s
    case ReadSlots =>
      if !s.pc.SawLoss? then s
      else if s.data.ring == [] then s.(pc := Ran(s.pc.loss, false))
      else s.(pc := SawSlots(s.pc.loss, |s.data.ring|))
    case Take =>
      if !s.pc.SawSlots? || s.pc.slots > |s.data.ring| then s
      else
        var bytes := s.data.ring[..s.pc.slots];
        s.(data := s.data.(ring := s.data.ring[s.pc.slots..]), moved := s.moved + bytes,
           pc := Holding(s.pc.loss, bytes))
    case EnterPush =>
      if !s.pc.Holding? then s
      else if Terminated(s.out.ring) then s.(pc := Ran(s.pc.loss, true))
      else s.(pc := Entering(s.pc.loss, s.pc.bytes))
    case Extend =>
      if !s.pc.Entering? then s
      else s.(pc := Pushing(s.pc.loss), pending := s.pending + s.pc.bytes, health := Published(s.health, Capturing))
    case Emit =>
      if !s.pc.Pushing? || s.overload.Some? || |s.pending| < cfg.chunkBytes then s
      else EmitChunk(s, s.pending[..cfg.chunkBytes]).(pending := s.pending[cfg.chunkBytes..])
    case PublishOverload =>
      if s.overload.None? then s
      else s.(health := Published(s.health, Faulted(s.overload.value)), overload := None)
    case LeavePush =>
      if !s.pc.Pushing? || s.overload.Some? || |s.pending| >= cfg.chunkBytes then s
      else s.(pc := Ran(s.pc.loss, Terminated(s.out.ring)))
    case Return(tick) =>
      if !s.pc.Ran? || s.quiesced then s
      else
        var abort := if s.pc.abandoned then Some(Clean) else None;
        var lost := if s.pc.loss.Some? then Some(Fault(AudioLost(s.pc.loss.value))) else None;
        s.(pc := Polling, ending := First(First(First(s.ending, abort), lost), tick))
    case Quit =>
      if s.pc.Polling? && !s.quiesced && s.callback.counted == 0 then s.(quiesced := true) else s
    case Settle =>
      if !s.pc.Ran? || !s.quiesced then s
      else
        var loss := if s.pc.loss.Some? then s.pc.loss else D.ReadUnconfirmed(s.data.unconfirmed);
        s.(pc := Concluding(IntoFault(FinalEnding(s.ending, loss))))
    case Fail(cause) =>
      if !s.pc.Polling? || s.quiesced || s.callback.counted != 0 then s
      else s.(quiesced := true, ending := Some(Fault(cause)), pc := Concluding(Some(cause)))
    case Flush =>
      if !s.pc.Concluding? || s.overload.Some? then s
      else
        var whole := P.Whole(s.pending, cfg.frameBytes);
        var flushed := if whole == [] then s else EmitChunk(s, whole);
        flushed.(pending := s.pending[|whole|..], pc := Publishing(s.pc.fault))
    case ReadClosed =>
      if !s.pc.Publishing? || s.overload.Some? then s
      else s.(pc := Sealing(s.pc.fault, P.Outcome(s.out.ring.closed, s.pc.fault)))
    case Publish =>
      if !s.pc.Sealing? then s
      else s.(health := Published(s.health, s.pc.outcome), pc := Finishing(s.pc.fault))
    case FinishRing =>
      if !s.pc.Finishing? then s else s.(out := Applied(s.out, Finish(s.pc.fault)), pc := Done)
    case Poll => s.(out := Applied(s.out, Next))
    case Abort => s.(out := Applied(s.out, Close))
  }

  // ---------------------------------------------------------------------------------------------
  // What every step keeps

  /** The loss the current drain read, once it has read one. */
  function LossRead(pc: Pc): Option<Loss> {
    match pc
    case SawLoss(l) => l
    case SawSlots(l, _) => l
    case Holding(l, _) => l
    case Entering(l, _) => l
    case Pushing(l) => l
    case Ran(l, _) => l
    case _ => None
  }

  predicate Draining(pc: Pc) {
    pc.SawLoss? || pc.SawSlots? || Drained(pc)
  }

  /** The drain has taken what it will take. */
  predicate Drained(pc: Pc) {
    pc.Holding? || pc.Entering? || pc.Pushing? || pc.Ran?
  }

  function InHand(pc: Pc): seq<Byte> {
    if pc.Holding? || pc.Entering? then pc.bytes else []
  }

  /** The data thread's audio is in order, and all there until a loss. */
  ghost predicate HandedOver(s: Session) {
    && D.Valid(s.data)
    && Concat(s.handed) == s.moved + s.data.ring
    && s.handed <= s.offered
    && (!s.data.lost ==> s.handed == s.offered)
  }

  /** A drain that read a loss, or runs after the data thread is gone, sees everything. */
  ghost predicate DrainsAll(s: Session) {
    && (Draining(s.pc) && LossRead(s.pc).Some? ==> s.data.lost)
    && (Draining(s.pc) && LossRead(s.pc).None? && s.quiesced ==> !s.data.lost)
    && (s.pc.SawSlots? ==> s.pc.slots <= |s.data.ring|)
    && (s.pc.SawSlots? && (s.pc.loss.Some? || s.quiesced) ==> s.pc.slots == |s.data.ring|)
    && (Drained(s.pc) && (LossRead(s.pc).Some? || s.quiesced) ==> s.data.ring == [])
  }

  /** Nothing was lost, and nothing is left behind. */
  ghost predicate Whole(s: Session) {
    s.quiesced && !s.data.lost && s.data.unconfirmed == D.NONE && s.data.ring == []
  }

  /** Nobody cut the stream short: it was neither aborted nor faulted. */
  ghost predicate Uncut(s: Session) {
    !s.out.ring.closed && s.out.raised.None?
  }

  /** The flush is done. */
  predicate Flushed(pc: Pc) {
    pc.Publishing? || pc.Sealing? || pc.Finishing? || pc.Done?
  }

  /** What left the data thread is what the ring accepted, then what the producer holds. */
  ghost predicate Conserved(cfg: Config, s: Session) {
    && (s.out.raised.Some? ==> s.out.ring.done)
    && Concat(s.out.accepted) <= s.moved
    && (Uncut(s) ==> Concat(s.out.accepted) + s.pending + InHand(s.pc) == s.moved)
    && (Uncut(s) && s.out.ring.done ==> s.pc.Done?)
    && (s.pc.Done? ==> s.out.ring.done)
    && (Flushed(s.pc) ==> |s.pending| < cfg.frameBytes)
    && (Concluded(s.pc) && !s.pc.Done? && s.pc.fault.None? ==> Whole(s))
    && (s.pc.Done? && Uncut(s) ==> Whole(s))
  }

  /** Health tells what the stream will, once an overload is published. */
  ghost predicate HealthAgrees(s: Session) {
    && (s.overload.Some? ==> s.out.raised == s.overload && !Terminal(s.health) && (s.pc.Pushing? || s.pc.Concluding? || s.pc.Publishing?))
    && (s.out.raised.Some? && !s.out.ring.closed ==> s.overload.Some? || s.health == Faulted(s.out.raised.value))
    && (!(s.pc.Finishing? || s.pc.Done?) && Terminal(s.health) ==>
          s.out.raised.Some? && s.health == Faulted(s.out.raised.value))
    && (s.pc.Sealing? ==> Terminal(s.pc.outcome) && (Uncut(s) ==> s.pc.outcome == P.Outcome(false, s.pc.fault)))
    && (s.pc.Finishing? && Uncut(s) ==> s.health == P.Outcome(false, s.pc.fault))
    && (s.pc.Done? && Uncut(s) ==> s.health == Ended)
  }

  ghost predicate Inv(cfg: Config, s: Session) {
    && Sane(cfg)
    && Kept(s.out)
    && HandedOver(s) && DrainsAll(s) && Conserved(cfg, s) && HealthAgrees(s)
  }

  lemma DeliveryHandsOver(s: Session, d: D.Data, mixed: seq<Byte>, fits: bool)
    requires HandedOver(s) && D.Valid(d)
    requires fits ==> d.ring == s.data.ring + mixed && !s.data.lost && !d.lost
    requires !fits ==> d.ring == s.data.ring && d.lost
    ensures HandedOver(s.(data := d, offered := s.offered + [mixed], handed := s.handed + if fits then [mixed] else []))
  {
    ConcatAppend(s.handed, mixed);
    assert s.moved + (s.data.ring + mixed) == (s.moved + s.data.ring) + mixed;
    assert s.handed + [] == s.handed;
  }

  /** The data thread's next state, whatever it is, as long as a buffer goes over whole or is lost. */
  lemma DeliveryKeeps(cfg: Config, s: Session, d: D.Data, mixed: seq<Byte>, fits: bool, callback: Callback)
    requires Inv(cfg, s) && !s.quiesced && D.Valid(d)
    requires fits ==> d.ring == s.data.ring + mixed && !s.data.lost && !d.lost
    requires !fits ==> d.ring == s.data.ring && d.lost
    ensures Inv(cfg, s.(data := d, offered := s.offered + [mixed], handed := s.handed + if fits then [mixed] else [],
                        callback := callback))
  {
    DeliveryHandsOver(s, d, mixed, fits);
  }

  lemma AccountingKeeps(cfg: Config, s: Session, d: D.Data, reports: seq<L.Event>, calls: seq<Call>, callback: Callback)
    requires Inv(cfg, s) && !s.quiesced
    requires D.Valid(d) && d.ring == s.data.ring && (s.data.lost ==> d.lost)
    ensures Inv(cfg, s.(data := d, reports := reports, calls := calls, callback := callback))
  {
  }

  lemma AccountKeeps(cfg: Config, s: Session)
    requires Inv(cfg, s) && !s.quiesced && s.callback.read.Some?
    ensures Inv(cfg, Stepped(cfg, s, Account))
  {
    var (clock, epoch) := s.callback.read.value;
    var report := D.ReportOf(clock, s.callback.counted);
    D.AccountedMovesNothing(s.data, epoch, report);
    AccountingKeeps(cfg, s, D.Accounted(s.data, epoch, report), s.reports + [L.Event(epoch != s.data.seenEpoch, report)],
                    s.calls + [Call(s.callback.start, |s.offered|, s.callback.unread)], IdleFrom(|s.offered|));
  }

  lemma CallbackKeeps(cfg: Config, s: Session, callback: Callback)
    requires Inv(cfg, s)
    ensures Inv(cfg, s.(callback := callback))
  {
  }

  lemma ReadClockStep(cfg: Config, s: Session, clock: Option<D.Clock>)
    requires D.Valid(s.data) && Accounted(s.out.ring) && cfg.frameBytes > 0
    ensures Stepped(cfg, s, ReadClock(clock)) == s.(callback := Stepped(cfg, s, ReadClock(clock)).callback)
  {
  }

  lemma DataKeeps(cfg: Config, s: Session, step: Step)
    requires Inv(cfg, s) && (step.Deliver? || step.ReadClock? || step.Account?)
    ensures Inv(cfg, Stepped(cfg, s, step))
  {
    match step
    case Deliver(samples) =>
      DeliveredWholeOrNot(cfg, s, samples);
    case ReadClock(clock) =>
      ReadClockStep(cfg, s, clock);
      CallbackKeeps(cfg, s, Stepped(cfg, s, step).callback);
    case Account =>
      if !s.quiesced && s.callback.read.Some? {
        AccountKeeps(cfg, s);
      }
  }

  lemma DeliveredWholeOrNot(cfg: Config, s: Session, samples: seq<Byte>)
    requires Inv(cfg, s)
    ensures Inv(cfg, Stepped(cfg, s, Deliver(samples)))
  {
    if !s.quiesced && s.callback.read.None? && samples != [] {
      var fits, mixed := D.Fits(s.data, samples), M.Mixed(s.data.mix, samples);
      D.DeliveredWholeOrNotAtAll(s.data, samples);
      DeliveryKeeps(cfg, s, D.Delivered(s.data, samples), mixed, fits,
                    s.callback.(counted := s.callback.counted + M.Frames(s.data.mix, samples)));
    }
  }

  predicate DrainStep(step: Step) {
    step.ReadLoss? || step.ReadSlots? || step.Take? || step.EnterPush? || step.Extend? || step.LeavePush?
  }

  lemma TakeKeeps(s: Session, d: D.Data, n: nat)
    requires HandedOver(s) && DrainsAll(s) && s.pc.SawSlots? && s.pc.slots == n <= |s.data.ring|
    requires d == s.data.(ring := s.data.ring[n..])
    ensures HandedOver(s.(data := d, moved := s.moved + s.data.ring[..n], pc := Holding(s.pc.loss, s.data.ring[..n])))
    ensures DrainsAll(s.(data := d, moved := s.moved + s.data.ring[..n], pc := Holding(s.pc.loss, s.data.ring[..n])))
  {
    assert s.data.ring == s.data.ring[..n] + s.data.ring[n..];
    assert s.moved + s.data.ring == (s.moved + s.data.ring[..n]) + s.data.ring[n..];
  }

  lemma ReadsKeep(cfg: Config, s: Session, step: Step)
    requires HandedOver(s) && DrainsAll(s) && Accounted(s.out.ring) && cfg.frameBytes > 0
    requires step.ReadLoss? || step.ReadSlots?
    ensures HandedOver(Stepped(cfg, s, step)) && DrainsAll(Stepped(cfg, s, step))
  {
  }

  /** Once the slots are taken, the drain is past all it shares with the data thread. */
  lemma PassingOnKeeps(s: Session, pc: Pc, pending: seq<Byte>, health: Health)
    requires HandedOver(s) && DrainsAll(s) && Drained(s.pc) && Drained(pc) && LossRead(pc) == LossRead(s.pc)
    ensures HandedOver(s.(pc := pc, pending := pending, health := health))
    ensures DrainsAll(s.(pc := pc, pending := pending, health := health))
  {
  }

  lemma PushStep(cfg: Config, s: Session, step: Step)
    requires D.Valid(s.data) && Accounted(s.out.ring) && cfg.frameBytes > 0
    requires step.EnterPush? || step.Extend? || step.LeavePush?
    ensures var t := Stepped(cfg, s, step);
            && t == s.(pc := t.pc, pending := t.pending, health := t.health)
            && (t == s || (Drained(s.pc) && Drained(t.pc) && LossRead(t.pc) == LossRead(s.pc)))
  {
  }

  lemma DrainKeeps(cfg: Config, s: Session, step: Step)
    requires HandedOver(s) && DrainsAll(s) && Accounted(s.out.ring) && cfg.frameBytes > 0
    requires DrainStep(step)
    ensures HandedOver(Stepped(cfg, s, step)) && DrainsAll(Stepped(cfg, s, step))
  {
    if step.Take? {
      if s.pc.SawSlots? {
        TakeKeeps(s, s.data.(ring := s.data.ring[s.pc.slots..]), s.pc.slots);
      }
    } else if step.ReadLoss? || step.ReadSlots? {
      ReadsKeep(cfg, s, step);
    } else {
      PushStep(cfg, s, step);
      var t := Stepped(cfg, s, step);
      if t != s {
        PassingOnKeeps(s, t.pc, t.pending, t.health);
      }
    }
  }

  lemma TakeConserves(cfg: Config, s: Session, d: D.Data, bytes: seq<Byte>)
    requires Conserved(cfg, s) && s.pc.SawSlots?
    ensures Conserved(cfg, s.(data := d, moved := s.moved + bytes, pc := Holding(s.pc.loss, bytes)))
  {
  }

  lemma EnteringConserves(cfg: Config, s: Session)
    requires Conserved(cfg, s) && s.pc.Holding?
    ensures Conserved(cfg, s.(pc := if Terminated(s.out.ring) then Ran(s.pc.loss, true) else Entering(s.pc.loss, s.pc.bytes)))
  {
  }

  lemma ExtendConserves(cfg: Config, s: Session, health: Health)
    requires Conserved(cfg, s) && s.pc.Entering?
    ensures Conserved(cfg, s.(pc := Pushing(s.pc.loss), pending := s.pending + s.pc.bytes, health := health))
  {
    assert Concat(s.out.accepted) + (s.pending + s.pc.bytes) == Concat(s.out.accepted) + s.pending + s.pc.bytes;
    assert Concat(s.out.accepted) + (s.pending + s.pc.bytes) + [] == Concat(s.out.accepted) + (s.pending + s.pc.bytes);
  }

  lemma DrainConserves(cfg: Config, s: Session, step: Step)
    requires D.Valid(s.data) && Conserved(cfg, s) && Accounted(s.out.ring) && cfg.frameBytes > 0
    requires DrainStep(step)
    ensures Conserved(cfg, Stepped(cfg, s, step))
  {
    if step.Take? && s.pc.SawSlots? && s.pc.slots <= |s.data.ring| {
      TakeConserves(cfg, s, s.data.(ring := s.data.ring[s.pc.slots..]), s.data.ring[..s.pc.slots]);
    } else if step.EnterPush? && s.pc.Holding? {
      EnteringConserves(cfg, s);
    } else if step.Extend? && s.pc.Entering? {
      ExtendConserves(cfg, s, Published(s.health, Capturing));
    }
  }

  /** Handing the ring the front of what is pending keeps the audio in one piece. */
  lemma EmitConserves(cfg: Config, s: Session, n: nat)
    requires Conserved(cfg, s) && Accounted(s.out.ring) && n <= |s.pending|
    requires s.pc.Pushing? || s.pc.Concluding?
    ensures Conserved(cfg, EmitChunk(s, s.pending[..n]).(pending := s.pending[n..]))
  {
    var sent, chunk, rest := Concat(s.out.accepted), s.pending[..n], s.pending[n..];
    ConcatAppend(s.out.accepted, chunk);
    assert s.pending == chunk + rest;
    assert sent + s.pending == (sent + chunk) + rest;
    assert s.out.accepted + [] == s.out.accepted;
  }

  lemma EmitKeeps(cfg: Config, s: Session, n: nat)
    requires Inv(cfg, s) && n <= |s.pending| && s.overload.None? && (s.pc.Pushing? || s.pc.Concluding?)
    ensures Inv(cfg, EmitChunk(s, s.pending[..n]).(pending := s.pending[n..]))
  {
    StepKeeps(s.out, Push(s.pending[..n]));
    EmitConserves(cfg, s, n);
  }

  lemma ReturnConserves(cfg: Config, s: Session, step: Step)
    requires HandedOver(s) && DrainsAll(s) && Conserved(cfg, s) && Accounted(s.out.ring) && cfg.frameBytes > 0
    requires step.Return? || step.Quit?
    ensures Conserved(cfg, Stepped(cfg, s, step)) && DrainsAll(Stepped(cfg, s, step))
  {
  }

  lemma SettleConserves(cfg: Config, s: Session, step: Step)
    requires HandedOver(s) && DrainsAll(s) && Conserved(cfg, s) && Accounted(s.out.ring) && cfg.frameBytes > 0
    requires step.Settle? || step.Fail?
    ensures Conserved(cfg, Stepped(cfg, s, step)) && DrainsAll(Stepped(cfg, s, step))
  {
  }

  lemma ControlHealth(cfg: Config, s: Session, step: Step)
    requires HandedOver(s) && HealthAgrees(s) && Accounted(s.out.ring) && cfg.frameBytes > 0
    requires step.Return? || step.Quit? || step.Settle? || step.Fail?
    ensures HandedOver(Stepped(cfg, s, step)) && HealthAgrees(Stepped(cfg, s, step)) && Stepped(cfg, s, step).out == s.out
  {
  }

  lemma PublishingKeeps(cfg: Config, s: Session)
    requires Inv(cfg, s) && s.pc.Concluding? && |s.pending| < cfg.frameBytes
    ensures Inv(cfg, s.(pc := Publishing(s.pc.fault)))
  {
  }

  /** Flushing all but less than a frame keeps everything. */
  lemma FlushingKeeps(cfg: Config, s: Session, n: nat)
    requires Inv(cfg, s) && s.pc.Concluding? && s.overload.None? && n <= |s.pending| < n + cfg.frameBytes
    ensures Inv(cfg, (if n == 0 then s else EmitChunk(s, s.pending[..n])).(pending := s.pending[n..], pc := Publishing(s.pc.fault)))
  {
    var t := (if n == 0 then s else EmitChunk(s, s.pending[..n])).(pending := s.pending[n..]);
    if n == 0 {
      assert s.pending[n..] == s.pending;
      assert t == s;
    } else {
      EmitKeeps(cfg, s, n);
    }
    PublishingKeeps(cfg, t);
  }

  lemma FlushKeeps(cfg: Config, s: Session)
    requires Inv(cfg, s) && s.pc.Concluding? && s.overload.None?
    ensures Inv(cfg, Stepped(cfg, s, Flush))
  {
    var whole := P.Whole(s.pending, cfg.frameBytes);
    assert whole == s.pending[..|whole|];
    FlushingKeeps(cfg, s, |whole|);
  }

  lemma OverloadKeeps(cfg: Config, s: Session)
    requires Inv(cfg, s) && s.overload.Some?
    ensures Inv(cfg, s.(health := Published(s.health, Faulted(s.overload.value)), overload := None))
  {
  }

  lemma SealingKeeps(cfg: Config, s: Session)
    requires Inv(cfg, s) && s.pc.Publishing? && s.overload.None?
    ensures Inv(cfg, s.(pc := Sealing(s.pc.fault, P.Outcome(s.out.ring.closed, s.pc.fault))))
  {
  }

  lemma PublishKeeps(cfg: Config, s: Session)
    requires Inv(cfg, s) && s.pc.Sealing?
    ensures Inv(cfg, s.(health := Published(s.health, s.pc.outcome), pc := Finishing(s.pc.fault)))
  {
  }

  lemma FinishKeeps(cfg: Config, s: Session)
    requires Inv(cfg, s) && s.pc.Finishing?
    ensures Inv(cfg, Stepped(cfg, s, FinishRing))
  {
    StepKeeps(s.out, Finish(s.pc.fault));
  }

  /** Whatever the consumer takes, as long as it only takes. */
  lemma TakingKeeps(cfg: Config, s: Session, out: History)
    requires Inv(cfg, s) && Kept(out)
    requires out.accepted == s.out.accepted && out.raised == s.out.raised && out.ring.done == s.out.ring.done
    requires s.out.ring.closed ==> out.ring.closed
    ensures Inv(cfg, s.(out := out))
  {
  }

  lemma TakesOnly(h: History, op: Op)
    requires Kept(h) && (op.Next? || op.Close?)
    ensures var out := Applied(h, op);
            && Kept(out) && out.accepted == h.accepted && out.raised == h.raised
            && out.ring.done == h.ring.done && (h.ring.closed ==> out.ring.closed)
  {
    StepKeeps(h, op);
  }

  lemma ConsumerStep(cfg: Config, s: Session, step: Step)
    requires D.Valid(s.data) && Accounted(s.out.ring) && cfg.frameBytes > 0 && (step.Poll? || step.Abort?)
    ensures Stepped(cfg, s, step) == s.(out := Applied(s.out, if step.Poll? then Next else Close))
  {
  }

  lemma ConsumerKeeps(cfg: Config, s: Session, step: Step)
    requires Inv(cfg, s) && (step.Poll? || step.Abort?)
    ensures Inv(cfg, Stepped(cfg, s, step))
  {
    var out := Applied(s.out, if step.Poll? then Next else Close);
    ConsumerStep(cfg, s, step);
    TakesOnly(s.out, if step.Poll? then Next else Close);
    TakingKeeps(cfg, s, out);
  }

  lemma DrainHealth(cfg: Config, s: Session, step: Step)
    requires D.Valid(s.data) && HealthAgrees(s) && Accounted(s.out.ring) && cfg.frameBytes > 0
    requires DrainStep(step)
    ensures HealthAgrees(Stepped(cfg, s, step)) && Stepped(cfg, s, step).out == s.out
  {
  }

  lemma DrainStepKeeps(cfg: Config, s: Session, step: Step)
    requires Inv(cfg, s)
    requires DrainStep(step)
    ensures Inv(cfg, Stepped(cfg, s, step))
  {
    DrainKeeps(cfg, s, step);
    DrainConserves(cfg, s, step);
    DrainHealth(cfg, s, step);
  }

  lemma ControlKeeps(cfg: Config, s: Session, step: Step)
    requires Inv(cfg, s) && (step.StateChange? || step.Return? || step.Quit? || step.Settle? || step.Fail?)
    ensures Inv(cfg, Stepped(cfg, s, step))
  {
    if !step.StateChange? {
      ControlHealth(cfg, s, step);
      if step.Return? || step.Quit? {
        ReturnConserves(cfg, s, step);
      } else {
        SettleConserves(cfg, s, step);
      }
    }
  }

  lemma EmissionKeeps(cfg: Config, s: Session, step: Step)
    requires Inv(cfg, s) && (step.Emit? || step.PublishOverload? || step.Flush?)
    ensures Inv(cfg, Stepped(cfg, s, step))
  {
    if step.Emit? && s.pc.Pushing? && s.overload.None? && |s.pending| >= cfg.chunkBytes {
      EmitKeeps(cfg, s, cfg.chunkBytes);
    } else if step.PublishOverload? && s.overload.Some? {
      OverloadKeeps(cfg, s);
    } else if step.Flush? && s.pc.Concluding? && s.overload.None? {
      FlushKeeps(cfg, s);
    }
  }

  lemma ConclusionKeeps(cfg: Config, s: Session, step: Step)
    requires Inv(cfg, s) && (step.ReadClosed? || step.Publish? || step.FinishRing?)
    ensures Inv(cfg, Stepped(cfg, s, step))
  {
    if step.ReadClosed? && s.pc.Publishing? && s.overload.None? {
      SealingKeeps(cfg, s);
    } else if step.Publish? && s.pc.Sealing? {
      PublishKeeps(cfg, s);
    } else if step.FinishRing? && s.pc.Finishing? {
      FinishKeeps(cfg, s);
    }
  }

  lemma SessionStepKeeps(cfg: Config, s: Session, step: Step)
    requires Inv(cfg, s)
    ensures Inv(cfg, Stepped(cfg, s, step))
  {
    match step
    case Deliver(_) | ReadClock(_) | Account => DataKeeps(cfg, s, step);
    case StateChange(_) | Return(_) | Quit | Settle | Fail(_) => ControlKeeps(cfg, s, step);
    case ReadLoss | ReadSlots | Take | EnterPush | Extend | LeavePush => DrainStepKeeps(cfg, s, step);
    case Emit | PublishOverload | Flush => EmissionKeeps(cfg, s, step);
    case ReadClosed | Publish | FinishRing => ConclusionKeeps(cfg, s, step);
    case Poll | Abort => ConsumerKeeps(cfg, s, step);
  }

  lemma OpenKeeps(cfg: Config)
    requires Sane(cfg)
    ensures Inv(cfg, Open(cfg))
  {
    BlankKept(cfg.maxBytes, cfg.bytesPerSecond);
  }

  // ---------------------------------------------------------------------------------------------
  // Every run

  /** The session these steps, in this order, of whichever threads, take `s` to. */
  ghost function From(cfg: Config, s: Session, steps: seq<Step>): (t: Session)
    requires Inv(cfg, s)
    ensures Inv(cfg, t)
    decreases |steps|
  {
    if steps == [] then s
    else
      SessionStepKeeps(cfg, s, steps[0]);
      From(cfg, Stepped(cfg, s, steps[0]), steps[1..])
  }

  lemma FromCons(cfg: Config, s: Session, step: Step, rest: seq<Step>)
    requires Inv(cfg, s)
    ensures Inv(cfg, Stepped(cfg, s, step))
    ensures From(cfg, s, [step] + rest) == From(cfg, Stepped(cfg, s, step), rest)
  {
    SessionStepKeeps(cfg, s, step);
    assert ([step] + rest)[1..] == rest;
  }

  /** The session after these steps. */
  ghost function After(cfg: Config, steps: seq<Step>): (s: Session)
    requires Sane(cfg)
    ensures Inv(cfg, s)
  {
    OpenKeeps(cfg);
    From(cfg, Open(cfg), steps)
  }

  /** The audio the consumer has received. */
  ghost function Heard(s: Session): seq<Byte> {
    Concat(Received(s.out.items))
  }

  /** The consumer stayed, the stream ended, and brought no fault. */
  ghost predicate EndedClean(s: Session) {
    End in s.out.items && !s.out.ring.closed && forall e :: Err(e) !in s.out.items
  }

  /** The deficit the account was left with, in frames. */
  ghost function LastDeficit(s: Session): real {
    s.data.account.balance.owed
  }

  lemma {:induction false} PrefixConcat(xs: seq<seq<Byte>>, ys: seq<seq<Byte>>)
    requires xs <= ys
    ensures Concat(xs) <= Concat(ys)
  {
    ConcatPrefix(ys, |xs|);
    assert ys[..|xs|] == xs;
  }

  /** Never out of order, never made up: in every interleaving, what the consumer has heard is a
      prefix of the audio offered. */
  lemma HeardIsPrefixOfOffered(cfg: Config, steps: seq<Step>)
    requires Sane(cfg)
    ensures var s := After(cfg, steps); Heard(s) <= Concat(s.offered)
  {
    var s := After(cfg, steps);
    PrefixConcat(Received(s.out.items), s.out.accepted);
    PrefixConcat(s.handed, s.offered);
  }

  /** Never silently dropped: a stream that ended for a consumer that stayed, with no fault, brought
      it all the audio but a trailing partial frame; no loss was ever latched, and the account's
      last deficit is within one cycle of phase (at least the tolerance) and the tolerance. */
  lemma CleanEndHeardEverything(cfg: Config, steps: seq<Step>)
    requires Sane(cfg)
    ensures var s := After(cfg, steps);
            EndedClean(s) ==>
              && Heard(s) <= Concat(s.offered) && |Concat(s.offered)| - |Heard(s)| < cfg.frameBytes
              && !s.data.lost && s.data.loss == D.NONE
              && LastDeficit(s) <= C.Credit(s.data.account.rate, s.data.account.balance)
                                   + C.Tolerance(s.data.account.rate)
  {
    var s := After(cfg, steps);
    if EndedClean(s) {
      var i :| 0 <= i < |s.out.items| && s.out.items[i] == End;
      assert Over(s.out.items);
      assert s.out.raised.None?;
      assert Received(s.out.items) + s.out.ring.queue == Received(s.out.items);
      assert Heard(s) + s.pending + [] == s.moved;
      assert s.moved + [] == s.moved;
    }
  }

  /** The data thread's last words are heard: whenever a drain has read a loss and taken what was
      there, every byte ever handed over is with the producer, wherever the data thread's steps fell
      between the two reads. */
  lemma DrainWithLossTookEverything(cfg: Config, steps: seq<Step>)
    requires Sane(cfg)
    ensures var s := After(cfg, steps);
            Drained(s.pc) && LossRead(s.pc).Some? ==>
              s.data.ring == [] && s.moved == Concat(s.handed) && s.data.lost
  {
    var s := After(cfg, steps);
    assert s.moved + [] == s.moved;
  }

  lemma StepKeepsLoss(cfg: Config, s: Session, step: Step)
    requires D.Valid(s.data) && Accounted(s.out.ring) && cfg.frameBytes > 0 && s.data.lost
    ensures Stepped(cfg, s, step).data.lost && Stepped(cfg, s, step).data.loss == s.data.loss
    ensures Stepped(cfg, s, step).handed == s.handed
  {
    match step
    case Deliver(samples) => D.DeliveredWholeOrNotAtAll(s.data, samples);
    case Account =>
      if s.callback.read.Some? {
        var (clock, epoch) := s.callback.read.value;
        D.AccountedMovesNothing(s.data, epoch, D.ReportOf(clock, s.callback.counted));
      }
    case _ =>
  }

  /** The first loss is the one reported: from any reachable session on, nothing replaces it and
      nothing is handed over after it. */
  lemma {:induction false} FirstLossStays(cfg: Config, s: Session, steps: seq<Step>)
    requires Inv(cfg, s) && s.data.lost
    ensures From(cfg, s, steps).data.lost && From(cfg, s, steps).data.loss == s.data.loss
    ensures From(cfg, s, steps).handed == s.handed
    decreases |steps|
  {
    if steps != [] {
      SessionStepKeeps(cfg, s, steps[0]);
      StepKeepsLoss(cfg, s, steps[0]);
      FirstLossStays(cfg, Stepped(cfg, s, steps[0]), steps[1..]);
    }
  }

  /** Once the producer has concluded with the consumer attached, health and stream agree on how it
      went, whatever the order of overload, flush, finish and drop. */
  lemma HealthIsTheStreamsOutcome(cfg: Config, steps: seq<Step>)
    requires Sane(cfg)
    ensures var s := After(cfg, steps);
            s.pc.Done? && !s.out.ring.closed ==>
              && (forall e :: s.health == Faulted(e) <==> s.out.raised == Some(e))
              && (s.health == Ended <==> s.out.raised == None)
              && (End in s.out.items ==> forall e :: s.health == Faulted(e) <==> Err(e) in s.out.items)
  {
    var s := After(cfg, steps);
    if End in s.out.items {
      var i :| 0 <= i < |s.out.items| && s.out.items[i] == End;
      assert Over(s.out.items);
    }
  }

  lemma StepKeepsTerminalHealth(cfg: Config, s: Session, step: Step)
    requires D.Valid(s.data) && Accounted(s.out.ring) && cfg.frameBytes > 0 && Terminal(s.health)
    ensures Stepped(cfg, s, step).health == s.health
  {
  }

  /** A terminal health is never left. */
  lemma {:induction false} TerminalHealthStays(cfg: Config, s: Session, steps: seq<Step>)
    requires Inv(cfg, s) && Terminal(s.health)
    ensures From(cfg, s, steps).health == s.health
    decreases |steps|
  {
    if steps != [] {
      SessionStepKeeps(cfg, s, steps[0]);
      StepKeepsTerminalHealth(cfg, s, steps[0]);
      TerminalHealthStays(cfg, Stepped(cfg, s, steps[0]), steps[1..]);
    }
  }
}
