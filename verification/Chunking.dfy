/**
 The chunks a session hands its consumer: those of the producer's emission, whatever the split into
 stream buffers, drains and polls.
 */
module Chunking {
  import opened Prelude
  import opened Capture
  import R = Ring
  import D = DataPath
  import P = Producer
  import opened Session

  ghost function Emission(cfg: Config, audio: seq<Byte>): seq<Chunk>
    requires Sane(cfg)
  {
    P.Emission(audio, cfg.chunkBytes, cfg.frameBytes)
  }

  /** Before the flush the ring has accepted full chunks only; after it, a front of the emission, and
      all of it unless something cut the stream short. */
  ghost predicate Chunked(cfg: Config, s: Session)
    requires Sane(cfg)
  {
    && (!s.pc.Pushing? ==> |s.pending| < cfg.chunkBytes)
    && (!Flushed(s.pc) ==> P.AllFull(s.out.accepted, cfg.chunkBytes))
    && (Flushed(s.pc) ==> s.out.accepted <= Emission(cfg, s.moved))
    && (Flushed(s.pc) && Uncut(s) ==> s.out.accepted == Emission(cfg, s.moved))
  }

  lemma FullChunksOpenEmission(cfg: Config, accepted: seq<Chunk>, moved: seq<Byte>)
    requires Sane(cfg) && P.AllFull(accepted, cfg.chunkBytes) && Concat(accepted) <= moved
    ensures accepted <= Emission(cfg, moved)
  {
    var sent := |Concat(accepted)|;
    assert moved == Concat(accepted) + moved[sent..];
    P.FullChunksLead(accepted, moved[sent..], cfg.chunkBytes);
  }

  lemma FullChunksAndRest(cfg: Config, accepted: seq<Chunk>, pending: seq<Byte>)
    requires Sane(cfg) && P.AllFull(accepted, cfg.chunkBytes) && |pending| < cfg.chunkBytes
    ensures var last := P.Whole(pending, cfg.frameBytes);
            Emission(cfg, Concat(accepted) + pending) == accepted + if last == [] then [] else [last]
  {
    P.FullChunksLead(accepted, pending, cfg.chunkBytes);
    assert accepted + [] == accepted;
  }

  lemma EmitChunks(cfg: Config, s: Session)
    requires Inv(cfg, s) && Chunked(cfg, s) && s.pc.Pushing? && s.overload.None? && |s.pending| >= cfg.chunkBytes
    ensures Chunked(cfg, Stepped(cfg, s, Emit))
  {
  }

  lemma FlushStep(cfg: Config, s: Session)
    requires Inv(cfg, s) && s.pc.Concluding? && s.overload.None?
    ensures var last := P.Whole(s.pending, cfg.frameBytes);
            var t := Stepped(cfg, s, Flush);
            && t.pc == Publishing(s.pc.fault) && t.moved == s.moved && |t.pending| <= |s.pending|
            && t.out.accepted == s.out.accepted + (if last != [] && R.Accepts(s.out.ring, last) then [last] else [])
            && (Uncut(t) ==> Uncut(s) && (last == [] || R.Accepts(s.out.ring, last)))
            && (!Uncut(s) ==> !R.Accepts(s.out.ring, last))
  {
  }

  lemma FlushChunks(cfg: Config, s: Session)
    requires Inv(cfg, s) && Chunked(cfg, s) && s.pc.Concluding? && s.overload.None?
    ensures Chunked(cfg, Stepped(cfg, s, Flush))
  {
    FlushStep(cfg, s);
    FullChunksOpenEmission(cfg, s.out.accepted, s.moved);
    if Uncut(s) {
      FullChunksAndRest(cfg, s.out.accepted, s.pending);
      assert Concat(s.out.accepted) + s.pending + [] == Concat(s.out.accepted) + s.pending;
    }
  }

  /** Nothing but an emit or the flush changes what the ring has accepted. */
  ghost predicate LeavesChunks(cfg: Config, s: Session, t: Session) {
    && t.out.accepted == s.out.accepted
    && (t.moved == s.moved || !(Flushed(s.pc) || Flushed(t.pc)))
    && (Flushed(t.pc) <==> Flushed(s.pc))
    && (Uncut(t) ==> Uncut(s))
    && (!t.pc.Pushing? ==> t.pending == s.pending && (s.pc.Pushing? ==> |s.pending| < cfg.chunkBytes))
  }

  ghost predicate Steady(cfg: Config, s: Session) {
    D.Valid(s.data) && R.Accounted(s.out.ring) && cfg.frameBytes > 0 && (s.out.raised.Some? ==> s.out.ring.done)
  }

  lemma DataLeavesChunks(cfg: Config, s: Session, step: Step)
    requires Steady(cfg, s) && (step.Deliver? || step.ReadClock? || step.Account? || step.StateChange? || step.ReadLoss? || step.ReadSlots?)
    ensures LeavesChunks(cfg, s, Stepped(cfg, s, step))
  {
  }

  lemma DrainLeavesChunks(cfg: Config, s: Session, step: Step)
    requires Steady(cfg, s)
    requires step.Take? || step.EnterPush? || step.Extend? || step.PublishOverload? || step.LeavePush? || step.Return?
    ensures LeavesChunks(cfg, s, Stepped(cfg, s, step))
  {
  }

  lemma EndLeavesChunks(cfg: Config, s: Session, step: Step)
    requires Steady(cfg, s)
    requires step.Quit? || step.Settle? || step.Fail? || step.ReadClosed? || step.Publish?
    ensures LeavesChunks(cfg, s, Stepped(cfg, s, step))
  {
  }

  lemma RingLeavesChunks(cfg: Config, s: Session, step: Step)
    requires Steady(cfg, s) && (step.FinishRing? || step.Poll? || step.Abort?)
    ensures LeavesChunks(cfg, s, Stepped(cfg, s, step))
  {
  }

  lemma OtherStepsLeaveChunks(cfg: Config, s: Session, step: Step)
    requires Steady(cfg, s) && !step.Emit? && !step.Flush?
    ensures LeavesChunks(cfg, s, Stepped(cfg, s, step))
  {
    match step
    case Deliver(_) | ReadClock(_) | Account | StateChange(_) | ReadLoss | ReadSlots => DataLeavesChunks(cfg, s, step);
    case Take | EnterPush | Extend | PublishOverload | LeavePush | Return(_) => DrainLeavesChunks(cfg, s, step);
    case Quit | Settle | Fail(_) | ReadClosed | Publish => EndLeavesChunks(cfg, s, step);
    case FinishRing | Poll | Abort => RingLeavesChunks(cfg, s, step);
  }

  lemma LeavingKeepsChunks(cfg: Config, s: Session, t: Session)
    requires Sane(cfg) && Chunked(cfg, s) && LeavesChunks(cfg, s, t)
    ensures Chunked(cfg, t)
  {
  }

  lemma IdleEmission(cfg: Config, s: Session, step: Step)
    requires Steady(cfg, s)
    requires if step.Emit? then !s.pc.Pushing? || s.overload.Some? || |s.pending| < cfg.chunkBytes
             else step.Flush? && (!s.pc.Concluding? || s.overload.Some?)
    ensures Stepped(cfg, s, step) == s
  {
  }

  lemma EmissionChunks(cfg: Config, s: Session, step: Step)
    requires Inv(cfg, s) && Chunked(cfg, s) && (step.Emit? || step.Flush?)
    ensures Chunked(cfg, Stepped(cfg, s, step))
  {
    if step.Emit? && s.pc.Pushing? && s.overload.None? && |s.pending| >= cfg.chunkBytes {
      EmitChunks(cfg, s);
    } else if step.Flush? && s.pc.Concluding? && s.overload.None? {
      FlushChunks(cfg, s);
    } else {
      IdleEmission(cfg, s, step);
    }
  }

  lemma StepChunks(cfg: Config, s: Session, step: Step)
    requires Inv(cfg, s) && Chunked(cfg, s)
    ensures Chunked(cfg, Stepped(cfg, s, step))
  {
    if step.Emit? || step.Flush? {
      EmissionChunks(cfg, s, step);
    } else {
      OtherStepsLeaveChunks(cfg, s, step);
      LeavingKeepsChunks(cfg, s, Stepped(cfg, s, step));
    }
  }

  lemma {:induction false} EveryRunChunked(cfg: Config, s: Session, steps: seq<Step>)
    requires Inv(cfg, s) && Chunked(cfg, s)
    ensures Chunked(cfg, From(cfg, s, steps))
    decreases |steps|
  {
    if steps != [] {
      SessionStepKeeps(cfg, s, steps[0]);
      StepChunks(cfg, s, steps[0]);
      EveryRunChunked(cfg, Stepped(cfg, s, steps[0]), steps[1..]);
    }
  }

  /** In every interleaving the consumer receives, chunk for chunk, a front of the emission of what
      the loop thread moved. */
  lemma ReceivedIsFrontOfEmission(cfg: Config, steps: seq<Step>)
    requires Sane(cfg)
    ensures var s := After(cfg, steps);
            R.Received(s.out.items) <= s.out.accepted <= Emission(cfg, s.moved)
  {
    var s := After(cfg, steps);
    OpenKeeps(cfg);
    EveryRunChunked(cfg, Open(cfg), steps);
    if !Flushed(s.pc) {
      FullChunksOpenEmission(cfg, s.out.accepted, s.moved);
    }
  }

  lemma EndedCleanIsWhole(cfg: Config, s: Session)
    requires Inv(cfg, s) && EndedClean(s)
    ensures Uncut(s) && s.pc.Done? && R.Received(s.out.items) == s.out.accepted && s.moved == Concat(s.offered)
  {
    var i :| 0 <= i < |s.out.items| && s.out.items[i] == R.End;
    assert R.Over(s.out.items);
    assert s.out.raised.None?;
    assert R.Received(s.out.items) + s.out.ring.queue == R.Received(s.out.items);
    assert s.moved + [] == s.moved;
  }

  /** A stream that ended clean is the emission of all the audio offered, so its chunks depend on that
      audio alone. */
  lemma CleanStreamIsTheEmission(cfg: Config, steps: seq<Step>)
    requires Sane(cfg)
    ensures var s := After(cfg, steps);
            EndedClean(s) ==> R.Received(s.out.items) == Emission(cfg, Concat(s.offered))
  {
    var s := After(cfg, steps);
    OpenKeeps(cfg);
    EveryRunChunked(cfg, Open(cfg), steps);
    if EndedClean(s) {
      EndedCleanIsWhole(cfg, s);
    }
  }

  /** Every chunk received is whole frames and none but the emission's last is short. */
  lemma ReceivedChunksAreWhole(cfg: Config, steps: seq<Step>, i: nat)
    requires Sane(cfg) && cfg.chunkBytes % cfg.frameBytes == 0 && i < |R.Received(After(cfg, steps).out.items)|
    ensures var received := R.Received(After(cfg, steps).out.items);
            && 0 < |received[i]| <= cfg.chunkBytes && |received[i]| % cfg.frameBytes == 0
            && (i < |received| - 1 ==> |received[i]| == cfg.chunkBytes)
  {
    ReceivedIsFrontOfEmission(cfg, steps);
    P.EmissionShape(After(cfg, steps).moved, cfg.chunkBytes, cfg.frameBytes, i);
  }
}
