/**
 A session left to itself: stopped with nothing wrong and room for what is left, its steps in order
 end the stream clean.
 */
module Undisturbed {
  import opened Prelude
  import opened Capture
  import R = Ring
  import D = DataPath
  import P = Producer
  import opened Session
  import opened Endings
  import F = Refinement

  // ---------------------------------------------------------------------------------------------
  // Room

  lemma {:induction false} ConcatLength(chunks: seq<Chunk>)
    ensures |Concat(chunks)| == Total(chunks)
  {
    if chunks != [] {
      ConcatLength(chunks[..|chunks| - 1]);
    }
  }

  lemma ChunksTotal(data: seq<Byte>, size: nat)
    requires size > 0
    ensures Total(P.Chunks(data, size)) + |P.Rest(data, size)| == |data|
  {
    P.ChunksRejoin(data, size);
    ConcatLength(P.Chunks(data, size));
  }

  /** The ring goes on taking: nothing it was handed was too much. */
  ghost predicate Took(before: R.Inner, after: R.Inner, bytes: nat) {
    && !R.Terminated(after) && after.fault == before.fault && after.maxBytes == before.maxBytes
    && after.queuedBytes == before.queuedBytes + bytes
  }

  lemma OneFits(r: R.Inner, h: Health, chunk: Chunk)
    requires !R.Terminated(r) && r.queuedBytes + |chunk| <= r.maxBytes
    ensures Took(r, P.Emitted(r, h, chunk).0, |chunk|) && P.Emitted(r, h, chunk).1 == h
  {
  }

  lemma {:induction false} AllFit(r: R.Inner, h: Health, chunks: seq<Chunk>)
    requires !R.Terminated(r) && r.queuedBytes + Total(chunks) <= r.maxBytes
    ensures Took(r, P.EmittedAll(r, h, chunks).0, Total(chunks)) && P.EmittedAll(r, h, chunks).1 == h
    decreases |chunks|
  {
    if chunks != [] {
      var front := chunks[..|chunks| - 1];
      AllFit(r, h, front);
      var (mid, health) := P.EmittedAll(r, h, front);
      OneFits(mid, health, chunks[|chunks| - 1]);
    }
  }

  // ---------------------------------------------------------------------------------------------
  // To the end

  /** Nothing has gone wrong, and the ring has room for all that is still on its way to it. */
  ghost predicate Well(h: F.Handover) {
    && !(h.ending.Some? && h.ending.value.Fault?) && !h.data.lost && h.data.loss == D.NONE && h.data.unconfirmed == D.NONE
    && !R.Terminated(h.ring) && h.ring.fault.None? && h.overload.None?
    && h.ring.queuedBytes + |h.pending| + |h.data.ring| <= h.ring.maxBytes
  }

  lemma RunStaysWell(h: F.Handover, size: nat)
    requires Well(h) && size > 0
    ensures var t := F.Run(h, size);
            Well(t) && t.pc == Ran(None, false) && t.items == h.items && t.quiesced == h.quiesced
  {
    var all := h.pending + h.data.ring;
    ChunksTotal(all, size);
    AllFit(h.ring, Published(h.health, Capturing), P.Chunks(all, size));
  }

  /** The final drain, whatever the FIFO holds. */
  function FinalDrain(s: Session, size: nat, rest: seq<Step>): seq<Step>
    requires size > 0
  {
    if s.data.ring == [] then [ReadLoss] + ([ReadSlots] + rest)
    else F.DrainSteps(|P.Chunks(s.pending + s.data.ring, size)|, rest)
  }

  /** What it leaves. */
  function DrainedTo(h: F.Handover, size: nat): F.Handover
    requires size > 0
  {
    if h.data.ring == [] then h.(pc := Ran(D.ReadLoss(h.data.loss), false)) else F.Run(h, size)
  }

  lemma FinalDrainRuns(cfg: Config, s: Session, rest: seq<Step>) returns (t: Session)
    requires Inv(cfg, s) && s.pc.Polling? && s.quiesced && Well(F.Of(s))
    ensures Inv(cfg, t) && From(cfg, s, FinalDrain(s, cfg.chunkBytes, rest)) == From(cfg, t, rest)
    ensures F.Of(t) == DrainedTo(F.Of(s), cfg.chunkBytes)
    ensures Well(F.Of(t)) && t.pc == Ran(None, false) && t.out.items == s.out.items && t.quiesced
  {
    if s.data.ring == [] {
      t := F.ReadSteps(cfg, s, rest);
    } else {
      t := F.DrainIsRun(cfg, s, rest);
      RunStaysWell(F.Of(s), cfg.chunkBytes);
    }
  }

  lemma SettleEffect(cfg: Config, s: Session)
    requires F.Ready(cfg, s) && s.quiesced && s.pc == Ran(None, false) && Well(F.Of(s))
    ensures F.Of(Stepped(cfg, s, Settle)) == F.Of(s).(pc := Concluding(None))
  {
  }

  lemma SettleStep(cfg: Config, s: Session, rest: seq<Step>) returns (t: Session)
    requires Inv(cfg, s) && s.quiesced && s.pc == Ran(None, false) && Well(F.Of(s))
    ensures Inv(cfg, t) && From(cfg, s, [Settle] + rest) == From(cfg, t, rest)
    ensures F.Of(t) == F.Of(s).(pc := Concluding(None))
  {
    FromCons(cfg, s, Settle, rest);
    SettleEffect(cfg, s);
    t := Stepped(cfg, s, Settle);
  }

  lemma ConcludesWell(h: F.Handover, frameBytes: nat)
    requires Well(h) && frameBytes > 0
    ensures var t := F.Concluded(h, frameBytes, None);
            t.pc.Done? && t.ring.done && !t.ring.closed && t.ring.fault.None? && t.items == h.items
  {
    var whole := P.Whole(h.pending, frameBytes);
    if whole != [] {
      OneFits(h.ring, h.health, whole);
    }
  }

  function Polls(n: nat): seq<Step> {
    if n == 0 then [] else [Poll] + Polls(n - 1)
  }

  /** A ring that holds no fault, of a stream that brought none, has raised none. */
  lemma NoneRaised(h: R.History)
    requires R.Kept(h) && !h.ring.closed && h.ring.fault.None? && forall e :: R.Err(e) !in h.items
    ensures h.raised.None?
  {
  }

  lemma PollStep(cfg: Config, s: Session, rest: seq<Step>) returns (t: Session)
    requires Inv(cfg, s) && s.pc.Done? && Uncut(s)
    ensures Inv(cfg, t) && From(cfg, s, [Poll] + rest) == From(cfg, t, rest)
    ensures t.pc.Done? && Uncut(t)
    ensures if s.out.ring.queue == [] then R.End in t.out.items else t.out.ring.queue == s.out.ring.queue[1..]
    ensures s.out.items <= t.out.items
  {
    FromCons(cfg, s, Poll, rest);
    ConsumerStep(cfg, s, Poll);
    t := Stepped(cfg, s, Poll);
    assert t.out.items == s.out.items + [R.Polled(s.out.ring).1];
  }

  lemma EndIsClean(cfg: Config, s: Session)
    requires Inv(cfg, s) && Uncut(s) && R.End in s.out.items
    ensures EndedClean(s)
  {
  }

  lemma LastPoll(cfg: Config, s: Session)
    requires Inv(cfg, s) && s.pc.Done? && Uncut(s) && s.out.ring.queue == []
    ensures EndedClean(From(cfg, s, [Poll] + []))
  {
    var t := PollStep(cfg, s, []);
    EndIsClean(cfg, t);
  }

  /** A concluded stream that raised nothing yields what is queued and then its end. */
  lemma {:induction false} PollsReachTheEnd(cfg: Config, s: Session, n: nat)
    requires Inv(cfg, s) && s.pc.Done? && Uncut(s) && n == |s.out.ring.queue|
    ensures EndedClean(From(cfg, s, Polls(n + 1)))
    decreases n
  {
    if n == 0 {
      LastPoll(cfg, s);
      assert Polls(1) == [Poll] + [];
    } else {
      var t := PollStep(cfg, s, Polls(n));
      PollsReachTheEnd(cfg, t, n - 1);
      assert Polls(n + 1) == [Poll] + Polls(n);
    }
  }

  lemma QuitEffect(cfg: Config, s: Session)
    requires F.Ready(cfg, s) && s.pc.Polling? && !s.quiesced && s.callback.counted == 0
    ensures F.Of(Stepped(cfg, s, Quit)) == F.Of(s).(quiesced := true)
  {
  }

  lemma QuitStep(cfg: Config, s: Session, rest: seq<Step>) returns (t: Session)
    requires Inv(cfg, s) && s.pc.Polling? && !s.quiesced && s.callback.counted == 0
    ensures Inv(cfg, t) && From(cfg, s, [Quit] + rest) == From(cfg, t, rest)
    ensures F.Of(t) == F.Of(s).(quiesced := true)
  {
    FromCons(cfg, s, Quit, rest);
    QuitEffect(cfg, s);
    t := Stepped(cfg, s, Quit);
  }

  /** The ring once the session is over. */
  ghost function FinalRing(cfg: Config, h: F.Handover): R.Inner
    requires Sane(cfg)
  {
    F.Concluded(DrainedTo(h, cfg.chunkBytes).(pc := Concluding(None)), cfg.frameBytes, None).ring
  }

  lemma FinishesWell(cfg: Config, s: Session, rest: seq<Step>) returns (t: Session)
    requires Inv(cfg, s) && s.pc.Polling? && s.quiesced && Well(F.Of(s)) && forall e :: R.Err(e) !in s.out.items
    ensures Inv(cfg, t) && t.pc.Done? && Uncut(t) && t.out.ring == FinalRing(cfg, F.Of(s))
    ensures From(cfg, s, FinalDrain(s, cfg.chunkBytes, [Settle] + F.Conclusion(rest))) == From(cfg, t, rest)
  {
    t := FinalDrainRuns(cfg, s, [Settle] + F.Conclusion(rest));
    t := SettleStep(cfg, t, F.Conclusion(rest));
    ConcludesWell(F.Of(t), cfg.frameBytes);
    t := F.ConclusionIsConclude(cfg, t, rest);
    NoneRaised(t.out);
  }

  /** Nothing wrong, the data thread between callbacks, the consumer there, nothing refused so far, and
      room in the ring: quitting, draining, settling, concluding and polling end the stream clean. */
  lemma StopEndsClean(cfg: Config, s: Session) returns (steps: seq<Step>)
    requires Inv(cfg, s) && s.pc.Polling? && !s.quiesced && s.callback.counted == 0
    requires NothingWrong(s) && Uncut(s)
    requires s.out.ring.queuedBytes + |s.pending| + |s.data.ring| <= s.out.ring.maxBytes
    ensures EndedClean(From(cfg, s, steps))
  {
    IsWell(cfg, s);
    var stopped := F.Of(s).(quiesced := true);
    var polls := Polls(|FinalRing(cfg, stopped).queue| + 1);
    var last := [Settle] + F.Conclusion(polls);
    var t := QuitStep(cfg, s, FinalDrain(s, cfg.chunkBytes, last));
    steps := [Quit] + FinalDrain(s, cfg.chunkBytes, last);
    t := FinishesWell(cfg, t, polls);
    PollsReachTheEnd(cfg, t, |t.out.ring.queue|);
  }

  lemma IsWell(cfg: Config, s: Session)
    requires Inv(cfg, s) && s.pc.Polling? && NothingWrong(s) && Uncut(s)
    requires s.out.ring.queuedBytes + |s.pending| + |s.data.ring| <= s.out.ring.maxBytes
    ensures Well(F.Of(s)) && forall e :: R.Err(e) !in s.out.items
  {
  }
}
