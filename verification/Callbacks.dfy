/**
 The `process` callbacks of a session against its audio: which offered frames each report speaks for,
 and which none does because the clock could not be read.
 */
module Callbacks {
  import opened Prelude
  import M = Mix
  import D = DataPath
  import L = Ledger
  import R = Ring
  import opened Session

  /** Frames in the buffers from `a` up to `b`. */
  ghost function FramesIn(m: M.Mix, bs: seq<seq<Byte>>, a: nat, b: nat): nat
    requires M.Valid(m) && b <= |bs|
  {
    if b <= a then 0 else FramesIn(m, bs, a, b - 1) + M.FramesOut(m, bs[b - 1])
  }

  lemma {:induction false} FramesSplit(m: M.Mix, bs: seq<seq<Byte>>, a: nat, b: nat, c: nat)
    requires M.Valid(m) && a <= b <= c <= |bs|
    ensures FramesIn(m, bs, a, c) == FramesIn(m, bs, a, b) + FramesIn(m, bs, b, c)
  {
    if b < c {
      FramesSplit(m, bs, a, b, c - 1);
    }
  }

  lemma {:induction false} FramesOfPrefix(m: M.Mix, bs: seq<seq<Byte>>, more: seq<Byte>, a: nat, b: nat)
    requires M.Valid(m) && b <= |bs|
    ensures FramesIn(m, bs + [more], a, b) == FramesIn(m, bs, a, b)
  {
    if a < b {
      FramesOfPrefix(m, bs, more, a, b - 1);
    }
  }

  // ---------------------------------------------------------------------------------------------
  // What every callback keeps

  /** Where the callback of report `k` found the buffers spoken for so far to end. */
  ghost function EndBefore(calls: seq<Call>, k: nat): nat
    requires k <= |calls|
  {
    if k == 0 then 0 else calls[k - 1].end
  }

  /** Report `k` names the frames of its own callback's buffers, and frames lie unreported before
      them exactly when a clock read failed there. */
  ghost predicate CallTracked(m: M.Mix, offered: seq<seq<Byte>>, calls: seq<Call>, frames: nat, k: nat)
    requires M.Valid(m) && k < |calls|
  {
    && EndBefore(calls, k) <= calls[k].start <= calls[k].end <= |offered|
    && frames == FramesIn(m, offered, calls[k].start, calls[k].end)
    && (FramesIn(m, offered, EndBefore(calls, k), calls[k].start) > 0 <==> calls[k].unread > 0)
  }

  ghost predicate CallbackTracked(m: M.Mix, offered: seq<seq<Byte>>, calls: seq<Call>, c: Callback)
    requires M.Valid(m)
  {
    && EndBefore(calls, |calls|) <= c.start <= |offered|
    && c.counted == FramesIn(m, offered, c.start, |offered|)
    && (FramesIn(m, offered, EndBefore(calls, |calls|), c.start) > 0 <==> c.unread > 0)
    && (c.read.Some? ==> c.counted > 0)
  }

  ghost predicate CallsTracked(m: M.Mix, offered: seq<seq<Byte>>, calls: seq<Call>, reports: seq<L.Event>)
    requires M.Valid(m)
  {
    && |calls| == |reports|
    && forall k :: 0 <= k < |calls| ==> CallTracked(m, offered, calls, reports[k].report.frames, k)
  }

  ghost predicate Tracked(cfg: Config, s: Session) {
    && M.Valid(cfg.mix) && s.data.mix == cfg.mix
    && CallsTracked(cfg.mix, s.offered, s.calls, s.reports)
    && CallbackTracked(cfg.mix, s.offered, s.calls, s.callback)
    && (s.quiesced ==> s.callback.counted == 0)
  }

  lemma OpenTracked(cfg: Config)
    requires Sane(cfg)
    ensures Tracked(cfg, Open(cfg))
  {
  }

  lemma CallsOutlastBuffers(m: M.Mix, offered: seq<seq<Byte>>, more: seq<Byte>, calls: seq<Call>, reports: seq<L.Event>)
    requires M.Valid(m) && CallsTracked(m, offered, calls, reports)
    ensures CallsTracked(m, offered + [more], calls, reports)
  {
    forall k | 0 <= k < |calls|
      ensures CallTracked(m, offered + [more], calls, reports[k].report.frames, k)
    {
      assert CallTracked(m, offered, calls, reports[k].report.frames, k);
      FramesOfPrefix(m, offered, more, calls[k].start, calls[k].end);
      FramesOfPrefix(m, offered, more, EndBefore(calls, k), calls[k].start);
    }
  }

  lemma DeliveryTracked(m: M.Mix, offered: seq<seq<Byte>>, more: seq<Byte>, calls: seq<Call>, c: Callback)
    requires M.Valid(m) && CallbackTracked(m, offered, calls, c)
    ensures CallbackTracked(m, offered + [more], calls, c.(counted := c.counted + M.FramesOut(m, more)))
  {
    FramesOfPrefix(m, offered, more, c.start, |offered|);
    FramesOfPrefix(m, offered, more, EndBefore(calls, |calls|), c.start);
  }

  lemma DeliverTracks(cfg: Config, s: Session, samples: seq<Byte>)
    requires Inv(cfg, s) && Tracked(cfg, s)
    ensures Tracked(cfg, Stepped(cfg, s, Deliver(samples)))
  {
    var mixed := M.Mixed(cfg.mix, samples);
    CallsOutlastBuffers(cfg.mix, s.offered, mixed, s.calls, s.reports);
    DeliveryTracked(cfg.mix, s.offered, mixed, s.calls, s.callback);
    M.MixedKeepsFrames(cfg.mix, samples);
  }

  lemma ReadClockTracks(cfg: Config, s: Session, clock: Option<D.Clock>)
    requires Inv(cfg, s) && Tracked(cfg, s)
    ensures Tracked(cfg, Stepped(cfg, s, ReadClock(clock)))
  {
    ReadClockStep(cfg, s, clock);
    FramesSplit(cfg.mix, s.offered, EndBefore(s.calls, |s.calls|), s.callback.start, |s.offered|);
  }

  lemma OneMoreCall(m: M.Mix, offered: seq<seq<Byte>>, calls: seq<Call>, reports: seq<L.Event>, c: Callback, e: L.Event)
    requires M.Valid(m) && CallsTracked(m, offered, calls, reports) && CallbackTracked(m, offered, calls, c)
    requires e.report.frames == c.counted
    ensures CallsTracked(m, offered, calls + [Call(c.start, |offered|, c.unread)], reports + [e])
    ensures CallbackTracked(m, offered, calls + [Call(c.start, |offered|, c.unread)], IdleFrom(|offered|))
  {
    var more := calls + [Call(c.start, |offered|, c.unread)];
    forall k | 0 <= k < |more|
      ensures CallTracked(m, offered, more, (reports + [e])[k].report.frames, k)
    {
      if k < |calls| {
        assert CallTracked(m, offered, calls, reports[k].report.frames, k);
        assert EndBefore(more, k) == EndBefore(calls, k);
      }
    }
  }

  lemma AccountTracks(cfg: Config, s: Session)
    requires Inv(cfg, s) && Tracked(cfg, s)
    ensures Tracked(cfg, Stepped(cfg, s, Account))
  {
    if !s.quiesced && s.callback.read.Some? {
      var (clock, epoch) := s.callback.read.value;
      OneMoreCall(cfg.mix, s.offered, s.calls, s.reports, s.callback,
                  L.Event(epoch != s.data.seenEpoch, D.ReportOf(clock, s.callback.counted)));
    }
  }

  ghost predicate SameCallbacks(s: Session, t: Session) {
    && t.data.mix == s.data.mix && t.offered == s.offered && t.calls == s.calls && t.reports == s.reports
    && t.callback == s.callback && (t.quiesced ==> s.quiesced || s.callback.counted == 0)
  }

  lemma DrainLeavesCallbacks(cfg: Config, s: Session, step: Step)
    requires D.Valid(s.data) && R.Accounted(s.out.ring) && cfg.frameBytes > 0
    requires DrainStep(step) || step.StateChange? || step.Emit? || step.PublishOverload? || step.Return?
    ensures SameCallbacks(s, Stepped(cfg, s, step))
  {
  }

  lemma EndLeavesCallbacks(cfg: Config, s: Session, step: Step)
    requires D.Valid(s.data) && R.Accounted(s.out.ring) && cfg.frameBytes > 0
    requires step.Quit? || step.Settle? || step.Fail? || step.Flush? || step.ReadClosed? || step.Publish? || step.FinishRing?
          || step.Poll? || step.Abort?
    ensures SameCallbacks(s, Stepped(cfg, s, step))
  {
  }

  /** Every step but a callback's own leaves the callbacks alone. */
  lemma OtherStepsTrack(cfg: Config, s: Session, step: Step)
    requires D.Valid(s.data) && R.Accounted(s.out.ring) && cfg.frameBytes > 0 && Tracked(cfg, s)
    requires !step.Deliver? && !step.ReadClock? && !step.Account?
    ensures Tracked(cfg, Stepped(cfg, s, step))
  {
    if DrainStep(step) || step.StateChange? || step.Emit? || step.PublishOverload? || step.Return? {
      DrainLeavesCallbacks(cfg, s, step);
    } else {
      EndLeavesCallbacks(cfg, s, step);
    }
    SameCallbacksTracked(cfg, s, Stepped(cfg, s, step));
  }

  lemma SameCallbacksTracked(cfg: Config, s: Session, t: Session)
    requires Tracked(cfg, s) && SameCallbacks(s, t)
    ensures Tracked(cfg, t)
  {
  }

  lemma StepTracks(cfg: Config, s: Session, step: Step)
    requires Inv(cfg, s) && Tracked(cfg, s)
    ensures Tracked(cfg, Stepped(cfg, s, step))
  {
    match step
    case Deliver(samples) => DeliverTracks(cfg, s, samples);
    case ReadClock(clock) => ReadClockTracks(cfg, s, clock);
    case Account => AccountTracks(cfg, s);
    case _ => OtherStepsTrack(cfg, s, step);
  }

  lemma {:induction false} EveryRunTracked(cfg: Config, s: Session, steps: seq<Step>)
    requires Inv(cfg, s) && Tracked(cfg, s)
    ensures Tracked(cfg, From(cfg, s, steps))
    decreases |steps|
  {
    if steps != [] {
      SessionStepKeeps(cfg, s, steps[0]);
      StepTracks(cfg, s, steps[0]);
      EveryRunTracked(cfg, Stepped(cfg, s, steps[0]), steps[1..]);
    }
  }

  // ---------------------------------------------------------------------------------------------
  // Windows of the account, in audio

  /** Frames offered after the callback of report `m`, through that of report `n`. */
  ghost function Audio(cfg: Config, s: Session, m: nat, n: nat): nat
    requires Tracked(cfg, s) && m <= n < |s.calls|
  {
    assert CallTracked(cfg.mix, s.offered, s.calls, s.reports[n].report.frames, n);
    FramesIn(cfg.mix, s.offered, s.calls[m].end, s.calls[n].end)
  }

  /** Those of them no report speaks for: their callbacks could not read the clock. */
  ghost function Unread(cfg: Config, s: Session, m: nat, n: nat): nat
    requires Tracked(cfg, s) && m <= n < |s.calls|
  {
    assert CallTracked(cfg.mix, s.offered, s.calls, s.reports[n].report.frames, n);
    if n == m then 0
    else Unread(cfg, s, m, n - 1) + FramesIn(cfg.mix, s.offered, s.calls[n - 1].end, s.calls[n].start)
  }

  ghost predicate AllRead(s: Session, m: nat, n: nat)
    requires n < |s.calls|
  {
    forall k :: m < k <= n ==> s.calls[k].unread == 0
  }

  lemma {:induction false} EndsInOrder(cfg: Config, s: Session, m: nat, n: nat)
    requires Tracked(cfg, s) && m <= n < |s.calls|
    ensures s.calls[m].end <= s.calls[n].end <= |s.offered|
  {
    assert CallTracked(cfg.mix, s.offered, s.calls, s.reports[n].report.frames, n);
    if m < n {
      EndsInOrder(cfg, s, m, n - 1);
    }
  }

  /** Frames reported after report `m`, through report `n`. */
  ghost function ReportedIn(reports: seq<L.Event>, m: nat, n: nat): nat
    requires m <= n < |reports|
  {
    if n == m then 0 else ReportedIn(reports, m, n - 1) + reports[n].report.frames
  }

  lemma {:induction false} ArrivedIsReported(es: seq<L.Entry>, reports: seq<L.Event>, m: nat, n: nat)
    requires m <= n < |reports| == |es|
    requires forall k :: 0 <= k < |es| ==> es[k].frames == reports[k].report.frames as real
    ensures L.Arrived(es, m, n) == ReportedIn(reports, m, n) as real
    decreases n
  {
    if m < n {
      ArrivedIsReported(es, reports, m, n - 1);
    }
  }

  lemma EntryFrames(rate: nat, reports: seq<L.Event>)
    ensures var es := L.LedgerOf(rate, reports);
            forall k :: 0 <= k < |es| ==> es[k].frames == reports[k].report.frames as real
  {
    var es := L.LedgerOf(rate, reports);
    forall k | 0 <= k < |es|
      ensures es[k].frames == reports[k].report.frames as real
    {
      assert es[k] == L.EntryAt(rate, reports, k);
    }
  }

  lemma OneMoreReport(cfg: Config, s: Session, m: nat, n: nat)
    requires Tracked(cfg, s) && m < n < |s.calls|
    ensures Audio(cfg, s, m, n) - Unread(cfg, s, m, n)
         == Audio(cfg, s, m, n - 1) - Unread(cfg, s, m, n - 1) + s.reports[n].report.frames
  {
    EndsInOrder(cfg, s, m, n - 1);
    assert CallTracked(cfg.mix, s.offered, s.calls, s.reports[n].report.frames, n);
    var before, start, end := s.calls[n - 1].end, s.calls[n].start, s.calls[n].end;
    FramesSplit(cfg.mix, s.offered, s.calls[m].end, before, end);
    FramesSplit(cfg.mix, s.offered, before, start, end);
  }

  lemma {:induction false} ReportedIsReadAudio(cfg: Config, s: Session, m: nat, n: nat)
    requires Tracked(cfg, s) && m <= n < |s.calls|
    ensures ReportedIn(s.reports, m, n) == Audio(cfg, s, m, n) - Unread(cfg, s, m, n)
    decreases n
  {
    if m < n {
      ReportedIsReadAudio(cfg, s, m, n - 1);
      OneMoreReport(cfg, s, m, n);
    }
  }

  /** What the account is told arrived is the audio offered, less the unread. */
  lemma ArrivedIsReadAudio(cfg: Config, s: Session, m: nat, n: nat)
    requires Tracked(cfg, s) && m <= n < |s.calls|
    ensures L.Arrived(L.LedgerOf(cfg.rate, s.reports), m, n) == (Audio(cfg, s, m, n) - Unread(cfg, s, m, n)) as real
  {
    EntryFrames(cfg.rate, s.reports);
    ArrivedIsReported(L.LedgerOf(cfg.rate, s.reports), s.reports, m, n);
    ReportedIsReadAudio(cfg, s, m, n);
  }

  /** Audio goes unreported exactly where a callback with frames could not read the clock. */
  lemma {:induction false} UnreadExactlyWhenAClockFailed(cfg: Config, s: Session, m: nat, n: nat)
    requires Tracked(cfg, s) && m <= n < |s.calls|
    ensures Unread(cfg, s, m, n) == 0 <==> AllRead(s, m, n)
    decreases n
  {
    if m < n {
      UnreadExactlyWhenAClockFailed(cfg, s, m, n - 1);
      assert CallTracked(cfg.mix, s.offered, s.calls, s.reports[n].report.frames, n);
    }
  }

  // ---------------------------------------------------------------------------------------------
  // The whole session

  ghost function Reported(reports: seq<L.Event>): nat {
    if reports == [] then 0 else Reported(reports[..|reports| - 1]) + reports[|reports| - 1].report.frames
  }

  /** No callback with frames went unreported, and none is under way with some. */
  ghost predicate EverythingRead(s: Session) {
    && (forall k :: 0 <= k < |s.calls| ==> s.calls[k].unread == 0)
    && s.callback.unread == 0 && s.callback.counted == 0
  }

  lemma {:induction false} ReportedUpTo(cfg: Config, s: Session, n: nat)
    requires Tracked(cfg, s) && n <= |s.calls|
    ensures EndBefore(s.calls, n) <= |s.offered|
    ensures Reported(s.reports[..n]) <= FramesIn(cfg.mix, s.offered, 0, EndBefore(s.calls, n))
    ensures Reported(s.reports[..n]) == FramesIn(cfg.mix, s.offered, 0, EndBefore(s.calls, n))
       <==> forall k :: 0 <= k < n ==> s.calls[k].unread == 0
  {
    if n > 0 {
      var last := n - 1;
      ReportedUpTo(cfg, s, last);
      assert s.reports[..n][..last] == s.reports[..last];
      assert CallTracked(cfg.mix, s.offered, s.calls, s.reports[last].report.frames, last);
      var before, start, end := EndBefore(s.calls, last), s.calls[last].start, s.calls[last].end;
      FramesSplit(cfg.mix, s.offered, 0, before, end);
      FramesSplit(cfg.mix, s.offered, before, start, end);
    }
  }

  /** In every run the frames reported are at most those offered, and all of them exactly when every
      clock read succeeded. */
  lemma ReportedExactlyWhenRead(cfg: Config, steps: seq<Step>)
    requires Sane(cfg)
    ensures var s := After(cfg, steps);
            && Reported(s.reports) <= FramesIn(cfg.mix, s.offered, 0, |s.offered|)
            && (Reported(s.reports) == FramesIn(cfg.mix, s.offered, 0, |s.offered|) <==> EverythingRead(s))
  {
    var s := After(cfg, steps);
    OpenKeeps(cfg);
    OpenTracked(cfg);
    EveryRunTracked(cfg, Open(cfg), steps);
    ReportedUpTo(cfg, s, |s.calls|);
    assert s.reports[..|s.calls|] == s.reports;
    var before := EndBefore(s.calls, |s.calls|);
    FramesSplit(cfg.mix, s.offered, 0, before, |s.offered|);
    FramesSplit(cfg.mix, s.offered, before, s.callback.start, |s.offered|);
  }
}
