/**
 The session's loss account against the audio its callbacks were given: when a loss is reported, when
 it is real, and how far the clock can have run ahead of the audio of a stream that ends clean.
 */
module Audit {
  import opened Prelude
  import R = Ring
  import C = Continuity
  import D = DataPath
  import L = Ledger
  import opened Session
  import opened Callbacks

  ghost function LedgerOf(cfg: Config, s: Session): (es: seq<L.Entry>)
    ensures |es| == |s.reports|
  {
    L.LedgerOf(cfg.rate, s.reports)
  }

  /** The account is the one its reports make, and every loss it reported was latched. */
  ghost predicate Audited(cfg: Config, s: Session) {
    && s.data.account == L.At(cfg.rate, s.reports, |s.reports|)
    && (!s.data.lost ==> forall n :: 0 <= n < |s.reports| ==> L.EntryAt(cfg.rate, s.reports, n).verdict.None?)
  }

  lemma AccountStepIsLedgers(d: D.Data, epoch: nat, r: C.Report)
    requires D.Valid(d)
    ensures var e := L.Event(epoch != d.seenEpoch, r);
            && D.Accounted(d, epoch, r).account == L.Stepped(d.account, e).0
            && (!D.Accounted(d, epoch, r).lost ==> !d.lost && L.Stepped(d.account, e).1.None?)
  {
  }

  lemma AccountAudits(cfg: Config, s: Session, e: L.Event, account: C.Account, lost: bool)
    requires Audited(cfg, s)
    requires account == L.Stepped(L.At(cfg.rate, s.reports, |s.reports|), e).0
    requires !lost ==> !s.data.lost && L.Stepped(L.At(cfg.rate, s.reports, |s.reports|), e).1.None?
    ensures account == L.At(cfg.rate, s.reports + [e], |s.reports| + 1)
    ensures !lost ==> forall n :: 0 <= n < |s.reports| + 1 ==> L.EntryAt(cfg.rate, s.reports + [e], n).verdict.None?
  {
    var evs := s.reports + [e];
    L.AtOfPrefix(cfg.rate, s.reports, e, |s.reports|);
    assert evs[|s.reports|] == e;
    if !lost {
      forall n | 0 <= n < |evs|
        ensures L.EntryAt(cfg.rate, evs, n).verdict.None?
      {
        if n < |s.reports| {
          L.EntryOfPrefix(cfg.rate, s.reports, e, n);
        }
      }
    }
  }

  /** Nothing but accounting touches the account, and no loss is ever unlatched. */
  lemma OtherStepsLeaveAccount(cfg: Config, s: Session, step: Step)
    requires D.Valid(s.data) && R.Accounted(s.out.ring) && cfg.frameBytes > 0 && !step.Account?
    ensures var t := Stepped(cfg, s, step);
            t.data.account == s.data.account && t.reports == s.reports && (s.data.lost ==> t.data.lost)
  {
    if step.Deliver? {
      D.DeliveredWholeOrNotAtAll(s.data, step.samples);
    }
  }

  lemma AccountStep(cfg: Config, s: Session)
    requires D.Valid(s.data) && R.Accounted(s.out.ring) && cfg.frameBytes > 0 && !s.quiesced && s.callback.read.Some?
    ensures var (clock, epoch) := s.callback.read.value;
            var report := D.ReportOf(clock, s.callback.counted);
            && Stepped(cfg, s, Account).data == D.Accounted(s.data, epoch, report)
            && Stepped(cfg, s, Account).reports == s.reports + [L.Event(epoch != s.data.seenEpoch, report)]
  {
  }

  lemma AccountStepAudits(cfg: Config, s: Session)
    requires D.Valid(s.data) && R.Accounted(s.out.ring) && cfg.frameBytes > 0 && Audited(cfg, s)
    requires !s.quiesced && s.callback.read.Some?
    ensures Audited(cfg, Stepped(cfg, s, Account))
  {
    var (clock, epoch) := s.callback.read.value;
    var report := D.ReportOf(clock, s.callback.counted);
    AccountStep(cfg, s);
    AccountStepIsLedgers(s.data, epoch, report);
    var d := D.Accounted(s.data, epoch, report);
    AccountAudits(cfg, s, L.Event(epoch != s.data.seenEpoch, report), d.account, d.lost);
  }

  lemma StepAudits(cfg: Config, s: Session, step: Step)
    requires D.Valid(s.data) && R.Accounted(s.out.ring) && cfg.frameBytes > 0 && Audited(cfg, s)
    ensures Audited(cfg, Stepped(cfg, s, step))
  {
    if step.Account? && !s.quiesced && s.callback.read.Some? {
      AccountStepAudits(cfg, s);
    } else if !step.Account? {
      OtherStepsLeaveAccount(cfg, s, step);
    }
  }

  lemma {:induction false} EveryRunIsAudited(cfg: Config, s: Session, steps: seq<Step>)
    requires Inv(cfg, s) && Audited(cfg, s)
    ensures Audited(cfg, From(cfg, s, steps))
    decreases |steps|
  {
    if steps != [] {
      SessionStepKeeps(cfg, s, steps[0]);
      StepAudits(cfg, s, steps[0]);
      EveryRunIsAudited(cfg, Stepped(cfg, s, steps[0]), steps[1..]);
    }
  }

  /** Everything the session's callbacks and account keep, in every run. */
  lemma RunIsAuditedAndTracked(cfg: Config, steps: seq<Step>)
    requires Sane(cfg)
    ensures Audited(cfg, After(cfg, steps)) && Tracked(cfg, After(cfg, steps))
    ensures L.IsLedger(cfg.rate as real, LedgerOf(cfg, After(cfg, steps)))
  {
    OpenKeeps(cfg);
    OpenTracked(cfg);
    EveryRunIsAudited(cfg, Open(cfg), steps);
    EveryRunTracked(cfg, Open(cfg), steps);
    L.RunKeepsLedger(cfg.rate, After(cfg, steps).reports);
  }

  // ---------------------------------------------------------------------------------------------
  // Which loss is latched

  /** Report `n` is the first to confirm a loss, and `code` is that loss. */
  ghost predicate FirstVerdict(cfg: Config, reports: seq<L.Event>, n: nat, code: nat)
    requires n < |reports|
  {
    var verdict := L.EntryAt(cfg.rate, reports, n).verdict;
    && verdict.Some? && verdict.value >= 0.0 && code == D.Micros(verdict.value)
    && forall k :: 0 <= k < n ==> L.EntryAt(cfg.rate, reports, k).verdict.None?
  }

  /** The loss is a buffer that did not fit, or the first one confirmed. */
  ghost predicate Explained(cfg: Config, s: Session) {
    s.data.lost ==>
      || (s.data.loss == D.OVERFLOW && |s.handed| < |s.offered|)
      || exists n :: 0 <= n < |s.reports| && FirstVerdict(cfg, s.reports, n, s.data.loss)
  }

  lemma FirstVerdictStays(cfg: Config, reports: seq<L.Event>, e: L.Event, n: nat, code: nat)
    requires n < |reports| && FirstVerdict(cfg, reports, n, code)
    ensures FirstVerdict(cfg, reports + [e], n, code)
  {
    forall k | 0 <= k <= n
      ensures L.EntryAt(cfg.rate, reports + [e], k) == L.EntryAt(cfg.rate, reports, k)
    {
      L.EntryOfPrefix(cfg.rate, reports, e, k);
    }
  }

  lemma NewVerdictIsFirst(cfg: Config, reports: seq<L.Event>, e: L.Event, verdict: real)
    requires verdict >= 0.0 && L.Stepped(L.At(cfg.rate, reports, |reports|), e).1 == Some(verdict)
    requires forall n :: 0 <= n < |reports| ==> L.EntryAt(cfg.rate, reports, n).verdict.None?
    ensures FirstVerdict(cfg, reports + [e], |reports|, D.Micros(verdict))
  {
    L.AtOfPrefix(cfg.rate, reports, e, |reports|);
    forall k | 0 <= k < |reports|
      ensures L.EntryAt(cfg.rate, reports + [e], k) == L.EntryAt(cfg.rate, reports, k)
    {
      L.EntryOfPrefix(cfg.rate, reports, e, k);
    }
  }

  lemma AccountExplains(cfg: Config, s: Session)
    requires Inv(cfg, s) && Audited(cfg, s) && Explained(cfg, s) && !s.quiesced && s.callback.read.Some?
    ensures Explained(cfg, Stepped(cfg, s, Account))
  {
    var (clock, epoch) := s.callback.read.value;
    var report := D.ReportOf(clock, s.callback.counted);
    var e := L.Event(epoch != s.data.seenEpoch, report);
    AccountStep(cfg, s);
    D.AccountedLatchesTheVerdict(s.data, epoch, report);
    D.AccountedMovesNothing(s.data, epoch, report);
    var verdict := L.Stepped(s.data.account, e).1;
    if s.data.lost {
      if n :| 0 <= n < |s.reports| && FirstVerdict(cfg, s.reports, n, s.data.loss) {
        FirstVerdictStays(cfg, s.reports, e, n, s.data.loss);
      }
    } else if verdict.Some? {
      NewVerdictIsFirst(cfg, s.reports, e, verdict.value);
    }
  }

  lemma DeliverExplains(cfg: Config, s: Session, samples: seq<Byte>)
    requires Inv(cfg, s) && Explained(cfg, s)
    ensures Explained(cfg, Stepped(cfg, s, Deliver(samples)))
  {
    D.DeliveredWholeOrNotAtAll(s.data, samples);
  }

  lemma OtherStepsLeaveLoss(cfg: Config, s: Session, step: Step)
    requires D.Valid(s.data) && R.Accounted(s.out.ring) && cfg.frameBytes > 0 && !step.Account? && !step.Deliver?
    ensures var t := Stepped(cfg, s, step);
            && t.data.lost == s.data.lost && t.data.loss == s.data.loss && t.reports == s.reports
            && t.handed == s.handed && t.offered == s.offered
  {
  }

  lemma StepExplains(cfg: Config, s: Session, step: Step)
    requires Inv(cfg, s) && Audited(cfg, s) && Explained(cfg, s)
    ensures Explained(cfg, Stepped(cfg, s, step))
  {
    if step.Deliver? {
      DeliverExplains(cfg, s, step.samples);
    } else if step.Account? {
      if !s.quiesced && s.callback.read.Some? {
        AccountExplains(cfg, s);
      }
    } else {
      OtherStepsLeaveLoss(cfg, s, step);
    }
  }

  lemma {:induction false} EveryLossExplained(cfg: Config, s: Session, steps: seq<Step>)
    requires Inv(cfg, s) && Audited(cfg, s) && Explained(cfg, s)
    ensures Explained(cfg, From(cfg, s, steps))
    decreases |steps|
  {
    if steps != [] {
      SessionStepKeeps(cfg, s, steps[0]);
      StepAudits(cfg, s, steps[0]);
      StepExplains(cfg, s, steps[0]);
      EveryLossExplained(cfg, Stepped(cfg, s, steps[0]), steps[1..]);
    }
  }

  /** In every run a loss is latched exactly when a buffer was refused or a report confirmed one, and it
      is the full FIFO or the first one confirmed. */
  lemma LostExactlyWhen(cfg: Config, steps: seq<Step>)
    requires Sane(cfg)
    ensures var s := After(cfg, steps);
            && (s.data.lost <==>
                  |s.handed| < |s.offered| || exists n :: 0 <= n < |s.reports| && L.EntryAt(cfg.rate, s.reports, n).verdict.Some?)
            && Explained(cfg, s)
  {
    OpenKeeps(cfg);
    EveryLossExplained(cfg, Open(cfg), steps);
    EveryRunIsAudited(cfg, Open(cfg), steps);
  }

  // ---------------------------------------------------------------------------------------------
  // Losses, in audio

  /** How far the clock ran ahead of the audio offered after report `m`, through report `n`. */
  ghost function Shortfall(cfg: Config, s: Session, m: nat, n: nat): real
    requires Tracked(cfg, s) && m <= n < |s.reports|
  {
    L.Clocked(LedgerOf(cfg, s), m, n) - Audio(cfg, s, m, n) as real
  }

  /** The account's deficit is the shortfall, with the unread audio counted as missing; so the two
      agree exactly on the windows in which every clock read succeeded. */
  lemma DeficitIsShortfallAndUnread(cfg: Config, s: Session, m: nat, n: nat)
    requires Tracked(cfg, s) && m <= n < |s.reports|
    ensures L.Deficit(LedgerOf(cfg, s), m, n) == Shortfall(cfg, s, m, n) + Unread(cfg, s, m, n) as real
    ensures L.Deficit(LedgerOf(cfg, s), m, n) == Shortfall(cfg, s, m, n) <==> AllRead(s, m, n)
  {
    L.DeficitIsClockedLessArrived(LedgerOf(cfg, s), m, n);
    ArrivedIsReadAudio(cfg, s, m, n);
    UnreadExactlyWhenAClockFailed(cfg, s, m, n);
  }

  /** Over some window up to report `i`, within its account, the shortfall and the unread audio come
      to more than the credit and the tolerance. */
  ghost predicate Unexplained(cfg: Config, s: Session, i: nat)
    requires Tracked(cfg, s) && i < |s.reports| && LedgerOf(cfg, s)[0].opens
  {
    var es, rate := LedgerOf(cfg, s), cfg.rate as real;
    exists m :: L.Start(es, i) <= m <= i
      && Shortfall(cfg, s, m, i) + Unread(cfg, s, m, i) as real > L.Slack(rate, es[m]) + C.Tolerance(rate)
  }

  lemma OverExactlyWhenUnexplained(cfg: Config, s: Session, i: nat)
    requires Tracked(cfg, s) && i < |s.reports| && L.IsLedger(cfg.rate as real, LedgerOf(cfg, s))
    ensures L.Over(cfg.rate as real, LedgerOf(cfg, s)[i]) <==> Unexplained(cfg, s, i)
  {
    var es, rate := LedgerOf(cfg, s), cfg.rate as real;
    var k := L.NothingInvented(rate, es, i);
    DeficitIsShortfallAndUnread(cfg, s, k, i);
    forall m | L.Start(es, i) <= m <= i
      ensures Shortfall(cfg, s, m, i) + Unread(cfg, s, m, i) as real - L.Slack(rate, es[m]) <= es[i].balance.owed
    {
      DeficitIsShortfallAndUnread(cfg, s, m, i);
      L.NothingForgiven(rate, es, m, i);
    }
  }

  /** From report `k` through `n` something stayed unexplained, and the audio read after `k` ran
      through the confirmation window. */
  ghost predicate Confirmed(cfg: Config, s: Session, k: nat, n: nat)
    requires Tracked(cfg, s) && k <= n < |s.reports| && LedgerOf(cfg, s)[0].opens
  {
    && (forall i :: k <= i <= n ==> Unexplained(cfg, s, i))
    && (Audio(cfg, s, k, n) - Unread(cfg, s, k, n)) as real >= C.Confirmation(cfg.rate as real)
  }

  lemma ConfirmedIsUnrepaid(cfg: Config, s: Session, k: nat, n: nat)
    requires Tracked(cfg, s) && k < n < |s.reports| && L.IsLedger(cfg.rate as real, LedgerOf(cfg, s))
    ensures Confirmed(cfg, s, k, n) <==> L.Unrepaid(cfg.rate as real, LedgerOf(cfg, s), k, n)
  {
    ArrivedIsReadAudio(cfg, s, k, n);
    forall i | k <= i <= n
      ensures L.Over(cfg.rate as real, LedgerOf(cfg, s)[i]) <==> Unexplained(cfg, s, i)
    {
      OverExactlyWhenUnexplained(cfg, s, i);
    }
  }

  lemma VerdictIsConfirmed(cfg: Config, s: Session, n: nat)
    requires Tracked(cfg, s) && n < |s.reports| && L.IsLedger(cfg.rate as real, LedgerOf(cfg, s))
    ensures var es := LedgerOf(cfg, s);
            es[n].verdict.Some? <==> exists k :: L.Start(es, n) <= k < n && Confirmed(cfg, s, k, n)
  {
    var es, rate := LedgerOf(cfg, s), cfg.rate as real;
    L.LossExactlyWhenUnrepaid(rate, es, n);
    if k :| L.Start(es, n) <= k < n && Confirmed(cfg, s, k, n) {
      ConfirmedIsUnrepaid(cfg, s, k, n);
    }
    if es[n].verdict.Some? {
      var k :| L.Start(es, n) <= k < n && L.Unrepaid(rate, es, k, n);
      ConfirmedIsUnrepaid(cfg, s, k, n);
    }
  }

  /** In every run, report `n` confirms a loss exactly when the clock ran ahead of the audio read, in
      the sense above, through a confirmation window. Unread audio counts as missing, and never as
      evidence. */
  lemma LossExactlyWhenConfirmed(cfg: Config, steps: seq<Step>, n: nat)
    requires Sane(cfg) && n < |After(cfg, steps).reports|
    ensures var s := After(cfg, steps);
            var es := LedgerOf(cfg, s);
            && Tracked(cfg, s) && es[0].opens
            && (es[n].verdict.Some? <==> exists k :: L.Start(es, n) <= k < n && Confirmed(cfg, s, k, n))
  {
    RunIsAuditedAndTracked(cfg, steps);
    VerdictIsConfirmed(cfg, After(cfg, steps), n);
  }

  /** A confirmed loss is real but for unread audio: over some window of its account the shortfall is
      at least the loss less the window's unread frames, so where every clock was read the audio
      really is that short. */
  lemma ConfirmedLossIsRealButForUnread(cfg: Config, steps: seq<Step>, n: nat) returns (m: nat)
    requires Sane(cfg) && n < |After(cfg, steps).reports| && LedgerOf(cfg, After(cfg, steps))[n].verdict.Some?
    ensures var s := After(cfg, steps);
            var es := LedgerOf(cfg, s);
            var owed := es[n].balance.owed;
            && Tracked(cfg, s) && es[0].opens && L.Start(es, n) <= m < n && owed > C.Tolerance(cfg.rate as real)
            && Shortfall(cfg, s, m, n) >= owed - Unread(cfg, s, m, n) as real
            && (AllRead(s, L.Start(es, n), n) ==> Shortfall(cfg, s, m, n) >= owed)
  {
    var s := After(cfg, steps);
    var es := LedgerOf(cfg, s);
    RunIsAuditedAndTracked(cfg, steps);
    m := L.ReportedLossIsReal(cfg.rate as real, es, n);
    DeficitIsShortfallAndUnread(cfg, s, m, n);
  }

  // ---------------------------------------------------------------------------------------------
  // Clean ends, in audio

  /** A window of the account, from report `m`, whose audio fell short by more than its credit and the
      tolerance at report `j` and stayed so until report `n`, through a confirmation window of audio
      that was read. */
  ghost predicate Missing(cfg: Config, s: Session, m: nat, j: nat, n: nat)
    requires Tracked(cfg, s)
  {
    var es, rate := LedgerOf(cfg, s), cfg.rate as real;
    && m <= j < n < |s.reports| && es[0].opens && L.Start(es, n) <= m
    && (forall i :: j <= i <= n ==> Shortfall(cfg, s, m, i) > L.Slack(rate, es[m]) + C.Tolerance(rate))
    && (Audio(cfg, s, j, n) - Unread(cfg, s, j, n)) as real >= C.Confirmation(rate)
  }

  lemma MissingIsReported(cfg: Config, s: Session, m: nat, j: nat, n: nat)
    requires Tracked(cfg, s) && L.IsLedger(cfg.rate as real, LedgerOf(cfg, s)) && Missing(cfg, s, m, j, n)
    ensures LedgerOf(cfg, s)[n].verdict.Some?
  {
    var es, rate := LedgerOf(cfg, s), cfg.rate as real;
    forall i | j <= i <= n
      ensures L.Deficit(es, m, i) > L.Slack(rate, es[m]) + C.Tolerance(rate)
    {
      DeficitIsShortfallAndUnread(cfg, s, m, i);
    }
    ArrivedIsReadAudio(cfg, s, j, n);
    L.MissingAudioIsReported(rate, es, m, j, n);
  }

  /** A session that ended clean missed nothing: the audio it was offered, all of which was heard but
      a partial frame, was in no window of any account short past the credit and the tolerance for
      long enough to be confirmed. */
  lemma CleanEndMissedNothing(cfg: Config, steps: seq<Step>, m: nat, j: nat, n: nat)
    requires Sane(cfg) && EndedClean(After(cfg, steps))
    ensures Tracked(cfg, After(cfg, steps)) && !Missing(cfg, After(cfg, steps), m, j, n)
  {
    var s := After(cfg, steps);
    RunIsAuditedAndTracked(cfg, steps);
    CleanEndHeardEverything(cfg, steps);
    if Missing(cfg, s, m, j, n) {
      MissingIsReported(cfg, s, m, j, n);
    }
  }

  /** Nor did it end on a gap: over every window of the last account up to the last report, the
      shortfall, even with unread audio counted as missing, is at most the window's credit, one cycle
      (at least the tolerance) and the tolerance. */
  lemma CleanEndLeavesNoGap(cfg: Config, steps: seq<Step>, m: nat)
    requires Sane(cfg) && EndedClean(After(cfg, steps)) && After(cfg, steps).reports != []
    ensures var s := After(cfg, steps);
            var es := LedgerOf(cfg, s);
            var rate := cfg.rate as real;
            var n := |es| - 1;
            Tracked(cfg, s) && es[0].opens && (L.Start(es, n) <= m <= n ==>
              Shortfall(cfg, s, m, n) + Unread(cfg, s, m, n) as real
                <= L.Slack(rate, es[m]) + C.Credit(rate, es[n].balance) + C.Tolerance(rate))
  {
    var s := After(cfg, steps);
    var es := LedgerOf(cfg, s);
    var n := |es| - 1;
    RunIsAuditedAndTracked(cfg, steps);
    CleanEndHeardEverything(cfg, steps);
    assert es[n] == L.EntryAt(cfg.rate, s.reports, n);
    assert es[n].balance == s.data.account.balance;
    if L.Start(es, n) <= m <= n {
      DeficitIsShortfallAndUnread(cfg, s, m, n);
      L.NothingForgiven(cfg.rate as real, es, m, n);
    }
  }
}
