/**
 A run in which every frame the clock counts is handed over and a loss is confirmed all the same,
 because one callback could not read the clock.
 */
module FalseLoss {
  import opened Prelude
  import C = Continuity
  import D = DataPath
  import L = Ledger
  import M = Mix
  import opened Session
  import opened Callbacks
  import A = Audit

  /** A hundred mono frames a second, ten to a buffer. */
  const CONFIG := Config(1000, 2, 1000, 200, 1000, M.Passthrough(2), 100)

  const BUFFER: seq<Byte> := [0, 0, 0, 0, 0, 0, 0, 0, 0, 0, 0, 0, 0, 0, 0, 0, 0, 0, 0, 0]

  /** A callback with one buffer, the clock at `ticks`. */
  function ReadAt(ticks: nat): seq<Step> {
    [Deliver(BUFFER), ReadClock(Some(D.Clock(ticks, 1, 100))), Account]
  }

  /** A callback with one buffer and no clock. */
  const UNREAD: seq<Step> := [Deliver(BUFFER), ReadClock(None)]

  function EventAt(ticks: nat): L.Event {
    L.Event(false, C.Report(ticks, 1, 100, 10))
  }

  /** The account after a report at `ticks`. */
  function AccountAt(ticks: nat, balance: C.Balance): C.Account {
    C.Account(100.0, Some((1, 100)), Some(ticks), balance, C.Gauge(10.0, 0))
  }

  const OWING := AccountAt(20, C.Balance(10.0, 20.0, Some(0.0)))

  const WAITING := AccountAt(30, C.Balance(10.0, 10.0, Some(10.0)))

  const CONFIRMED := AccountAt(40, C.Balance(10.0, 10.0, Some(20.0)))

  /** Four accounts, each the one before charged with the next report; the last confirms a loss. */
  ghost predicate Charged(started: C.Account, owing: C.Account, waiting: C.Account, confirmed: C.Account, lost: real) {
    && C.Valid(started) && C.Valid(owing) && C.Valid(waiting)
    && L.Stepped(C.New(100), EventAt(0)) == (started, None)
    && L.Stepped(started, EventAt(20)) == (owing, None)
    && L.Stepped(owing, EventAt(30)) == (waiting, None)
    && L.Stepped(waiting, EventAt(40)) == (confirmed, Some(lost))
  }

  lemma OpensAndOwes()
    ensures L.Stepped(C.New(100), EventAt(0)) == (AccountAt(0, C.EMPTY), None)
    ensures C.Valid(AccountAt(0, C.EMPTY)) && C.Valid(OWING)
    ensures L.Stepped(AccountAt(0, C.EMPTY), EventAt(20)) == (OWING, None)
  {
  }

  lemma TenTicksAreTenFrames(last: nat)
    ensures C.Expected(100.0, last, EventAt(last + 10).report) == 10.0
  {
  }

  lemma OwingWaits()
    ensures C.Valid(OWING) && L.Stepped(OWING, EventAt(30)) == (WAITING, None)
  {
    TenTicksAreTenFrames(20);
    assert C.Charge(100.0, OWING.balance, 10.0, 10.0) == (WAITING.balance, None);
  }

  lemma WaitingConfirms()
    ensures C.Valid(WAITING) && L.Stepped(WAITING, EventAt(40)) == (CONFIRMED, Some(0.1))
  {
    TenTicksAreTenFrames(30);
    assert C.Charge(100.0, WAITING.balance, 10.0, 10.0) == (CONFIRMED.balance, Some(0.1));
  }

  lemma ChargedInRun()
    ensures Charged(AccountAt(0, C.EMPTY), OWING, WAITING, CONFIRMED, 0.1)
  {
    OpensAndOwes();
    OwingWaits();
    WaitingConfirms();
  }

  /** Where the run's callbacks leave the data thread. */
  ghost predicate Between(s: Session, account: C.Account, offered: nat, reports: seq<L.Event>, calls: seq<Call>, unread: nat) {
    && Inv(CONFIG, s) && !s.quiesced && !s.data.lost
    && s.data.mix == CONFIG.mix && s.data.capacity == 1000 && s.data.epoch == s.data.seenEpoch
    && s.data.account == account && |s.data.ring| == 20 * offered
    && s.offered == s.handed == Buffers(offered)
    && s.callback == IdleFrom(offered).(unread := unread) && s.reports == reports && s.calls == calls
  }

  function Buffers(n: nat): (bs: seq<seq<Byte>>)
    ensures |bs| == n
  {
    seq(n, _ => BUFFER)
  }

  lemma Delivering(s: Session, account: C.Account, offered: nat, reports: seq<L.Event>, calls: seq<Call>, unread: nat)
    requires Between(s, account, offered, reports, calls, unread) && offered < 50
    ensures var t := Stepped(CONFIG, s, Deliver(BUFFER));
            && t.data == s.data.(ring := s.data.ring + BUFFER) && t.offered == t.handed == Buffers(offered + 1)
            && t == s.(data := t.data, offered := t.offered, handed := t.handed, callback := s.callback.(counted := 10))
  {
    assert Buffers(offered) + [BUFFER] == Buffers(offered + 1);
    M.MixedFillsReservation(CONFIG.mix, BUFFER);
    WholeInTimes(2, 10);
  }

  lemma Reading(s: Session, account: C.Account, offered: nat, reports: seq<L.Event>, calls: seq<Call>, unread: nat,
                ticks: nat, next: C.Account, lost: Option<real>, rest: seq<Step>) returns (t: Session)
    requires Between(s, account, offered, reports, calls, unread) && offered < 50
    requires C.Valid(account) && L.Stepped(account, EventAt(ticks)) == (next, lost)
    ensures Inv(CONFIG, t) && From(CONFIG, s, ReadAt(ticks) + rest) == From(CONFIG, t, rest)
    ensures t.offered == t.handed == Buffers(offered + 1) && t.reports == reports + [EventAt(ticks)]
    ensures t.calls == calls + [Call(offered, offered + 1, unread)]
    ensures t.data.lost == lost.Some?
    ensures lost.None? ==> Between(t, next, offered + 1, t.reports, t.calls, 0)
  {
    Delivering(s, account, offered, reports, calls, unread);
    var clock := Some(D.Clock(ticks, 1, 100));
    FromCons(CONFIG, s, Deliver(BUFFER), [ReadClock(clock)] + ([Account] + rest));
    assert ReadAt(ticks) + rest == [Deliver(BUFFER)] + ([ReadClock(clock)] + ([Account] + rest));
    t := Stepped(CONFIG, s, Deliver(BUFFER));
    t := Accounting(t, clock.value, rest);
  }

  lemma ClockStep(s: Session, clock: D.Clock)
    requires Inv(CONFIG, s) && !s.quiesced && s.callback.counted > 0 && s.callback.read.None?
    ensures Stepped(CONFIG, s, ReadClock(Some(clock))) == s.(callback := s.callback.(read := Some((clock, s.data.epoch))))
  {
  }

  lemma AccountStep(s: Session)
    requires Inv(CONFIG, s) && !s.quiesced && s.callback.read.Some?
    ensures var t := Stepped(CONFIG, s, Account);
            && t.calls == s.calls + [Call(s.callback.start, |s.offered|, s.callback.unread)]
            && t.callback == IdleFrom(|s.offered|)
            && t.offered == s.offered && t.handed == s.handed && !t.quiesced
  {
  }

  /** The callback from its clock read on. */
  lemma Accounting(s: Session, clock: D.Clock, rest: seq<Step>) returns (t: Session)
    requires Inv(CONFIG, s) && !s.quiesced && s.callback.counted > 0 && s.callback.read.None?
    ensures Inv(CONFIG, t)
    ensures From(CONFIG, s, [ReadClock(Some(clock))] + ([Account] + rest)) == From(CONFIG, t, rest)
    ensures var report := D.ReportOf(clock, s.callback.counted);
            && t.data == D.Accounted(s.data, s.data.epoch, report)
            && t.reports == s.reports + [L.Event(s.data.epoch != s.data.seenEpoch, report)]
            && t.calls == s.calls + [Call(s.callback.start, |s.offered|, s.callback.unread)]
            && t.callback == IdleFrom(|s.offered|)
            && t.offered == s.offered && t.handed == s.handed && !t.quiesced
  {
    FromCons(CONFIG, s, ReadClock(Some(clock)), [Account] + rest);
    ClockStep(s, clock);
    var u := Stepped(CONFIG, s, ReadClock(Some(clock)));
    FromCons(CONFIG, u, Account, rest);
    A.AccountStep(CONFIG, u);
    AccountStep(u);
    t := Stepped(CONFIG, u, Account);
  }

  lemma NotReading(s: Session, account: C.Account, offered: nat, reports: seq<L.Event>, calls: seq<Call>, unread: nat,
                   rest: seq<Step>) returns (t: Session)
    requires Between(s, account, offered, reports, calls, unread) && offered < 50
    ensures Between(t, account, offered + 1, reports, calls, unread + 1)
    ensures From(CONFIG, s, UNREAD + rest) == From(CONFIG, t, rest)
  {
    Delivering(s, account, offered, reports, calls, unread);
    FromCons(CONFIG, s, Deliver(BUFFER), [ReadClock(None)] + rest);
    assert UNREAD + rest == [Deliver(BUFFER)] + ([ReadClock(None)] + rest);
    t := Stepped(CONFIG, s, Deliver(BUFFER));
    FromCons(CONFIG, t, ReadClock(None), rest);
    t := Stepped(CONFIG, t, ReadClock(None));
  }

  const EVENTS: seq<L.Event> := [EventAt(0), EventAt(20), EventAt(30), EventAt(40)]

  const CALLS: seq<Call> := [Call(0, 1, 0), Call(2, 3, 1), Call(3, 4, 0), Call(4, 5, 0)]

  const RUN: seq<Step> := ReadAt(0) + (UNREAD + (ReadAt(20) + (ReadAt(30) + (ReadAt(40) + []))))

  ghost predicate Ends(s: Session) {
    s.data.lost && s.offered == s.handed == Buffers(5) && s.reports == EVENTS && s.calls == CALLS
  }

  lemma Starts(s: Session, account: C.Account, rest: seq<Step>) returns (t: Session)
    requires Between(s, C.New(100), 0, [], [], 0) && L.Stepped(C.New(100), EventAt(0)) == (account, None)
    ensures Between(t, account, 1, EVENTS[..1], CALLS[..1], 0)
    ensures From(CONFIG, s, ReadAt(0) + rest) == From(CONFIG, t, rest)
  {
    t := Reading(s, C.New(100), 0, [], [], 0, 0, account, None, rest);
    assert t.reports == EVENTS[..1] && t.calls == CALLS[..1];
  }

  lemma Skips(s: Session, account: C.Account, rest: seq<Step>) returns (t: Session)
    requires Between(s, account, 1, EVENTS[..1], CALLS[..1], 0)
    ensures Between(t, account, 2, EVENTS[..1], CALLS[..1], 1)
    ensures From(CONFIG, s, UNREAD + rest) == From(CONFIG, t, rest)
  {
    t := NotReading(s, account, 1, EVENTS[..1], CALLS[..1], 0, rest);
  }

  lemma Owes(s: Session, account: C.Account, owing: C.Account, rest: seq<Step>) returns (t: Session)
    requires Between(s, account, 2, EVENTS[..1], CALLS[..1], 1) && C.Valid(account)
    requires L.Stepped(account, EventAt(20)) == (owing, None)
    ensures Between(t, owing, 3, EVENTS[..2], CALLS[..2], 0)
    ensures From(CONFIG, s, ReadAt(20) + rest) == From(CONFIG, t, rest)
  {
    t := Reading(s, account, 2, EVENTS[..1], CALLS[..1], 1, 20, owing, None, rest);
    assert t.reports == EVENTS[..2] && t.calls == CALLS[..2];
  }

  lemma Waits(s: Session, owing: C.Account, waiting: C.Account, rest: seq<Step>) returns (t: Session)
    requires Between(s, owing, 3, EVENTS[..2], CALLS[..2], 0) && C.Valid(owing)
    requires L.Stepped(owing, EventAt(30)) == (waiting, None)
    ensures Between(t, waiting, 4, EVENTS[..3], CALLS[..3], 0)
    ensures From(CONFIG, s, ReadAt(30) + rest) == From(CONFIG, t, rest)
  {
    t := Reading(s, owing, 3, EVENTS[..2], CALLS[..2], 0, 30, waiting, None, rest);
    assert t.reports == EVENTS[..3] && t.calls == CALLS[..3];
  }

  lemma Loses(s: Session, account: C.Account, confirmed: C.Account, lost: real, rest: seq<Step>) returns (t: Session)
    requires Between(s, account, 4, EVENTS[..3], CALLS[..3], 0) && C.Valid(account)
    requires L.Stepped(account, EventAt(40)) == (confirmed, Some(lost))
    ensures Inv(CONFIG, t) && Ends(t) && From(CONFIG, s, ReadAt(40) + rest) == From(CONFIG, t, rest)
  {
    t := Reading(s, account, 4, EVENTS[..3], CALLS[..3], 0, 40, confirmed, Some(lost), rest);
    assert EVENTS == EVENTS[..3] + [EventAt(40)] && CALLS == CALLS[..3] + [Call(4, 5, 0)];
  }

  lemma Continues(s: Session, started: C.Account, owing: C.Account, waiting: C.Account, confirmed: C.Account,
                  lost: real, rest: seq<Step>) returns (t: Session)
    requires Between(s, C.New(100), 0, [], [], 0) && Charged(started, owing, waiting, confirmed, lost)
    ensures Inv(CONFIG, t) && Ends(t)
    ensures From(CONFIG, s, ReadAt(0) + (UNREAD + (ReadAt(20) + (ReadAt(30) + (ReadAt(40) + rest))))) == From(CONFIG, t, rest)
  {
    t := Starts(s, started, UNREAD + (ReadAt(20) + (ReadAt(30) + (ReadAt(40) + rest))));
    t := Skips(t, started, ReadAt(20) + (ReadAt(30) + (ReadAt(40) + rest)));
    t := Owes(t, started, owing, ReadAt(30) + (ReadAt(40) + rest));
    t := Waits(t, owing, waiting, ReadAt(40) + rest);
    t := Loses(t, waiting, confirmed, lost, rest);
  }

  lemma RunEnds()
    ensures Sane(CONFIG) && Ends(After(CONFIG, RUN))
  {
    OpenKeeps(CONFIG);
    ChargedInRun();
    var t := Continues(Open(CONFIG), AccountAt(0, C.EMPTY), OWING, WAITING, CONFIRMED, 0.1, []);
  }

  /** What the clock counts between reports. */
  lemma DueInRun(n: nat)
    requires 0 < n < 4
    ensures L.LedgerOf(100, EVENTS)[n].due == if n == 1 then 20.0 else 10.0
  {
    assert L.LedgerOf(100, EVENTS)[n] == L.EntryAt(100, EVENTS, n);
  }

  lemma ClockedOf(es: seq<L.Entry>)
    requires |es| == 4 && es[1].due == 20.0 && es[2].due == 10.0 && es[3].due == 10.0
    ensures L.Clocked(es, 3, 3) == 0.0 && L.Clocked(es, 2, 3) == 10.0
    ensures L.Clocked(es, 1, 3) == 20.0 && L.Clocked(es, 0, 3) == 40.0
  {
    assert L.Clocked(es, 0, 0) == 0.0 && L.Clocked(es, 1, 1) == 0.0 && L.Clocked(es, 2, 2) == 0.0;
    assert L.Clocked(es, 0, 1) == 20.0 && L.Clocked(es, 1, 2) == 10.0;
    assert L.Clocked(es, 0, 2) == 30.0;
  }

  /** From each report on, the clock counts to the end what the buffers hold. */
  lemma ClockedInRun(m: nat)
    requires m < 4
    ensures L.Clocked(L.LedgerOf(100, EVENTS), m, 3) == (10 * (5 - CALLS[m].end)) as real
  {
    DueInRun(1);
    DueInRun(2);
    DueInRun(3);
    ClockedOf(L.LedgerOf(100, EVENTS));
  }

  lemma {:induction false} FramesOfBuffers(a: nat, b: nat)
    requires a <= b <= 5
    ensures FramesIn(CONFIG.mix, Buffers(5), a, b) == 10 * (b - a)
  {
    if a < b {
      FramesOfBuffers(a, b - 1);
      WholeInTimes(2, 10);
    }
  }

  lemma NothingShort(s: Session, m: nat)
    requires Tracked(CONFIG, s) && Ends(s) && m < 4
    ensures A.Shortfall(CONFIG, s, m, 3) == 0.0
  {
    ClockedInRun(m);
    FramesOfBuffers(CALLS[m].end, 5);
  }

  /** All five buffers are handed over and no window is short of a single frame, yet the last report
      confirms a loss: the ten frames of the second callback were never reported. */
  lemma UnreadClockInventsALoss()
    ensures Sane(CONFIG)
    ensures var s := After(CONFIG, RUN);
            && Tracked(CONFIG, s) && |s.reports| == 4
            && s.handed == s.offered && s.data.lost
            && forall m :: 0 <= m < 4 ==> A.Shortfall(CONFIG, s, m, 3) == 0.0
  {
    RunEnds();
    A.RunIsAuditedAndTracked(CONFIG, RUN);
    forall m | 0 <= m < 4
      ensures A.Shortfall(CONFIG, After(CONFIG, RUN), m, 3) == 0.0
    {
      NothingShort(After(CONFIG, RUN), m);
    }
  }
}
