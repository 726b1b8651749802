/**
 What the loss account amounts to over a whole run: the balance in closed form, when a loss is
 reported, when the account starts over, and what that means for audio that really went missing.
 */
module Ledger {
  import opened Prelude
  import opened Continuity

  /** One accounted callback: whether it opened a new account, the frames its clock advance
      produced, the frames it brought, and the balance and verdict it left. */
  datatype Entry = Entry(opens: bool, due: real, frames: real, balance: Balance, verdict: Option<real>)

  /** The entry is what `Charge` makes of the balance before it. */
  ghost predicate Follows(rate: real, before: Balance, e: Entry) {
    && ValidBalance(rate, before)
    && e.due >= 0.0 && e.frames >= 0.0 && (rate == 0.0 ==> e.due == 0.0)
    && (if e.opens then e.balance == EMPTY && e.verdict == None
        else (e.balance, e.verdict) == Charge(rate, before, e.due, e.frames))
  }

  /** Entry `n` is charged to the balance before it. */
  ghost predicate Linked(rate: real, es: seq<Entry>, n: nat)
    requires n < |es|
  {
    Follows(rate, if n == 0 then EMPTY else es[n - 1].balance, es[n])
  }

  ghost predicate IsLedger(rate: real, es: seq<Entry>) {
    && (es != [] ==> es[0].opens)
    && forall i :: 0 <= i < |es| ==> Linked(rate, es, i)
  }

  /** The entry that opened the account entry `n` belongs to. */
  ghost function Start(es: seq<Entry>, n: nat): (a: nat)
    requires n < |es| && es[0].opens
    ensures a <= n && es[a].opens
    ensures forall i :: a < i <= n ==> !es[i].opens
  {
    if es[n].opens then n else Start(es, n - 1)
  }

  /** Clock-expected minus delivered frames over the entries after `k`, through `n`. */
  ghost function Deficit(es: seq<Entry>, k: nat, n: nat): real
    requires k <= n < |es|
  {
    if n == k then 0.0 else Deficit(es, k, n - 1) + es[n].due - es[n].frames
  }

  /** Frames delivered after entry `k`, through entry `n`. */
  ghost function Arrived(es: seq<Entry>, k: nat, n: nat): real
    requires k <= n < |es|
  {
    if n == k then 0.0 else Arrived(es, k, n - 1) + es[n].frames
  }

  /** Frames the clock counted after entry `k`, through entry `n`. */
  ghost function Clocked(es: seq<Entry>, k: nat, n: nat): real
    requires k <= n < |es|
  {
    if n == k then 0.0 else Clocked(es, k, n - 1) + es[n].due
  }

  lemma {:induction false} DeficitIsClockedLessArrived(es: seq<Entry>, k: nat, n: nat)
    requires k <= n < |es|
    ensures Deficit(es, k, n) == Clocked(es, k, n) - Arrived(es, k, n)
    decreases n
  {
    if k < n {
      DeficitIsClockedLessArrived(es, k, n - 1);
    }
  }

  /** How far ahead of the clock the account could be after entry `m`; nothing when it opens. */
  ghost function Slack(rate: real, e: Entry): real {
    if e.opens then 0.0 else Credit(rate, e.balance)
  }

  ghost predicate Over(rate: real, e: Entry) {
    e.balance.owed > Tolerance(rate)
  }

  /** The cycle is the least positive clock advance of the account so far, zero before there is one. */
  lemma {:induction false} CycleIsSmallestAdvance(rate: real, es: seq<Entry>, n: nat)
    requires IsLedger(rate, es) && n < |es|
    ensures forall i :: Start(es, n) < i <= n && es[i].due > 0.0 ==> 0.0 < es[n].balance.cycle <= es[i].due
    ensures es[n].balance.cycle == 0.0
         || exists i :: Start(es, n) < i <= n && es[n].balance.cycle == es[i].due
  {
    assert Linked(rate, es, n);
    if !es[n].opens {
      CycleIsSmallestAdvance(rate, es, n - 1);
      if es[n].balance.cycle != es[n - 1].balance.cycle {
        assert es[n].balance.cycle == es[n].due;
      }
    }
  }

  /** No window's deficit is understated by more than the credit standing where it begins. */
  lemma {:induction false} NothingForgiven(rate: real, es: seq<Entry>, m: nat, n: nat)
    requires IsLedger(rate, es) && m <= n < |es| && Start(es, n) <= m
    ensures es[n].balance.owed >= Deficit(es, m, n) - Slack(rate, es[m])
    decreases n
  {
    assert Linked(rate, es, n);
    if m < n {
      NothingForgiven(rate, es, m, n - 1);
    }
  }

  /** Some window's deficit, less its credit, is the balance. */
  lemma {:induction false} NothingInvented(rate: real, es: seq<Entry>, n: nat) returns (m: nat)
    requires IsLedger(rate, es) && n < |es|
    ensures Start(es, n) <= m <= n
    ensures es[n].balance.owed == Deficit(es, m, n) - Slack(rate, es[m])
  {
    assert Linked(rate, es, n);
    if es[n].opens || es[n].balance.owed == -Credit(rate, es[n].balance) {
      m := n;
    } else {
      m := NothingInvented(rate, es, n - 1);
    }
  }

  /** The balance in closed form: the largest deficit of any window of the account ending at `n`,
      each less the credit standing where it begins. */
  lemma BalanceIsLargestUncoveredDeficit(rate: real, es: seq<Entry>, n: nat)
    requires IsLedger(rate, es) && n < |es|
    ensures forall m :: Start(es, n) <= m <= n ==> Deficit(es, m, n) - Slack(rate, es[m]) <= es[n].balance.owed
    ensures exists m :: Start(es, n) <= m <= n && es[n].balance.owed == Deficit(es, m, n) - Slack(rate, es[m])
  {
    forall m | Start(es, n) <= m <= n
      ensures Deficit(es, m, n) - Slack(rate, es[m]) <= es[n].balance.owed
    {
      NothingForgiven(rate, es, m, n);
    }
    var m := NothingInvented(rate, es, n);
  }

  /** The first entry of the unbroken stretch over the tolerance that entry `n` ends. */
  ghost function Opening(rate: real, es: seq<Entry>, n: nat): (k: nat)
    requires n < |es| && Over(rate, es[n])
    ensures k <= n
    ensures forall i :: k <= i <= n ==> Over(rate, es[i])
    ensures k == 0 || !Over(rate, es[k - 1])
  {
    if n == 0 || !Over(rate, es[n - 1]) then n else Opening(rate, es, n - 1)
  }

  /** The evidence against a deficit is the audio since the stretch opened. */
  lemma {:induction false} EvidenceIsArrivedAudio(rate: real, es: seq<Entry>, n: nat)
    requires IsLedger(rate, es) && n < |es| && Over(rate, es[n])
    ensures Start(es, n) < Opening(rate, es, n)
    ensures es[n].balance.unrepaid == Some(Arrived(es, Opening(rate, es, n), n))
  {
    assert Linked(rate, es, n);
    if Over(rate, es[n - 1]) {
      EvidenceIsArrivedAudio(rate, es, n - 1);
    }
  }

  lemma {:induction false} ArrivedShrinks(rate: real, es: seq<Entry>, j: nat, k: nat, n: nat)
    requires IsLedger(rate, es) && j <= k <= n < |es|
    ensures 0.0 <= Arrived(es, k, n) <= Arrived(es, j, n)
    decreases n
  {
    assert Linked(rate, es, n);
    if n > k {
      ArrivedShrinks(rate, es, j, k, n - 1);
    } else if j < k {
      ArrivedShrinks(rate, es, j, j, n - 1);
    }
  }

  /** The balance stayed over the tolerance from entry `k` through `n`, and the audio after `k`
      ran through the confirmation window without repaying it. */
  ghost predicate Unrepaid(rate: real, es: seq<Entry>, k: nat, n: nat)
    requires k < n < |es|
  {
    && (forall i :: k <= i <= n ==> Over(rate, es[i]))
    && Arrived(es, k, n) >= Confirmation(rate)
  }

  /** The verdict falls on the stretch over the tolerance, measured from its opening. */
  lemma VerdictIsOnTheStretch(rate: real, es: seq<Entry>, n: nat)
    requires IsLedger(rate, es) && n < |es|
    ensures es[n].verdict.Some? <==>
      Over(rate, es[n]) && Opening(rate, es, n) < n && Arrived(es, Opening(rate, es, n), n) >= Confirmation(rate)
    ensures es[n].verdict.Some? ==> rate > 0.0 && es[n].verdict.value == es[n].balance.owed / rate
  {
    assert Linked(rate, es, n);
    if Over(rate, es[n]) {
      EvidenceIsArrivedAudio(rate, es, n);
      if Over(rate, es[n - 1]) {
        EvidenceIsArrivedAudio(rate, es, n - 1);
      }
    }
  }

  /** A loss is reported exactly when a deficit outlived the confirmation window, and it is the
      balance in seconds. */
  lemma LossExactlyWhenUnrepaid(rate: real, es: seq<Entry>, n: nat)
    requires IsLedger(rate, es) && n < |es|
    ensures es[n].verdict.Some? <==> exists k :: Start(es, n) <= k < n && Unrepaid(rate, es, k, n)
    ensures es[n].verdict.Some? ==> rate > 0.0 && es[n].verdict.value == es[n].balance.owed / rate
  {
    VerdictIsOnTheStretch(rate, es, n);
    if Over(rate, es[n]) {
      EvidenceIsArrivedAudio(rate, es, n);
      var opening := Opening(rate, es, n);
      if es[n].verdict.Some? {
        assert Unrepaid(rate, es, opening, n);
      }
      forall k | Start(es, n) <= k < n && Unrepaid(rate, es, k, n)
        ensures es[n].verdict.Some?
      {
        assert opening <= k;
        ArrivedShrinks(rate, es, opening, k, n);
      }
    }
  }

  /** Audio that never came is reported: once a window is short by more than its credit and the
      tolerance, and stays so through a confirmation window of later audio, a loss that size is
      reported. */
  lemma MissingAudioIsReported(rate: real, es: seq<Entry>, m: nat, j: nat, n: nat)
    requires IsLedger(rate, es) && m <= j < n < |es| && Start(es, n) <= m
    requires forall i :: j <= i <= n ==> Deficit(es, m, i) > Slack(rate, es[m]) + Tolerance(rate)
    requires Arrived(es, j, n) >= Confirmation(rate)
    ensures es[n].verdict.Some?
    ensures es[n].balance.owed >= Deficit(es, m, n) - Slack(rate, es[m])
  {
    assert Linked(rate, es, n);
    forall i | j <= i <= n
      ensures Over(rate, es[i])
    {
      StartWithin(es, i, n);
      NothingForgiven(rate, es, m, i);
    }
    assert Unrepaid(rate, es, j, n);
    LossExactlyWhenUnrepaid(rate, es, n);
    NothingForgiven(rate, es, m, n);
  }

  lemma {:induction false} StartWithin(es: seq<Entry>, m: nat, n: nat)
    requires n < |es| && es[0].opens && Start(es, n) <= m <= n
    ensures Start(es, m) == Start(es, n)
  {
    if m < n {
      StartWithin(es, m, n - 1);
    }
  }

  /** Frames that were reported are never called lost: a reported loss names a window of its account
      whose clock really ran that far ahead of the frames reported. */
  lemma ReportedLossIsReal(rate: real, es: seq<Entry>, n: nat) returns (m: nat)
    requires IsLedger(rate, es) && n < |es| && es[n].verdict.Some?
    ensures Start(es, n) <= m < n
    ensures Deficit(es, m, n) >= es[n].balance.owed > Tolerance(rate)
  {
    LossExactlyWhenUnrepaid(rate, es, n);
    m := NothingInvented(rate, es, n);
  }

  // ---------------------------------------------------------------------------------------------
  // The graph-cycle measurement

  ghost function GaugeAt(fs: seq<nat>, n: nat): Gauge
    requires n <= |fs|
  {
    if n == 0 then Gauge(0.0, 0) else Measured(GaugeAt(fs, n - 1), fs[n - 1]).0
  }

  ghost predicate CycleChanges(fs: seq<nat>, n: nat)
    requires n < |fs|
  {
    Measured(GaugeAt(fs, n), fs[n]).1
  }

  /** A non-empty delivery outside the band of the cycle measured before it. */
  ghost predicate OutOfBand(fs: seq<nat>, i: nat)
    requires i < |fs|
  {
    fs[i] > 0 && GaugeAt(fs, i).delivery != 0.0 && !InBand(GaugeAt(fs, i).delivery, fs[i] as real)
  }

  /** Delivery `i` disagreed, was not itself a change, and only empty ones came before `n`. */
  ghost predicate Disagreement(fs: seq<nat>, i: nat, n: nat)
    requires i < n <= |fs|
  {
    OutOfBand(fs, i) && !CycleChanges(fs, i) && forall j :: i < j < n ==> fs[j] == 0
  }

  lemma {:induction false} OneDisagreementStanding(fs: seq<nat>, n: nat)
    requires n <= |fs|
    ensures GaugeAt(fs, n).disagreed < 2
    ensures GaugeAt(fs, n).delivery == 0.0 ==> GaugeAt(fs, n).disagreed == 0
    ensures GaugeAt(fs, n).disagreed == 1 <==> exists i :: 0 <= i < n && Disagreement(fs, i, n)
  {
    if n > 0 {
      var last := n - 1;
      OneDisagreementStanding(fs, last);
      if fs[last] == 0 {
        assert forall i :: 0 <= i < last ==> (Disagreement(fs, i, last) <==> Disagreement(fs, i, n));
      } else {
        assert forall i :: 0 <= i < last ==> !Disagreement(fs, i, n);
        assert OutOfBand(fs, last) && !CycleChanges(fs, last) <==> Disagreement(fs, last, n);
      }
    }
  }

  /** The graph's cycle counts as changed exactly on the second out-of-band delivery running, so a
      lone burst or short buffer never forgives a deficit. */
  lemma CycleChangeTakesTwoInARow(fs: seq<nat>, n: nat)
    requires n < |fs|
    ensures CycleChanges(fs, n) <==> OutOfBand(fs, n) && exists i :: 0 <= i < n && Disagreement(fs, i, n)
  {
    OneDisagreementStanding(fs, n);
  }

  // ---------------------------------------------------------------------------------------------
  // Every run of the account is such a ledger

  /** One accounted callback. `stateChanged`: the stream changed state since the previous one. */
  datatype Event = Event(stateChanged: bool, report: Report)

  /** `DataPath::account`'s use of the account. */
  function Stepped(a: Account, e: Event): (s: (Account, Option<real>))
    requires Valid(a)
    ensures Valid(s.0) && s.0.rate == a.rate && s.0.lastTicks == Some(e.report.ticks)
  {
    AfterReport(if e.stateChanged then Restarted(a) else a, e.report)
  }

  /** The account after the first `n` events. */
  ghost function At(rate: nat, evs: seq<Event>, n: nat): (a: Account)
    requires n <= |evs|
    ensures Valid(a) && a.rate == rate as real
    ensures n > 0 ==> a.lastTicks == Some(evs[n - 1].report.ticks)
  {
    if n == 0 then New(rate) else Stepped(At(rate, evs, n - 1), evs[n - 1]).0
  }

  /** What event `n` is charged, read off the reports: it opens an account when the stream changed
      state, its clock domain changed, or its graph cycle did. */
  ghost function EntryAt(rate: nat, evs: seq<Event>, n: nat): Entry
    requires n < |evs|
  {
    var a := At(rate, evs, n);
    var e := evs[n];
    var opens := n == 0 || e.stateChanged || StartsOver(a, e.report);
    var due := if n == 0 then 0.0 else Expected(rate as real, evs[n - 1].report.ticks, e.report);
    Entry(opens, due, e.report.frames as real, Stepped(a, e).0.balance, Stepped(a, e).1)
  }

  ghost function LedgerOf(rate: nat, evs: seq<Event>): (es: seq<Entry>)
    ensures |es| == |evs|
  {
    seq(|evs|, n requires 0 <= n < |evs| => EntryAt(rate, evs, n))
  }

  lemma EntryFollows(rate: nat, evs: seq<Event>, n: nat)
    requires n < |evs|
    ensures Follows(rate as real, if n == 0 then EMPTY else EntryAt(rate, evs, n - 1).balance, EntryAt(rate, evs, n))
    ensures n == 0 ==> EntryAt(rate, evs, n).opens
  {
  }

  lemma EntryLinked(rate: nat, evs: seq<Event>, n: nat)
    requires n < |evs|
    ensures Linked(rate as real, LedgerOf(rate, evs), n)
    ensures n == 0 ==> LedgerOf(rate, evs)[n].opens
  {
    var es := LedgerOf(rate, evs);
    EntryFollows(rate, evs, n);
    assert es[n] == EntryAt(rate, evs, n);
    if n > 0 {
      assert es[n - 1] == EntryAt(rate, evs, n - 1);
    }
  }

  /** Every run of the account keeps a ledger, so everything above holds of it. */
  lemma RunKeepsLedger(rate: nat, evs: seq<Event>)
    ensures IsLedger(rate as real, LedgerOf(rate, evs))
  {
    forall i | 0 <= i < |evs|
      ensures Linked(rate as real, LedgerOf(rate, evs), i)
      ensures i == 0 ==> LedgerOf(rate, evs)[i].opens
    {
      EntryLinked(rate, evs, i);
    }
  }

  /** What came before does not depend on what comes after. */
  lemma {:induction false} AtOfPrefix(rate: nat, evs: seq<Event>, e: Event, n: nat)
    requires n <= |evs|
    ensures At(rate, evs + [e], n) == At(rate, evs, n)
  {
    if n > 0 {
      AtOfPrefix(rate, evs, e, n - 1);
    }
  }

  lemma EntryOfPrefix(rate: nat, evs: seq<Event>, e: Event, n: nat)
    requires n < |evs|
    ensures EntryAt(rate, evs + [e], n) == EntryAt(rate, evs, n)
  {
    AtOfPrefix(rate, evs, e, n);
  }

  /** Restarts of any kind leave the cycle measurement alone: it is a function of the deliveries. */
  lemma {:induction false} GaugeIsOfDeliveries(rate: nat, evs: seq<Event>, n: nat)
    requires n <= |evs|
    ensures At(rate, evs, n).gauge == GaugeAt(Deliveries(evs), n)
  {
    if n > 0 {
      GaugeIsOfDeliveries(rate, evs, n - 1);
    }
  }

  ghost function Deliveries(evs: seq<Event>): (fs: seq<nat>)
    ensures |fs| == |evs| && forall i :: 0 <= i < |evs| ==> fs[i] == evs[i].report.frames
  {
    seq(|evs|, i requires 0 <= i < |evs| => evs[i].report.frames)
  }

  ghost predicate Rated(e: Event) { e.report.denom != 0 }

  /** Every report that names a clock names this one. */
  ghost predicate OneClock(evs: seq<Event>, num: nat, denom: nat) {
    denom != 0 && forall i :: 0 <= i < |evs| && Rated(evs[i]) ==> evs[i].report.num == num && evs[i].report.denom == denom
  }

  /** Event `i` named the clock, and no cycle change landed on a rateless report before `n`. */
  ghost predicate ClockKnown(evs: seq<Event>, i: nat, n: nat)
    requires i < n <= |evs|
  {
    Rated(evs[i]) && forall j :: i < j < n ==> Rated(evs[j]) || !CycleChanges(Deliveries(evs), j)
  }

  lemma DomainStep(rate: nat, evs: seq<Event>, n: nat)
    requires n < |evs|
    ensures At(rate, evs, n + 1).domain
         == if CycleChanges(Deliveries(evs), n) || ChangesDomain(At(rate, evs, n), evs[n].report)
            then ReportedDomain(evs[n].report) else At(rate, evs, n).domain
  {
    GaugeIsOfDeliveries(rate, evs, n);
  }

  lemma {:induction false} DomainIsRemembered(rate: nat, evs: seq<Event>, num: nat, denom: nat, n: nat)
    requires n <= |evs| && OneClock(evs, num, denom)
    ensures At(rate, evs, n).domain == None || At(rate, evs, n).domain == Some((num, denom))
    ensures At(rate, evs, n).domain.Some? <==> exists i :: 0 <= i < n && ClockKnown(evs, i, n)
  {
    if n > 0 {
      var last := n - 1;
      DomainIsRemembered(rate, evs, num, denom, last);
      DomainStep(rate, evs, last);
      if Rated(evs[last]) {
        assert ClockKnown(evs, last, n);
      } else {
        KnownUnlessForgotten(evs, last, n);
      }
    }
  }

  lemma KnownUnlessForgotten(evs: seq<Event>, last: nat, n: nat)
    requires n == last + 1 <= |evs| && !Rated(evs[last])
    ensures (exists i :: 0 <= i < n && ClockKnown(evs, i, n))
       <==> !CycleChanges(Deliveries(evs), last) && exists i :: 0 <= i < last && ClockKnown(evs, i, last)
  {
    assert forall i :: 0 <= i < last ==>
      (ClockKnown(evs, i, n) <==> ClockKnown(evs, i, last) && !CycleChanges(Deliveries(evs), last));
  }

  /** Under one clock the domain starts the account over only where it is first named, or named again
      after a cycle change landed on a rateless report, which forgets it. */
  lemma OneClockRestartsExactlyWhen(rate: nat, evs: seq<Event>, num: nat, denom: nat, n: nat)
    requires n < |evs| && OneClock(evs, num, denom)
    ensures ChangesDomain(At(rate, evs, n), evs[n].report)
       <==> Rated(evs[n]) && forall i :: 0 <= i < n ==> !ClockKnown(evs, i, n)
  {
    DomainIsRemembered(rate, evs, num, denom, n);
  }

  /** So a rateless cycle change makes the next rated report open an account, whatever the clock
      counted meanwhile: here ten seconds go by uncharged. */
  lemma RatelessCycleChangeForgivesAGap()
    ensures var evs := [Event(false, Report(0, 1, 16000, 100)), Event(false, Report(0, 0, 0, 200)),
                        Event(false, Report(0, 0, 0, 200)), Event(false, Report(160000, 1, 16000, 200))];
            && OneClock(evs, 1, 16000) && (forall i :: 0 <= i < |evs| ==> !evs[i].stateChanged)
            && EntryAt(16000, evs, 3).due == 160000.0
            && EntryAt(16000, evs, 3).opens && EntryAt(16000, evs, 3).balance == EMPTY
  {
    var evs := [Event(false, Report(0, 1, 16000, 100)), Event(false, Report(0, 0, 0, 200)),
                Event(false, Report(0, 0, 0, 200)), Event(false, Report(160000, 1, 16000, 200))];
    assert At(16000, evs, 0) == New(16000);
    assert At(16000, evs, 1).gauge == Gauge(100.0, 0);
    assert At(16000, evs, 2).gauge == Gauge(100.0, 1);
    assert At(16000, evs, 3).gauge == Gauge(200.0, 0) && At(16000, evs, 3).domain == None;
  }

  /** Within one stream state and one clock domain, a delivery opens a new account only as the
      second disagreeing one in a row; any other, however large, leaves the deficit standing. */
  lemma OnlyTwoDisagreementsForgive(rate: nat, evs: seq<Event>, n: nat)
    requires 0 < n < |evs| && !evs[n].stateChanged && !ChangesDomain(At(rate, evs, n), evs[n].report)
    ensures EntryAt(rate, evs, n).opens <==>
      OutOfBand(Deliveries(evs), n) && exists i :: 0 <= i < n && Disagreement(Deliveries(evs), i, n)
    ensures !EntryAt(rate, evs, n).opens ==>
      EntryAt(rate, evs, n).balance.owed
        >= EntryAt(rate, evs, n - 1).balance.owed + EntryAt(rate, evs, n).due - EntryAt(rate, evs, n).frames
  {
    GaugeIsOfDeliveries(rate, evs, n);
    CycleChangeTakesTwoInARow(Deliveries(evs), n);
    EntryFollows(rate, evs, n);
  }

  // ---------------------------------------------------------------------------------------------
  // When an account opens, read off the reports

  /** The clock the account goes by before event `n`: that of the last rated report, unless a cycle
      change has landed on a rateless one since. */
  ghost function Remembered(evs: seq<Event>, n: nat): Option<(nat, nat)>
    requires n <= |evs|
  {
    if n == 0 then None
    else if Rated(evs[n - 1]) then Some((evs[n - 1].report.num, evs[n - 1].report.denom))
    else if CycleChanges(Deliveries(evs), n - 1) then None
    else Remembered(evs, n - 1)
  }

  lemma {:induction false} DomainIsTheRemembered(rate: nat, evs: seq<Event>, n: nat)
    requires n <= |evs|
    ensures At(rate, evs, n).domain == Remembered(evs, n)
  {
    if n > 0 {
      DomainIsTheRemembered(rate, evs, n - 1);
      DomainStep(rate, evs, n - 1);
    }
  }

  /** An account opens exactly on the first report, on a changed stream state, on a changed graph cycle,
      or on a clock other than the one remembered. */
  lemma AccountOpensExactlyWhen(rate: nat, evs: seq<Event>, n: nat)
    requires n < |evs|
    ensures EntryAt(rate, evs, n).opens <==>
      || n == 0 || evs[n].stateChanged || CycleChanges(Deliveries(evs), n)
      || (Rated(evs[n]) && Remembered(evs, n) != Some((evs[n].report.num, evs[n].report.denom)))
  {
    DomainIsTheRemembered(rate, evs, n);
    GaugeIsOfDeliveries(rate, evs, n);
  }

  /** Delivery `i` becomes the size later ones are held against. */
  ghost predicate SetsReference(fs: seq<nat>, i: nat)
    requires i < |fs|
  {
    fs[i] > 0 && (CycleChanges(fs, i) || AllEmpty(fs, i))
  }

  ghost predicate AllEmpty(fs: seq<nat>, n: nat)
    requires n <= |fs|
  {
    forall i :: 0 <= i < n ==> fs[i] == 0
  }

  lemma {:induction false} NoReferenceWhileEmpty(fs: seq<nat>, n: nat)
    requires n <= |fs|
    ensures GaugeAt(fs, n).delivery == 0.0 <==> AllEmpty(fs, n)
  {
    if n > 0 {
      NoReferenceWhileEmpty(fs, n - 1);
    }
  }

  lemma ReferenceStep(fs: seq<nat>, n: nat)
    requires n < |fs|
    ensures GaugeAt(fs, n + 1).delivery == if SetsReference(fs, n) then fs[n] as real else GaugeAt(fs, n).delivery
  {
    NoReferenceWhileEmpty(fs, n);
  }

  /** The last delivery before `n` to set the reference. */
  ghost function LastReference(fs: seq<nat>, n: nat): Option<nat>
    requires n <= |fs|
  {
    if n == 0 then None else if SetsReference(fs, n - 1) then Some(fs[n - 1]) else LastReference(fs, n - 1)
  }

  /** Deliveries are held against the size of the last cycle change, or of the first delivery that was
      not empty. */
  lemma {:induction false} ReferenceIsTheLastChange(fs: seq<nat>, n: nat)
    requires n <= |fs|
    ensures GaugeAt(fs, n).delivery
         == if LastReference(fs, n).Some? then LastReference(fs, n).value as real else 0.0
  {
    if n > 0 {
      ReferenceIsTheLastChange(fs, n - 1);
      ReferenceStep(fs, n - 1);
    }
  }

  /** The band is a quarter either way: five of the one against four of the other. */
  lemma BandIsAQuarter(delivery: nat, frames: nat)
    ensures InBand(delivery as real, frames as real) <==> 4 * frames <= 5 * delivery && 4 * delivery <= 5 * frames
  {
  }
}
