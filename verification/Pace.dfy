/**
 The clock behind the loss account, in ticks: what the account expects of a run under one clock, and
 that a run which keeps pace with it loses nothing.
 */
module Pace {
  import opened Prelude
  import opened Continuity
  import opened Ledger

  /** Ticks counted after event `k`, through event `n`; a clock that has no rate or falls back counts
      none. */
  ghost function Ticked(evs: seq<Event>, k: nat, n: nat): nat
    requires k <= n < |evs|
  {
    if n == k then 0 else Ticked(evs, k, n - 1) + Advance(evs[n - 1].report.ticks, evs[n])
  }

  ghost function Advance(last: nat, e: Event): nat {
    if Rated(e) && e.report.ticks > last then e.report.ticks - last else 0
  }

  /** Frames in one tick, before division by the clock's denominator. */
  function PerTick(num: nat, rate: nat): real {
    num as real * rate as real
  }

  /** A clock advance is ticks, at the clock's length of a tick, at the capture's rate. */
  lemma ExpectedIsTicksAtRate(rate: nat, last: nat, e: Event)
    requires Rated(e)
    ensures Scaled(Expected(rate as real, last, e.report), e.report.denom) == Scaled(PerTick(e.report.num, rate), Advance(last, e))
  {
    var r := e.report;
    var due, t := Expected(rate as real, last, r), Advance(last, e);
    ScaledIsProduct(due, r.denom);
    ScaledIsProduct(PerTick(r.num, rate), t);
    if r.ticks > last {
      Cancels(t as real, r.num as real, rate as real, r.denom as real);
    }
  }

  lemma Cancels(t: real, num: real, rate: real, denom: real)
    requires denom > 0.0
    ensures t * num * rate / denom * denom == num * rate * t
  {
  }

  lemma {:induction false} ScaledZero(n: nat)
    ensures Scaled(0.0, n) == 0.0
  {
    if n > 0 {
      ScaledZero(n - 1);
    }
  }

  /** Entry `n` is charged `unit` for each tick, over `denom`, and credited the frames that came. */
  ghost predicate ChargedByTick(es: seq<Entry>, evs: seq<Event>, unit: real, denom: nat, n: nat)
    requires 0 < n < |es| == |evs|
  {
    && Scaled(es[n].due, denom) == Scaled(unit, Advance(evs[n - 1].report.ticks, evs[n]))
    && es[n].frames == evs[n].report.frames as real
  }

  ghost predicate AllChargedByTick(es: seq<Entry>, evs: seq<Event>, unit: real, denom: nat) {
    |es| == |evs| && forall n :: 0 < n < |es| ==> ChargedByTick(es, evs, unit, denom, n)
  }

  lemma EntryChargedByTick(rate: nat, evs: seq<Event>, num: nat, denom: nat, n: nat)
    requires 0 < n < |evs| && OneClock(evs, num, denom)
    ensures ChargedByTick(LedgerOf(rate, evs), evs, PerTick(num, rate), denom, n)
  {
    assert LedgerOf(rate, evs)[n] == EntryAt(rate, evs, n);
    if Rated(evs[n]) {
      ExpectedIsTicksAtRate(rate, evs[n - 1].report.ticks, evs[n]);
    } else {
      ScaledZero(denom);
    }
  }

  lemma LedgerChargedByTick(rate: nat, evs: seq<Event>, num: nat, denom: nat)
    requires OneClock(evs, num, denom)
    ensures AllChargedByTick(LedgerOf(rate, evs), evs, PerTick(num, rate), denom)
  {
    forall n | 0 < n < |evs|
      ensures ChargedByTick(LedgerOf(rate, evs), evs, PerTick(num, rate), denom, n)
    {
      EntryChargedByTick(rate, evs, num, denom, n);
    }
  }

  lemma {:induction false} ClockedByTick(es: seq<Entry>, evs: seq<Event>, unit: real, denom: nat, k: nat, n: nat)
    requires AllChargedByTick(es, evs, unit, denom) && k <= n < |es|
    ensures Scaled(Clocked(es, k, n), denom) == Scaled(unit, Ticked(evs, k, n))
    decreases n
  {
    if k < n {
      ClockedByTick(es, evs, unit, denom, k, n - 1);
      assert ChargedByTick(es, evs, unit, denom, n);
      ScaledSum(Clocked(es, k, n - 1), es[n].due, denom);
      ScaledAdds(unit, Ticked(evs, k, n - 1), Advance(evs[n - 1].report.ticks, evs[n]));
    } else {
      ScaledZero(denom);
    }
  }

  /** Over every window of a run under one clock, the frames the account expects, times the clock's
      denominator, are the ticks counted times its numerator times the capture's rate. */
  lemma ClockedIsTicksAtRate(rate: nat, evs: seq<Event>, num: nat, denom: nat, k: nat, n: nat)
    requires OneClock(evs, num, denom) && k <= n < |evs|
    ensures Scaled(Clocked(LedgerOf(rate, evs), k, n), denom) == Scaled(PerTick(num, rate), Ticked(evs, k, n))
  {
    LedgerChargedByTick(rate, evs, num, denom);
    ClockedByTick(LedgerOf(rate, evs), evs, PerTick(num, rate), denom, k, n);
  }

  /** Every report names a clock, and none reads less than the one before. */
  ghost predicate Steady(evs: seq<Event>) {
    && (forall i :: 0 <= i < |evs| ==> Rated(evs[i]))
    && (forall i, j :: 0 <= i <= j < |evs| ==> evs[i].report.ticks <= evs[j].report.ticks)
  }

  /** Of a steady clock the ticks counted are just the difference of its readings. */
  lemma {:induction false} SteadyTicksAreTheDifference(evs: seq<Event>, k: nat, n: nat)
    requires Steady(evs) && k <= n < |evs|
    ensures Ticked(evs, k, n) == evs[n].report.ticks - evs[k].report.ticks
    decreases n
  {
    if k < n {
      SteadyTicksAreTheDifference(evs, k, n - 1);
    }
  }

  // ---------------------------------------------------------------------------------------------
  // Keeping pace

  ghost function FramesAfter(evs: seq<Event>, k: nat, n: nat): nat
    requires k <= n < |evs|
  {
    if n == k then 0 else FramesAfter(evs, k, n - 1) + evs[n].report.frames
  }

  lemma {:induction false} ArrivedAreTheFrames(es: seq<Entry>, evs: seq<Event>, unit: real, denom: nat, k: nat, n: nat)
    requires AllChargedByTick(es, evs, unit, denom) && k <= n < |es|
    ensures Arrived(es, k, n) == FramesAfter(evs, k, n) as real
    decreases n
  {
    if k < n {
      ArrivedAreTheFrames(es, evs, unit, denom, k, n - 1);
      assert ChargedByTick(es, evs, unit, denom, n);
    }
  }

  /** From event `k` through `n` the ticks, at `unit` over `denom` frames each, come to no more than the
      frames that came and `allowance`. */
  ghost predicate Within(evs: seq<Event>, unit: real, denom: nat, allowance: real, k: nat, n: nat)
    requires k <= n < |evs|
  {
    Scaled(unit, Ticked(evs, k, n)) <= Scaled(FramesAfter(evs, k, n) as real + allowance, denom)
  }

  /** Over every window the clock's seconds, at the capture's rate, come to no more than the frames that
      came and the tolerance. */
  ghost predicate KeepsPace(rate: nat, evs: seq<Event>, num: nat, denom: nat) {
    AllWithin(evs, PerTick(num, rate), denom, Tolerance(rate as real))
  }

  ghost predicate AllWithin(evs: seq<Event>, unit: real, denom: nat, allowance: real) {
    forall k, n :: 0 <= k <= n < |evs| ==> Within(evs, unit, denom, allowance, k, n)
  }

  lemma {:induction false} ScaledOrder(a: real, b: real, n: nat)
    requires n > 0
    ensures Scaled(a, n) <= Scaled(b, n) <==> a <= b
  {
    if n > 1 {
      ScaledOrder(a, b, n - 1);
    }
  }

  lemma PaceOfCharged(es: seq<Entry>, evs: seq<Event>, unit: real, denom: nat, allowance: real, k: nat, n: nat)
    requires AllChargedByTick(es, evs, unit, denom) && k <= n < |es| && denom > 0
    ensures Within(evs, unit, denom, allowance, k, n) <==> Deficit(es, k, n) <= allowance
  {
    ClockedByTick(es, evs, unit, denom, k, n);
    ArrivedAreTheFrames(es, evs, unit, denom, k, n);
    DeficitIsClockedLessArrived(es, k, n);
    ScaledOrder(Clocked(es, k, n), FramesAfter(evs, k, n) as real + allowance, denom);
  }

  /** A window is in pace, by any allowance, exactly when the account's deficit over it is within that. */
  lemma PaceIsDeficitWithin(rate: nat, evs: seq<Event>, num: nat, denom: nat, allowance: real, k: nat, n: nat)
    requires OneClock(evs, num, denom) && k <= n < |evs|
    ensures Within(evs, PerTick(num, rate), denom, allowance, k, n) <==> Deficit(LedgerOf(rate, evs), k, n) <= allowance
  {
    LedgerChargedByTick(rate, evs, num, denom);
    PaceOfCharged(LedgerOf(rate, evs), evs, PerTick(num, rate), denom, allowance, k, n);
  }

  lemma InPaceIsNeverOver(rate: nat, evs: seq<Event>, num: nat, denom: nat, n: nat)
    requires OneClock(evs, num, denom) && KeepsPace(rate, evs, num, denom) && n < |evs|
    ensures IsLedger(rate as real, LedgerOf(rate, evs)) && !Over(rate as real, LedgerOf(rate, evs)[n])
  {
    var es := LedgerOf(rate, evs);
    RunKeepsLedger(rate, evs);
    var m := NothingInvented(rate as real, es, n);
    PaceIsDeficitWithin(rate, evs, num, denom, Tolerance(rate as real), m, n);
    assert Linked(rate as real, es, m);
  }

  /** A run that keeps pace with its one clock is never called lost, and never leaves a deficit to hold. */
  lemma KeepingPaceLosesNothing(rate: nat, evs: seq<Event>, num: nat, denom: nat, n: nat)
    requires OneClock(evs, num, denom) && KeepsPace(rate, evs, num, denom) && n < |evs|
    ensures EntryAt(rate, evs, n).verdict.None?
    ensures Standing(At(rate, evs, n + 1)).None?
  {
    var es := LedgerOf(rate, evs);
    InPaceIsNeverOver(rate, evs, num, denom, n);
    VerdictIsOnTheStretch(rate as real, es, n);
    assert es[n] == EntryAt(rate, evs, n);
    assert es[n].balance == At(rate, evs, n + 1).balance;
  }
}
