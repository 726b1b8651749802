/**
 The loss account of the realtime data thread: clock-expected frames minus
 delivered frames, reflected at a phase credit, confirmed by later audio.
 Frames and seconds are exact reals.
 */
module Continuity {
  import opened Prelude

  /** Seconds. */
  const LOSS_TOLERANCE: real := 0.02
  const LOSS_CONFIRM: real := 0.2
  const CYCLE_CHANGE: real := 1.25

  /** One callback's report: the stream clock, its rate, and the frames that arrived. */
  datatype Report = Report(ticks: nat, num: nat, denom: nat, frames: nat)

  /** Frames owed, below zero when more came than the clock asked for; the smallest advance seen; and,
      during a stretch over the tolerance, the frames that came after its first report. */
  datatype Balance = Balance(owed: real, cycle: real, unrepaid: Option<real>)

  /** A reference delivery size in frames, and the run of later sizes found out of its band. */
  datatype Gauge = Gauge(delivery: real, disagreed: nat)

  datatype Account = Account(
    rate: real,
    domain: Option<(nat, nat)>,
    lastTicks: Option<nat>,
    balance: Balance,
    gauge: Gauge)

  const EMPTY := Balance(0.0, 0.0, None)

  function Tolerance(rate: real): real { LOSS_TOLERANCE * rate }

  function Confirmation(rate: real): real { LOSS_CONFIRM * rate }

  /** How far the account may run ahead of the clock. */
  function Credit(rate: real, b: Balance): real { Max(b.cycle, Tolerance(rate)) }

  ghost predicate ValidBalance(rate: real, b: Balance) {
    && rate >= 0.0 && b.cycle >= 0.0
    && (rate == 0.0 ==> b.cycle == 0.0 && b.owed <= 0.0)
    && b.owed >= -Credit(rate, b)
    && (b.unrepaid.Some? <==> b.owed > Tolerance(rate))
    && (b.unrepaid.Some? ==> b.unrepaid.value >= 0.0)
  }

  ghost predicate Valid(a: Account) {
    && ValidBalance(a.rate, a.balance)
    && (a.lastTicks.None? ==> a.balance == EMPTY)
    && a.gauge.delivery >= 0.0 && a.gauge.disagreed < 2
  }

  function New(rate: nat): (a: Account)
    ensures Valid(a)
  {
    Account(rate as real, None, None, EMPTY, Gauge(0.0, 0))
  }

  /** A new account: balance and last tick gone, rate, domain and gauge kept. */
  function Restarted(a: Account): (r: Account)
    ensures Valid(a) ==> Valid(r)
  {
    a.(lastTicks := None, balance := EMPTY)
  }

  /** A delivery within a quarter of the measured cycle, either way. */
  predicate InBand(delivery: real, frames: real) {
    frames <= delivery * CYCLE_CHANGE && frames * CYCLE_CHANGE >= delivery
  }

  /** The gauge after a delivery, and whether that delivery replaced the reference size. */
  function Measured(g: Gauge, frames: nat): (Gauge, bool) {
    var f := frames as real;
    if f == 0.0 then (g, false)
    else if g.delivery == 0.0 then (g.(delivery := f), false)
    else if InBand(g.delivery, f) then (g.(disagreed := 0), false)
    else if g.disagreed + 1 < 2 then (g.(disagreed := g.disagreed + 1), false)
    else (Gauge(f, 0), true)
  }

  /** Frames the clock says the graph produced between two readings. */
  function Expected(rate: real, last: nat, r: Report): (e: real)
    requires rate >= 0.0
    ensures e >= 0.0
    ensures rate == 0.0 ==> e == 0.0
  {
    if r.ticks > last && r.denom != 0 then
      (r.ticks - last) as real * r.num as real * rate / r.denom as real
    else 0.0
  }

  function ReportedDomain(r: Report): Option<(nat, nat)> {
    if r.denom != 0 then Some((r.num, r.denom)) else None
  }

  predicate ChangesDomain(a: Account, r: Report) {
    ReportedDomain(r).Some? && ReportedDomain(r) != a.domain
  }

  /** Whether a report starts the account over: a changed graph cycle or clock domain. */
  predicate StartsOver(a: Account, r: Report) {
    Measured(a.gauge, r.frames).1 || ChangesDomain(a, r)
  }

  /** Charge `expected` frames against the `frames` that arrived. */
  function Charge(rate: real, b: Balance, expected: real, frames: real): (c: (Balance, Option<real>))
    requires ValidBalance(rate, b)
    requires expected >= 0.0 && frames >= 0.0
    requires rate == 0.0 ==> expected == 0.0
    ensures ValidBalance(rate, c.0)
  {
    var cycle := if expected > 0.0 && (b.cycle == 0.0 || expected < b.cycle) then expected else b.cycle;
    var tolerance := Tolerance(rate);
    var owed := Max(b.owed + expected - frames, -Max(cycle, tolerance));
    if owed <= tolerance then (Balance(owed, cycle, None), None)
    else
      match b.unrepaid
      case None => (Balance(owed, cycle, Some(0.0)), None)
      case Some(arrived) =>
        (Balance(owed, cycle, Some(arrived + frames)),
         if arrived + frames >= Confirmation(rate) then Some(owed / rate) else None)
  }

  /** `Continuity::delivered`: the account after a report, and the seconds lost if it confirms a loss. */
  function AfterReport(a: Account, r: Report): (d: (Account, Option<real>))
    requires Valid(a)
    ensures Valid(d.0) && d.0.rate == a.rate && d.0.lastTicks == Some(r.ticks)
    ensures d.0.gauge == Measured(a.gauge, r.frames).0
  {
    var settled := if StartsOver(a, r) then Restarted(a).(domain := ReportedDomain(r)) else a;
    var (balance, lost) :=
      match settled.lastTicks
      case None => (EMPTY, None)
      case Some(last) => Charge(a.rate, settled.balance, Expected(a.rate, last, r), r.frames as real);
    (settled.(lastTicks := Some(r.ticks), balance := balance, gauge := Measured(a.gauge, r.frames).0), lost)
  }

  /** The balance in seconds, if it is more than the credit and the tolerance together. */
  function Standing(a: Account): Option<real>
    requires Valid(a)
  {
    if a.balance.owed > Credit(a.rate, a.balance) + Tolerance(a.rate)
    then Some(a.balance.owed / a.rate) else None
  }

  /** The account as the data thread keeps it, updated in place. */
  class Continuity {
    var rate: real
    var domain: Option<(nat, nat)>
    var lastTicks: Option<nat>
    var owed: real
    var cycle: real
    var unrepaid: Option<real>
    var delivery: real
    var disagreed: nat

    ghost function View(): Account
      reads this
    {
      Account(rate, domain, lastTicks, Balance(owed, cycle, unrepaid), Gauge(delivery, disagreed))
    }

    constructor (rate: nat)
      ensures View() == New(rate)
    {
      this.rate := rate as real;
      domain, lastTicks, owed, cycle, unrepaid := None, None, 0.0, 0.0, None;
      delivery, disagreed := 0.0, 0;
    }

    method Restart()
      modifies this
      ensures View() == Restarted(old(View()))
    {
      lastTicks, owed, cycle, unrepaid := None, 0.0, 0.0, None;
    }

    method Measure(frames: nat) returns (changed: bool)
      modifies this`delivery, this`disagreed
      ensures (View().gauge, changed) == Measured(old(View()).gauge, frames)
    {
      var f := frames as real;
      if f == 0.0 {
        return false;
      }
      if delivery == 0.0 {
        delivery := f;
        return false;
      }
      if InBand(delivery, f) {
        disagreed := 0;
        return false;
      }
      disagreed := disagreed + 1;
      if disagreed < 2 {
        return false;
      }
      disagreed := 0;
      delivery := f;
      return true;
    }

    method Delivered(ticks: nat, num: nat, denom: nat, frames: nat) returns (lost: Option<real>)
      requires Valid(View())
      modifies this
      ensures (View(), lost) == AfterReport(old(View()), Report(ticks, num, denom, frames))
    {
      var r := Report(ticks, num, denom, frames);
      var reported := ReportedDomain(r);
      var changed := Measure(frames);
      if changed || (reported.Some? && reported != domain) {
        Restart();
        domain := reported;
      }
      if lastTicks.None? {
        lastTicks := Some(ticks);
        return None;
      }
      var expected := Expected(rate, lastTicks.value, r);
      lastTicks := Some(ticks);
      if expected > 0.0 && (cycle == 0.0 || expected < cycle) {
        cycle := expected;
      }
      var tolerance := LOSS_TOLERANCE * rate;
      owed := Max(owed + expected - frames as real, -Max(cycle, tolerance));
      if owed <= tolerance {
        unrepaid := None;
        return None;
      }
      match unrepaid {
        case None =>
          unrepaid := Some(0.0);
          lost := None;
        case Some(arrived) =>
          unrepaid := Some(arrived + frames as real);
          lost := if arrived + frames as real >= LOSS_CONFIRM * rate then Some(owed / rate) else None;
      }
    }

    method Outstanding() returns (deficit: Option<real>)
      requires Valid(View())
      ensures deficit == Standing(View())
    {
      var tolerance := LOSS_TOLERANCE * rate;
      deficit := if owed > Max(cycle, tolerance) + tolerance then Some(owed / rate) else None;
    }
  }
}
