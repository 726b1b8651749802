/**
 The overlay host's supervision of its renderer: daemon presence, spawning, exits, backoff, giving
 up, and what the daemon has been told. Times are whole milliseconds.
 */
module Host {
  import opened Prelude

  // ---------------------------------------------------------------------------------------------
  // The restart policy

  const BASE_BACKOFF_MS: nat := 500
  const MAX_BACKOFF_MS: nat := 30000
  const RESTART_BUDGET: nat := 5
  const HEALTHY_UPTIME_MS: nat := 60000

  datatype RestartPlan = RestartPlan(restart: bool, delayMs: nat, consecutiveFailures: nat, dormant: bool)

  function Pow2(n: nat): nat {
    if n == 0 then 1 else 2 * Pow2(n - 1)
  }

  /** `planRestart` */
  function PlanRestart(failures: nat, expected: bool, uptimeMs: int): (p: RestartPlan)
    ensures !(p.restart && p.dormant)
    ensures p.restart ==> 0 < p.delayMs <= MAX_BACKOFF_MS
  {
    if expected then RestartPlan(false, 0, 0, false)
    else
      var count := (if uptimeMs >= HEALTHY_UPTIME_MS then 0 else failures) + 1;
      if count > RESTART_BUDGET then RestartPlan(false, 0, count, true)
      else
        var delay := BASE_BACKOFF_MS * Pow2(count - 1);
        PowPositive(count - 1);
        RestartPlan(true, if delay < MAX_BACKOFF_MS then delay else MAX_BACKOFF_MS, count, false)
  }

  lemma PowPositive(n: nat)
    ensures Pow2(n) >= 1
  {
  }

  // ---------------------------------------------------------------------------------------------
  // The host

  /** How one launch of the renderer went. */
  datatype Launch = NotFound | Throws | NoSubprocess | Launched(now: nat)

  /** Renderers and their exit waits are numbered by generation. `waits` are the exit waits still
      open and `cancelled` the ones whose cancellable was cancelled. */
  datatype State = State(
    enabled: bool,
    subprocess: Option<nat>,
    cancellable: Option<nat>,
    launchedAt: nat,
    timer: Option<nat>,
    dormant: bool,
    failures: nat,
    registered: bool,
    generations: nat,
    waits: set<nat>,
    cancelled: set<nat>)

  datatype Event =
    | DaemonAppeared(sent: bool, launch: Launch)
    | DaemonVanished
    | WaitResolves(generation: nat, now: nat)
    | WaitErrs(generation: nat)
    | TimerFires(present: bool, launch: Launch)
    | Disable

  const ENABLED := State(true, None, None, 0, None, false, 0, false, 0, {}, {})

  function GivenUp(h: State): State {
    h.(dormant := true, registered := false)
  }

  function Rescheduled(h: State, uptimeMs: int): State {
    var plan := PlanRestart(h.failures, false, uptimeMs);
    var counted := h.(failures := plan.consecutiveFailures);
    if plan.dormant then GivenUp(counted)
    else if plan.restart then counted.(timer := Some(plan.delayMs))
    else counted
  }

  function Spawned(h: State, launch: Launch): State {
    match launch
    case NotFound => GivenUp(h)
    case Throws => Rescheduled(h, 0)
    case NoSubprocess => GivenUp(h)
    case Launched(now) =>
      h.(launchedAt := now, cancellable := Some(h.generations), subprocess := Some(h.generations),
         waits := h.waits + {h.generations}, generations := h.generations + 1)
  }

  function RendererStopped(h: State): State {
    h.(timer := None, subprocess := None, cancellable := None,
       cancelled := h.cancelled + if h.cancellable.Some? then {h.cancellable.value} else {})
  }

  function RendererExited(h: State, now: nat): State {
    Rescheduled(h.(subprocess := None), now - h.launchedAt)
  }

  /** An event the host does not receive where it stands changes nothing. */
  function Handled(h: State, e: Event): State {
    match e
    case DaemonAppeared(sent, launch) =>
      if !h.enabled || h.subprocess.Some? || h.timer.Some? then h
      else Spawned(h.(dormant := false, failures := 0, registered := h.registered || sent), launch)
    case DaemonVanished =>
      if !h.enabled then h
      else
        var forgot := h.(registered := false);
        if h.subprocess.None? && h.timer.None? then forgot else RendererStopped(forgot)
    case WaitResolves(g, now) =>
      if g !in h.waits then h
      else
        var resolved := h.(waits := h.waits - {g});
        if g in h.cancelled then resolved else RendererExited(resolved, now)
    case WaitErrs(g) => h.(waits := h.waits - {g})
    case TimerFires(present, launch) =>
      if h.timer.None? then h
      else
        var fired := h.(timer := None);
        if present then Spawned(fired, launch) else fired
    case Disable =>
      RendererStopped(h.(enabled := false, registered := false))
  }

  // ---------------------------------------------------------------------------------------------
  // Every run

  /** The event takes the host from rest to a first launch: a new incident history. */
  predicate Starts(h: State, e: Event) {
    e.DaemonAppeared? && h.enabled && h.subprocess.None? && h.timer.None?
  }

  /** The event ends a run the policy counts as healthy. */
  predicate EndsHealthyRun(h: State, e: Event) {
    e.WaitResolves? && e.generation in h.waits && e.generation !in h.cancelled
    && e.now - h.launchedAt >= HEALTHY_UPTIME_MS
  }

  /** The delay of the restart the event schedules. */
  predicate Schedules(h: State, e: Event) {
    Handled(h, e).timer.Some? && (h.timer.None? || e.TimerFires?)
  }

  /** The host with the delays it has scheduled since it last started or ran healthily. */
  datatype Trace = Trace(host: State, delays: seq<nat>)

  function Traced(t: Trace, e: Event): Trace {
    var after := Handled(t.host, e);
    var before := if Starts(t.host, e) || EndsHealthyRun(t.host, e) then [] else t.delays;
    Trace(after, before + if Schedules(t.host, e) then [after.timer.value] else [])
  }

  function After(es: seq<Event>): Trace {
    if es == [] then Trace(ENABLED, []) else Traced(After(es[..|es| - 1]), es[|es| - 1])
  }

  function Smaller(a: nat, b: nat): nat { if a < b then a else b }

  /** The backoffs of a stretch of failures: doubling from the first, never past the budget. */
  function Backoffs(n: nat): (ds: seq<nat>)
    ensures |ds| == n
  {
    if n == 0 then [] else Backoffs(n - 1) + [BASE_BACKOFF_MS * Pow2(n - 1)]
  }

  ghost predicate AtMostOne(h: State) {
    && !(h.subprocess.Some? && h.timer.Some?)
    && (h.dormant ==> h.subprocess.None? && h.timer.None? && !h.registered)
    && (!h.enabled ==> h.subprocess.None? && h.timer.None? && !h.registered)
  }

  /** The one exit wait that can act is the running renderer's own. */
  ghost predicate OwnWaitOnly(h: State) {
    && (forall g :: g in h.waits && g !in h.cancelled ==> h.subprocess == Some(g) && h.cancellable == Some(g))
    && (h.subprocess.Some? ==> h.subprocess == h.cancellable)
    && (forall g :: g in h.waits || g in h.cancelled || h.cancellable == Some(g) ==> g < h.generations)
  }

  ghost predicate WithinBudget(t: Trace) {
    && t.delays == Backoffs(Smaller(t.host.failures, RESTART_BUDGET))
    && (t.host.failures > RESTART_BUDGET ==> t.host.dormant || !t.host.enabled)
    && (t.host.subprocess.Some? || t.host.timer.Some? ==> t.host.failures <= RESTART_BUDGET)
    && (t.host.timer.Some? ==> t.host.failures > 0 && t.host.timer == Some(t.delays[|t.delays| - 1]))
  }

  ghost predicate Inv(t: Trace) {
    AtMostOne(t.host) && OwnWaitOnly(t.host) && WithinBudget(t)
  }

  lemma BudgetNeverCaps(n: nat)
    requires n < RESTART_BUDGET
    ensures BASE_BACKOFF_MS * Pow2(n) < MAX_BACKOFF_MS
  {
    assert Pow2(0) == 1 && Pow2(1) == 2 && Pow2(2) == 4 && Pow2(3) == 8 && Pow2(4) == 16;
  }

  /** Counting one more failure from rest either schedules the next backoff or goes dormant. */
  lemma RescheduleKeeps(h: State, delays: seq<nat>, uptimeMs: int)
    requires h.enabled && h.subprocess.None? && h.timer.None? && !h.dormant && h.failures <= RESTART_BUDGET
    requires delays == Backoffs(h.failures)
    ensures var after := Rescheduled(h, uptimeMs);
            var base := if uptimeMs >= HEALTHY_UPTIME_MS then [] else delays;
            && AtMostOne(after)
            && WithinBudget(Trace(after, base + if after.timer.Some? then [after.timer.value] else []))
            && after == h.(failures := after.failures, timer := after.timer, dormant := after.dormant, registered := after.registered)
  {
    var count := (if uptimeMs >= HEALTHY_UPTIME_MS then 0 else h.failures) + 1;
    if count <= RESTART_BUDGET {
      BudgetNeverCaps(count - 1);
    } else {
      assert delays + [] == delays;
    }
  }

  lemma SpawnKeeps(h: State, delays: seq<nat>, launch: Launch)
    requires h.enabled && h.subprocess.None? && h.timer.None? && !h.dormant && h.failures <= RESTART_BUDGET
    requires delays == Backoffs(h.failures) && OwnWaitOnly(h)
    ensures var after := Spawned(h, launch);
            Inv(Trace(after, delays + if after.timer.Some? then [after.timer.value] else []))
  {
    assert delays + [] == delays;
    if launch.Throws? {
      RescheduleKeeps(h, delays, 0);
    }
  }

  /** A resolved wait is one wait fewer. */
  lemma FewerWaits(t: Trace, g: nat)
    requires Inv(t)
    ensures Inv(Trace(t.host.(waits := t.host.waits - {g}), t.delays))
  {
  }

  lemma ExitKeeps(t: Trace, g: nat, now: nat)
    requires Inv(t) && g in t.host.waits && g !in t.host.cancelled
    ensures Inv(Traced(t, WaitResolves(g, now)))
  {
    var h := t.host;
    assert t.delays + [] == t.delays;
    var stopped := h.(waits := h.waits - {g}, subprocess := None);
    assert h.timer.None? && h.enabled && !h.dormant;
    FewerWaits(t, g);
    RescheduleKeeps(stopped, t.delays, now - h.launchedAt);
  }

  lemma WaitKeeps(t: Trace, g: nat, now: nat)
    requires Inv(t)
    ensures Inv(Traced(t, WaitResolves(g, now)))
  {
    var h := t.host;
    assert t.delays + [] == t.delays;
    if g in h.waits && g !in h.cancelled {
      ExitKeeps(t, g, now);
    } else {
      FewerWaits(t, g);
    }
  }

  lemma AppearanceKeeps(t: Trace, sent: bool, launch: Launch)
    requires Inv(t)
    ensures Inv(Traced(t, DaemonAppeared(sent, launch)))
  {
    var h := t.host;
    assert t.delays + [] == t.delays;
    if Starts(h, DaemonAppeared(sent, launch)) {
      SpawnKeeps(h.(dormant := false, failures := 0, registered := h.registered || sent), [], launch);
    }
  }

  lemma TimerKeeps(t: Trace, present: bool, launch: Launch)
    requires Inv(t)
    ensures Inv(Traced(t, TimerFires(present, launch)))
  {
    assert t.delays + [] == t.delays;
    if t.host.timer.Some? && present {
      SpawnKeeps(t.host.(timer := None), t.delays, launch);
    }
  }

  lemma EventKeeps(t: Trace, e: Event)
    requires Inv(t)
    ensures Inv(Traced(t, e))
  {
    assert t.delays + [] == t.delays;
    match e
    case DaemonAppeared(sent, launch) => AppearanceKeeps(t, sent, launch);
    case TimerFires(present, launch) => TimerKeeps(t, present, launch);
    case WaitResolves(g, now) => WaitKeeps(t, g, now);
    case WaitErrs(_) =>
    case DaemonVanished =>
    case Disable =>
  }

  lemma {:induction false} EveryRunKeeps(es: seq<Event>)
    ensures Inv(After(es))
  {
    if es != [] {
      EveryRunKeeps(es[..|es| - 1]);
      EventKeeps(After(es[..|es| - 1]), es[|es| - 1]);
    }
  }

  /** In every reachable state: at most one renderer or pending restart; dormant means neither, and
      no pill announced; disabled likewise. */
  lemma NeverTwoRenderers(es: seq<Event>)
    ensures AtMostOne(After(es).host)
  {
    EveryRunKeeps(es);
  }

  /** An exit wait of a superseded generation changes nothing but itself. */
  lemma StaleExitIsIgnored(es: seq<Event>, g: nat, now: nat)
    ensures var h := After(es).host;
            h.subprocess != Some(g) ==> Handled(h, WaitResolves(g, now)) == h.(waits := h.waits - {g})
  {
    EveryRunKeeps(es);
    var h := After(es).host;
    if g !in h.waits {
      assert h.waits - {g} == h.waits;
    }
  }

  /** A stretch of short-lived runs schedules at most five restarts, 500 ms doubling to 8 s, and the
      next failure is the last. */
  lemma StretchIsBoundedBackoff(es: seq<Event>)
    ensures var t := After(es);
            && |t.delays| <= RESTART_BUDGET
            && t.delays <= [500, 1000, 2000, 4000, 8000]
  {
    EveryRunKeeps(es);
    assert Pow2(0) == 1 && Pow2(1) == 2 && Pow2(2) == 4 && Pow2(3) == 8 && Pow2(4) == 16;
    assert Backoffs(0) == [] && Backoffs(1) == [500] && Backoffs(2) == [500, 1000];
    assert Backoffs(3) == [500, 1000, 2000] && Backoffs(4) == [500, 1000, 2000, 4000];
    assert Backoffs(5) == [500, 1000, 2000, 4000, 8000];
  }

  /** With the budget spent, the running renderer's next early exit leaves the host dormant. */
  lemma SixthEarlyExitIsFinal(es: seq<Event>, g: nat, now: nat)
    requires var t := After(es);
             |t.delays| == RESTART_BUDGET && t.host.subprocess == Some(g) && g in t.host.waits
             && g !in t.host.cancelled && now - t.host.launchedAt < HEALTHY_UPTIME_MS
    ensures var after := After(es + [WaitResolves(g, now)]);
            after.host.dormant && after.host.timer.None? && after.delays == After(es).delays
  {
    EveryRunKeeps(es);
    assert (es + [WaitResolves(g, now)])[..|es|] == es;
    assert After(es).delays + [] == After(es).delays;
  }

  // ---------------------------------------------------------------------------------------------
  // What every event brings about

  lemma AfterOneMore(es: seq<Event>, e: Event)
    ensures After(es + [e]).host == Handled(After(es).host, e)
  {
    assert (es + [e])[..|es|] == es;
  }

  /** A renderer of a new generation runs, launched at `now`, its own exit wait open and able to act. */
  ghost predicate Running(before: State, h: State, now: nat) {
    && h.subprocess == Some(before.generations) && h.generations == before.generations + 1
    && h.subprocess == h.cancellable && h.launchedAt == now && h.timer.None?
    && before.generations in h.waits && before.generations !in h.cancelled
    && before.generations !in before.waits
  }

  /** The delay before restart number `n + 1` of a stretch. */
  function Delay(n: nat): nat {
    match n
    case 0 => 500
    case 1 => 1000
    case 2 => 2000
    case 3 => 4000
    case _ => 8000
  }

  /** A failure after `failures` others schedules the next restart, or is one too many. */
  ghost predicate Fails(h: State, failures: nat) {
    && h.subprocess.None? && h.failures == failures + 1
    && (failures < RESTART_BUDGET ==> h.timer == Some(Delay(failures)) && !h.dormant)
    && (failures >= RESTART_BUDGET ==> h.timer.None? && h.dormant && !h.registered)
  }

  lemma RescheduledFails(h: State, uptimeMs: int)
    requires h.subprocess.None? && h.timer.None? && !h.dormant
    ensures Fails(Rescheduled(h, uptimeMs), if uptimeMs >= HEALTHY_UPTIME_MS then 0 else h.failures)
  {
    assert Pow2(0) == 1 && Pow2(1) == 2 && Pow2(2) == 4 && Pow2(3) == 8 && Pow2(4) == 16;
  }

  /** What a launch from rest leads to. */
  ghost predicate LaunchLeadsTo(before: State, h: State, launch: Launch, failures: nat) {
    match launch
    case Launched(now) => Running(before, h, now) && h.failures == failures && !h.dormant
    case Throws => Fails(h, failures)
    case NotFound => h.subprocess.None? && h.timer.None? && h.dormant && !h.registered
    case NoSubprocess => h.subprocess.None? && h.timer.None? && h.dormant && !h.registered
  }

  lemma SpawnLeadsTo(before: State, h: State, launch: Launch)
    requires OwnWaitOnly(before) && before.waits == h.waits && before.cancelled == h.cancelled && before.generations == h.generations
    requires h.subprocess.None? && h.timer.None? && !h.dormant
    ensures LaunchLeadsTo(before, Spawned(h, launch), launch, h.failures)
  {
    if launch.Throws? {
      RescheduledFails(h, 0);
    }
  }

  /** A pending restart, once due, launches the renderer if the daemon is there, and comes to nothing if
      it is not. */
  lemma RestartLaunches(es: seq<Event>, present: bool, launch: Launch)
    requires After(es).host.timer.Some?
    ensures var before, h := After(es).host, After(es + [TimerFires(present, launch)]).host;
            if present then LaunchLeadsTo(before, h, launch, before.failures)
            else h == before.(timer := None) && h.subprocess.None?
  {
    EveryRunKeeps(es);
    AfterOneMore(es, TimerFires(present, launch));
    if present {
      SpawnLeadsTo(After(es).host, After(es).host.(timer := None), launch);
    }
  }

  /** A daemon that appears while the host is enabled and at rest is told of the pill and gets a
      renderer, with the whole budget ahead of it; otherwise its appearance changes nothing. */
  lemma AppearanceLaunches(es: seq<Event>, sent: bool, launch: Launch)
    ensures var before, h := After(es).host, After(es + [DaemonAppeared(sent, launch)]).host;
            if before.enabled && before.subprocess.None? && before.timer.None? then
              && LaunchLeadsTo(before, h, launch, 0)
              && (launch.Launched? ==> h.registered == (before.registered || sent))
            else h == before
  {
    EveryRunKeeps(es);
    AfterOneMore(es, DaemonAppeared(sent, launch));
    var before := After(es).host;
    AppearanceLeadsTo(before, sent, launch);
  }

  lemma AppearanceLeadsTo(before: State, sent: bool, launch: Launch)
    requires OwnWaitOnly(before)
    ensures before.subprocess.None? && before.timer.None? ==>
      LaunchLeadsTo(before, Spawned(before.(dormant := false, failures := 0, registered := before.registered || sent), launch), launch, 0)
  {
    if before.subprocess.None? && before.timer.None? {
      SpawnLeadsTo(before, before.(dormant := false, failures := 0, registered := before.registered || sent), launch);
    }
  }

  /** The running renderer's exit, seen by its own wait, counts as a failure: after a healthy run as the
      first, otherwise as one more. */
  lemma ExitReschedules(es: seq<Event>, g: nat, now: nat)
    requires var h := After(es).host; g in h.waits && g !in h.cancelled
    ensures var before, h := After(es).host, After(es + [WaitResolves(g, now)]).host;
            && before.subprocess == Some(g)
            && Fails(h, if now - before.launchedAt >= HEALTHY_UPTIME_MS then 0 else before.failures)
            && h.waits == before.waits - {g}
  {
    EveryRunKeeps(es);
    AfterOneMore(es, WaitResolves(g, now));
    var before := After(es).host;
    RescheduledFails(before.(waits := before.waits - {g}, subprocess := None), now - before.launchedAt);
  }

  /** A vanished daemon or a disabled host leaves no renderer, no restart and no pill, and no wait that
      could act. */
  lemma NothingOutlivesTheDaemon(es: seq<Event>, e: Event)
    requires e.Disable? || (e.DaemonVanished? && After(es).host.enabled)
    ensures var h := After(es + [e]).host;
            && h.subprocess.None? && h.timer.None? && !h.registered && h.waits <= h.cancelled
            && h.enabled == (After(es).host.enabled && !e.Disable?)
  {
    EveryRunKeeps(es);
    EveryRunKeeps(es + [e]);
    AfterOneMore(es, e);
  }

  // ---------------------------------------------------------------------------------------------
  // The host itself, updated by its event handlers

  class PillRegistration {
    var registered: bool

    constructor ()
      ensures !registered
    {
      registered := false;
    }

    /** Idempotent: registered once the daemon was told, and told only once. */
    method Register(sent: bool)
      modifies this
      ensures registered == (old(registered) || sent)
    {
      if registered {
        return;
      }
      if sent {
        registered := true;
      }
    }

    /** Withdraw; the daemon is told exactly if it knew. */
    method Unregister() returns (told: bool)
      modifies this
      ensures !registered && told == old(registered)
    {
      told := registered;
      registered := false;
    }

    /** Forget with the daemon that knew; nobody is told. */
    method Forget()
      modifies this
      ensures !registered
    {
      registered := false;
    }
  }

  class OverlayHost {
    var enabled: bool
    var subprocess: Option<nat>
    var cancellable: Option<nat>
    var launchedAt: nat
    var timer: Option<nat>
    var dormant: bool
    var failures: nat
    const registration: PillRegistration
    // What Gio holds on the host's behalf.
    var generations: nat
    var waits: set<nat>
    var cancelled: set<nat>

    ghost function View(): State
      reads this, registration
    {
      State(enabled, subprocess, cancellable, launchedAt, timer, dormant, failures, registration.registered,
            generations, waits, cancelled)
    }

    constructor ()
      ensures View() == ENABLED && fresh(registration)
    {
      enabled, dormant, failures := true, false, 0;
      subprocess, cancellable, launchedAt, timer := None, None, 0, None;
      generations, waits, cancelled := 0, {}, {};
      registration := new PillRegistration();
    }

    method GiveUp()
      modifies this`dormant, registration
      ensures View() == GivenUp(old(View()))
    {
      dormant := true;
      var told := registration.Unregister();
    }

    method ScheduleRestart(uptimeMs: int)
      modifies this`failures, this`timer, this`dormant, registration
      ensures View() == Rescheduled(old(View()), uptimeMs)
    {
      var plan := PlanRestart(failures, false, uptimeMs);
      failures := plan.consecutiveFailures;
      if plan.dormant {
        GiveUp();
        return;
      }
      if !plan.restart {
        return;
      }
      timer := None;
      timer := Some(plan.delayMs);
    }

    method Spawn(launch: Launch)
      modifies this, registration
      ensures View() == Spawned(old(View()), launch)
    {
      match launch
      case NotFound => GiveUp();
      case Throws => ScheduleRestart(0);
      case NoSubprocess => GiveUp();
      case Launched(now) =>
        launchedAt := now;
        cancellable := Some(generations);
        subprocess := Some(generations);
        waits := waits + {generations};
        generations := generations + 1;
    }

    method StopRenderer()
      modifies this
      ensures View() == RendererStopped(old(View()))
    {
      timer := None;
      if cancellable.Some? {
        cancelled := cancelled + {cancellable.value};
      }
      cancellable := None;
      subprocess := None;
    }

    method OnDaemonAppeared(sent: bool, launch: Launch)
      requires enabled
      modifies this, registration
      ensures View() == Handled(old(View()), DaemonAppeared(sent, launch))
    {
      if subprocess.Some? || timer.Some? {
        return;
      }
      dormant := false;
      failures := 0;
      registration.Register(sent);
      Spawn(launch);
    }

    method OnDaemonVanished()
      requires enabled
      modifies this, registration
      ensures View() == Handled(old(View()), DaemonVanished)
    {
      registration.Forget();
      if subprocess.None? && timer.None? {
        return;
      }
      StopRenderer();
    }

    /** The end of `_watchExit`'s wait for one generation. */
    method OnWaitResolved(generation: nat, now: nat)
      requires generation in waits
      modifies this, registration
      ensures View() == Handled(old(View()), WaitResolves(generation, now))
    {
      waits := waits - {generation};
      if generation !in cancelled {
        subprocess := None;
        ScheduleRestart(now - launchedAt);
      }
    }

    method OnTimer(present: bool, launch: Launch)
      requires timer.Some?
      modifies this, registration
      ensures View() == Handled(old(View()), TimerFires(present, launch))
    {
      timer := None;
      if present {
        Spawn(launch);
      }
    }

    method Disable()
      modifies this, registration
      ensures View() == Handled(old(View()), Event.Disable)
    {
      enabled := false;
      var told := registration.Unregister();
      StopRenderer();
    }
  }
}
