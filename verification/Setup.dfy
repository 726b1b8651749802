/** Leaving dictation running on a model: wait for snapd, then restart Myna or switch a model on. */
module Setup {
  import opened Prelude
  import opened Switch

  // ---------------------------------------------------------------------------------------------
  // Waiting for snapd

  /** What a look at snapd tells: nothing, that no change is in the way, or which one is. */
  datatype SnapdRead = Unreadable(message: string) | Idle | Changing(summary: string)

  datatype Wait = Free(waited: bool) | StillBusy(summary: string) | WaitCancelled | WaitFailed(message: string)

  /** How many steps of `d` it takes to cover `n`. */
  function Ceiling(n: int, d: nat): nat
    requires d > 0
    decreases if n <= 0 then 0 else n
  {
    if n <= 0 then 0 else 1 + Ceiling(n - d, d)
  }

  lemma {:induction false} CeilingRoundsUp(n: nat, d: nat)
    requires d > 0
    ensures Ceiling(n, d) == (n + d - 1) / d
  {
    WholeInStep(n + d - 1, d);
    if n > 0 {
      WholeInStep(n - 1, d);
      if n >= d {
        CeilingRoundsUp(n - d, d);
      }
    }
  }

  /** The wait comes to an end: it takes steps, allows itself none, or finds something but a change. */
  ghost predicate Ends(interval: nat, timeout: nat, look: nat -> SnapdRead, cancelled: nat -> bool) {
    interval > 0 || timeout == 0 || exists n: nat :: cancelled(n) || !look(n).Changing?
  }

  /** The wait ended as `w` after `looks` reads: every read but the last found a change, none was
      preceded by a cancellation, and the last, the cancellation or the clock decided. */
  ghost predicate Waited(interval: nat, timeout: nat, look: nat -> SnapdRead, cancelled: nat -> bool, w: Wait, looks: nat) {
    && (interval > 0 ==> looks <= Ceiling(timeout, interval) + 1)
    && (forall n :: 0 <= n < looks - 1 ==> look(n).Changing?)
    && (forall n :: 0 <= n < looks ==> !cancelled(n))
    && (w.WaitCancelled? ==> cancelled(looks) && (looks > 0 ==> look(looks - 1).Changing?))
    && (!w.WaitCancelled? ==> looks > 0)
    // Without an interval it never counts as having waited, however often it looked.
    && (w.Free? ==> look(looks - 1).Idle? && (w.waited <==> looks > 1 && interval > 0))
    && (w.WaitFailed? ==> look(looks - 1) == Unreadable(w.message))
    && (w.StillBusy? ==>
          && look(looks - 1) == Changing(w.summary)
          && if interval > 0 then looks == Ceiling(timeout, interval) + 1 else timeout == 0 && looks == 1)
  }

  /** `wait_for_snapd`. The `n`th read finds `look(n)`; `cancelled(n)` says the wait was stopped
      before it. Times are whole milliseconds. */
  method WaitForSnapd(interval: nat, timeout: nat, look: nat -> SnapdRead, cancelled: nat -> bool)
    returns (w: Wait, looks: nat)
    requires Ends(interval, timeout, look, cancelled)
    ensures Waited(interval, timeout, look, cancelled, w, looks)
  {
    var waited: nat := 0;
    looks := 0;
    ghost var bound: nat := if interval > 0 then Ceiling(timeout, interval) else 0;
    if interval == 0 && timeout > 0 {
      bound :| cancelled(bound) || !look(bound).Changing?;
    }
    while true
      invariant waited == 0 <==> interval == 0 || looks == 0
      invariant interval > 0 ==> looks + Ceiling(timeout - waited, interval) == Ceiling(timeout, interval)
      invariant looks <= bound
      invariant forall n :: 0 <= n < looks ==> look(n).Changing? && !cancelled(n)
      decreases bound - looks
    {
      if cancelled(looks) {
        return WaitCancelled, looks;
      }
      var found := look(looks);
      looks := looks + 1;
      match found
      case Unreadable(message) => return WaitFailed(message), looks;
      case Idle => return Free(waited > 0), looks;
      case Changing(summary) =>
        if waited >= timeout {
          return StillBusy(summary), looks;
        }
        waited := waited + interval;
    }
  }

  // ---------------------------------------------------------------------------------------------
  // Setting up

  datatype Settled = Restarted | LeftRunning

  datatype SetupError = SetupCancelled | SetupFailed(message: string) | SetupBusy(change: string) | Step(error: SysError)

  datatype Result = Ok(settled: Settled) | Err(error: SetupError)

  ghost predicate NoneBefore(backends: seq<Backend>, i: nat, preferred: Option<string>)
    requires i <= |backends|
  {
    forall j :: 0 <= j < i ==> Some(backends[j].snap) != preferred
  }

  /** The first backend of the preferred snap, or else the first there is. */
  function Choose(backends: seq<Backend>, preferred: Option<string>): (chosen: Option<Backend>)
    ensures chosen.None? <==> backends == []
    ensures chosen.Some? ==> chosen.value in backends
    ensures forall i :: 0 <= i < |backends| && Some(backends[i].snap) == preferred && NoneBefore(backends, i, preferred) ==>
      chosen == Some(backends[i])
    ensures backends != [] && NoneBefore(backends, |backends|, preferred) ==> chosen == Some(backends[0])
  {
    if backends == [] then None
    else if Some(backends[0].snap) == preferred then Some(backends[0])
    else
      var rest := Choose(backends[1..], preferred);
      if rest.Some? && Some(rest.value.snap) == preferred then rest else Some(backends[0])
  }

  /** What the machine does to one setup. `settledSlots` is how snapd left it once a wait was over,
      `meddling` what others did between the plan and the switch. */
  datatype SetupScript = SetupScript(
    firstReadFails: bool,
    look: nat -> SnapdRead,
    cancelled: nat -> bool,
    settledSlots: seq<Slot>,
    secondReadFails: bool,
    restart: Option<SysError>,
    meddling: Option<seq<Slot>>,
    switch: Script)

  ghost predicate Sane(script: SetupScript) {
    && WellFormed(script.settledSlots) && Sound(script.switch)
    && (script.meddling.Some? ==> WellFormed(script.meddling.value))
  }

  /** Nothing goes wrong with the switch and nobody else touches the machine. */
  predicate Smooth(script: Script) {
    && !script.preflightFails && !script.cancelled && script.change.None? && script.run.None?
    && script.meddled.None? && !script.readBackFails
  }

  /** With no single model connected, switch the chosen one on. The switch is never a no-op here. */
  method SwitchOn(m: Machine, snapshot: Snapshot, preferred: Option<string>, script: SetupScript) returns (r: Result)
    requires m.Valid() && Sane(script) && !snapshot.active.Connected?
    requires snapshot.active.MultiplyConnected? ==> |snapshot.active.backends| >= 2
    modifies m
    ensures m.Valid() && old(m.ran) <= m.ran
    ensures snapshot.backends == [] ==> r.Err? && m.ran == old(m.ran) && m.slots == old(m.slots)
    ensures r.Ok? ==>
      && r.settled == Restarted
      && |m.ran| > |old(m.ran)| && m.ran[|m.ran| - 1] == Restart
      && snapshot.backends != []
      && Read(m.slots).active == Connected(Choose(snapshot.backends, preferred).value)
    ensures (&& snapshot.backends != [] && snapshot == Read(old(m.slots)) && script.meddling.None?
             && Smooth(script.switch)) ==> r.Ok?
  {
    var selected := Choose(snapshot.backends, preferred);
    if selected.None? {
      return Err(SetupFailed("No model is connected."));
    }
    var plan := NewPlan(snapshot, selected.value);
    if script.meddling.Some? {
      m.slots := script.meddling.value;
    }
    var o := m.ExecuteSwitch(plan.value, script.switch);
    match o
    case Applied(_, _) => r := Ok(Restarted);
    case Failed(_, error, _, _) => r := Err(Step(error));
    case FinalDiscoveryFailed(_) => r := Err(SetupFailed("connections unreadable"));
    case Cancelled(_, _) => r := Err(SetupCancelled);
    case Busy(change, _) => r := Err(SetupBusy(change));
    case Disagreed(_, _) => r := Err(SetupFailed("The model changed while it was being switched on."));
    case StaleDiscovery(_) => r := Err(SetupFailed("The model changed while it was being switched on."));
    case Noop(_) => r := Ok(LeftRunning);
  }

  /** With one model connected only restart Myna, else switch one on. */
  method RestartOrSwitch(m: Machine, snapshot: Snapshot, preferred: Option<string>, script: SetupScript) returns (r: Result)
    requires m.Valid() && Sane(script)
    requires snapshot.active.MultiplyConnected? ==> |snapshot.active.backends| >= 2
    modifies m
    ensures m.Valid() && old(m.ran) <= m.ran
    ensures r.Ok? ==> r.settled == Restarted && |m.ran| > |old(m.ran)| && m.ran[|m.ran| - 1] == Restart
    ensures snapshot.active.Connected? ==>
      && m.slots == old(m.slots) && m.ran == old(m.ran) + (if r.Ok? then [Restart] else [])
      && (r.Ok? <==> script.restart.None?)
    ensures !snapshot.active.Connected? && r.Ok? ==>
      snapshot.backends != [] && Read(m.slots).active == Connected(Choose(snapshot.backends, preferred).value)
    ensures (&& !snapshot.active.Connected? && snapshot.backends != [] && snapshot == Read(old(m.slots))
             && script.meddling.None? && Smooth(script.switch)) ==> r.Ok?
  {
    if snapshot.active.Connected? {
      if script.restart.Some? {
        return Err(if script.restart.value == UserCancelled then SetupCancelled else Step(script.restart.value));
      }
      m.ran := m.ran + [Restart];
      return Ok(Restarted);
    }
    r := SwitchOn(m, snapshot, preferred, script);
  }

  /** The connections setting up goes by: read again after a wait. */
  function Basis(script: SetupScript, slots: seq<Slot>, waited: bool): Snapshot {
    Read(if waited then script.settledSlots else slots)
  }

  /** The rest of the setup, the way being free: `looks` reads found it so, and by then snapd had left
      the machine as it settled. */
  method SetUp(m: Machine, first: Snapshot, waited: bool, looks: nat, preferred: Option<string>, script: SetupScript)
    returns (r: Result)
    requires m.Valid() && Sane(script) && first == Read(m.slots) && (waited ==> looks > 1)
    modifies m
    ensures m.Valid() && old(m.ran) <= m.ran
    ensures r.Ok? ==> r.settled == Restarted && |m.ran| > |old(m.ran)| && m.ran[|m.ran| - 1] == Restart
    ensures waited && script.secondReadFails ==> r.Err? && m.ran == old(m.ran)
    ensures !(waited && script.secondReadFails) ==> SetUpOn(Basis(script, old(m.slots), waited), r, old(m.ran), m, preferred, script)
    ensures !(waited && script.secondReadFails) && (waited || looks <= 1) ==>
      SetUpFresh(Basis(script, old(m.slots), waited), r, m, script)
  {
    var snapshot := Some(first);
    if looks > 1 {
      m.slots := script.settledSlots;
    }
    if waited {
      snapshot := m.Refresh(script.secondReadFails);
      if snapshot.None? {
        return Err(SetupFailed("connections unreadable"));
      }
    }
    r := RestartOrSwitch(m, snapshot.value, preferred, script);
  }

  /** A model already connected is never switched away from, only Myna restarted on it; otherwise it is
      the preferred model, or else the first, that ends up connected. */
  ghost predicate SetUpOn(basis: Snapshot, r: Result, ran: seq<Command>, m: Machine, preferred: Option<string>, script: SetupScript)
    reads m
  {
    if basis.active.Connected? then
      m.ran == ran + (if r.Ok? then [Restart] else []) && (r.Ok? <==> script.restart.None?)
    else
      r.Ok? ==> basis.backends != [] && Read(m.slots).active == Connected(Choose(basis.backends, preferred).value)
  }

  /** Going by connections that still hold, a restart leaves them as they are, and a switch with nothing
      in its way succeeds. */
  ghost predicate SetUpFresh(basis: Snapshot, r: Result, m: Machine, script: SetupScript)
    reads m
  {
    if basis.active.Connected? then Read(m.slots) == basis
    else basis.backends != [] && script.meddling.None? && Smooth(script.switch) ==> r.Ok?
  }

  /** What a wait that did not free the way makes of the setup. */
  function Blocked(w: Wait): SetupError
    requires !w.Free?
  {
    match w
    case WaitCancelled => SetupCancelled
    case StillBusy(change) => SetupBusy(change)
    case WaitFailed(message) => SetupFailed(message)
  }

  /** `ensure_backend_active` */
  method EnsureBackendActive(m: Machine, preferred: Option<string>, interval: nat, timeout: nat, script: SetupScript)
    returns (r: Result, wait: Option<Wait>, looks: nat)
    requires m.Valid() && Sane(script) && Ends(interval, timeout, script.look, script.cancelled)
    modifies m
    ensures m.Valid() && old(m.ran) <= m.ran
    // Unless the connections cannot be read, it first waits for snapd.
    ensures wait.None? <==> script.firstReadFails
    ensures wait.Some? ==> Waited(interval, timeout, script.look, script.cancelled, wait.value, looks)
    // Success always means Myna was restarted, as the last thing done, and on one model, unless a wait
    // without an interval left the first reading of the connections standing.
    ensures r.Ok? ==>
      && r.settled == Restarted
      && |m.ran| > |old(m.ran)| && m.ran[|m.ran| - 1] == Restart
      && (interval > 0 ==> Read(m.slots).active.Connected?)
    // A wait that is cancelled, runs out or cannot be read ends the setup before any command.
    ensures wait.Some? && !wait.value.Free? ==>
      r == Err(Blocked(wait.value)) && m.ran == old(m.ran) && m.slots == old(m.slots)
    ensures wait.None? ==> r.Err? && m.ran == old(m.ran)
    ensures wait.Some? && wait.value.Free? && wait.value.waited && script.secondReadFails ==> r.Err? && m.ran == old(m.ran)
    // Free to go on, it leaves the right model connected.
    ensures wait.Some? && wait.value.Free? && !(wait.value.waited && script.secondReadFails) ==>
      && SetUpOn(Basis(script, old(m.slots), wait.value.waited), r, old(m.ran), m, preferred, script)
      && (interval > 0 ==> SetUpFresh(Basis(script, old(m.slots), wait.value.waited), r, m, script))
  {
    wait, looks := None, 0;
    var snapshot := m.Refresh(script.firstReadFails);
    if snapshot.None? {
      return Err(SetupFailed("connections unreadable")), wait, looks;
    }
    var w;
    w, looks := WaitForSnapd(interval, timeout, script.look, script.cancelled);
    wait := Some(w);
    if !w.Free? {
      return Err(Blocked(w)), wait, looks;
    }
    r := SetUp(m, snapshot.value, w.waited, looks, preferred, script);
  }
}
