/**
 Switching the model Myna is connected to: plan the commands, run them with a failure possible at
 each, read back, and put the previous model back if the failure left none. A failed command
 changes nothing; others may connect, disconnect, install and remove before the read-back.
 */
module Switch {
  import opened Prelude

  datatype Backend = Backend(snap: string, slot: string)

  /** One content slot of the machine: whether it is a speech model, and whether it feeds Myna. */
  datatype Slot = Slot(id: Backend, isModel: bool, feeds: bool)

  datatype ActiveState = Disconnected | Connected(backend: Backend) | MultiplyConnected(backends: seq<Backend>)

  datatype Snapshot = Snapshot(backends: seq<Backend>, active: ActiveState, strays: seq<Backend>)

  datatype Command = Disconnect(backend: Backend) | Connect(backend: Backend) | Restart

  datatype SysError = UserCancelled | Refused(detail: string)

  /** The command at index `at` fails with `error`; past the end, none does. */
  datatype Failure = Failure(at: nat, error: SysError)

  // ---------------------------------------------------------------------------------------------
  // Snapshots

  function Pick(slots: seq<Slot>, keep: Slot -> bool): seq<Backend> {
    if slots == [] then []
    else Pick(slots[..|slots| - 1], keep) + if keep(slots[|slots| - 1]) then [slots[|slots| - 1].id] else []
  }

  function Models(slots: seq<Slot>): seq<Backend> { Pick(slots, (s: Slot) => s.isModel) }

  function FeedingModels(slots: seq<Slot>): seq<Backend> { Pick(slots, (s: Slot) => s.isModel && s.feeds) }

  function Strays(slots: seq<Slot>): seq<Backend> { Pick(slots, (s: Slot) => !s.isModel && s.feeds) }

  function ActiveOf(connected: seq<Backend>): ActiveState {
    if |connected| == 0 then Disconnected
    else if |connected| == 1 then Connected(connected[0])
    else MultiplyConnected(connected)
  }

  /** What a read of the connections shows. */
  function Read(slots: seq<Slot>): Snapshot {
    Snapshot(Models(slots), ActiveOf(FeedingModels(slots)), Strays(slots))
  }

  function ConnectedBackends(active: ActiveState): seq<Backend> {
    match active
    case Disconnected => []
    case Connected(b) => [b]
    case MultiplyConnected(bs) => bs
  }

  ghost predicate WellFormed(slots: seq<Slot>) {
    forall i, j :: 0 <= i < j < |slots| ==> slots[i].id != slots[j].id
  }

  lemma {:induction false} PickMembers(slots: seq<Slot>, keep: Slot -> bool, b: Backend)
    ensures b in Pick(slots, keep) <==> exists i :: 0 <= i < |slots| && slots[i].id == b && keep(slots[i])
  {
    if slots != [] {
      PickMembers(slots[..|slots| - 1], keep, b);
    }
  }

  lemma {:induction false} PickNone(slots: seq<Slot>, keep: Slot -> bool)
    requires forall i :: 0 <= i < |slots| ==> !keep(slots[i])
    ensures Pick(slots, keep) == []
  {
    if slots != [] {
      PickNone(slots[..|slots| - 1], keep);
    }
  }

  lemma {:induction false} PickOne(slots: seq<Slot>, keep: Slot -> bool, k: nat)
    requires k < |slots| && forall i :: 0 <= i < |slots| ==> (keep(slots[i]) <==> i == k)
    ensures Pick(slots, keep) == [slots[k].id]
  {
    var n := |slots| - 1;
    if k == n {
      PickNone(slots[..n], keep);
    } else {
      PickOne(slots[..n], keep, k);
    }
  }

  /** Reading loses nothing: the active state lists exactly the feeding models. */
  lemma ReadKeepsConnected(slots: seq<Slot>)
    ensures ConnectedBackends(Read(slots).active) == FeedingModels(slots)
  {
    var bs := FeedingModels(slots);
    if |bs| == 1 {
      assert bs == [bs[0]];
    }
  }

  // ---------------------------------------------------------------------------------------------
  // Plans

  function Disconnects(bs: seq<Backend>): (cs: seq<Command>)
    ensures |cs| == |bs| && forall i :: 0 <= i < |bs| ==> cs[i] == Disconnect(bs[i])
  {
    seq(|bs|, i requires 0 <= i < |bs| => Disconnect(bs[i]))
  }

  datatype Plan = Plan(baseline: Snapshot, selected: Backend, operations: seq<Command>)

  /** `SwitchPlan::new`; none for a backend the snapshot does not list. */
  function NewPlan(snapshot: Snapshot, selected: Backend): Option<Plan> {
    if selected !in snapshot.backends then None
    else
      var connected := ConnectedBackends(snapshot.active);
      Some(Plan(snapshot, selected,
                if connected == [selected] then []
                else Operations(connected + snapshot.strays, selected)))
  }

  ghost predicate IsPlan(p: Plan) {
    NewPlan(p.baseline, p.selected) == Some(p)
  }

  // ---------------------------------------------------------------------------------------------
  // Commands

  function AfterCommand(slots: seq<Slot>, c: Command): (r: seq<Slot>)
    ensures |r| == |slots|
  {
    seq(|slots|, i requires 0 <= i < |slots| =>
      match c
      case Disconnect(b) => if slots[i].id == b then slots[i].(feeds := false) else slots[i]
      case Connect(b) => if slots[i].id == b then slots[i].(feeds := true) else slots[i]
      case Restart => slots[i])
  }

  function AfterCommands(slots: seq<Slot>, cs: seq<Command>): (r: seq<Slot>)
    ensures |r| == |slots|
  {
    if cs == [] then slots else AfterCommand(AfterCommands(slots, cs[..|cs| - 1]), cs[|cs| - 1])
  }

  /** The same slots, possibly connected otherwise. */
  ghost predicate SameSlots(a: seq<Slot>, b: seq<Slot>) {
    |a| == |b| && forall i :: 0 <= i < |a| ==> a[i].id == b[i].id && a[i].isModel == b[i].isModel
  }

  lemma {:induction false} CommandsKeepSlots(slots: seq<Slot>, cs: seq<Command>)
    ensures SameSlots(slots, AfterCommands(slots, cs))
  {
    if cs != [] {
      CommandsKeepSlots(slots, cs[..|cs| - 1]);
    }
  }

  lemma {:induction false} SameModels(a: seq<Slot>, b: seq<Slot>)
    requires SameSlots(a, b)
    ensures Models(a) == Models(b)
  {
    PickSame(a, b, (s: Slot) => s.isModel);
  }

  lemma {:induction false} PickSame(a: seq<Slot>, b: seq<Slot>, keep: Slot -> bool)
    requires SameSlots(a, b) && forall i :: 0 <= i < |a| ==> keep(a[i]) == keep(b[i])
    ensures Pick(a, keep) == Pick(b, keep)
  {
    if a != [] {
      PickSame(a[..|a| - 1], b[..|b| - 1], keep);
    }
  }

  lemma {:induction false} DisconnectsTake(slots: seq<Slot>, bs: seq<Backend>)
    ensures forall i :: 0 <= i < |slots| ==>
      (AfterCommands(slots, Disconnects(bs))[i].feeds <==> slots[i].feeds && slots[i].id !in bs)
  {
    if bs != [] {
      var n := |bs| - 1;
      DisconnectsTake(slots, bs[..n]);
      CommandsKeepSlots(slots, Disconnects(bs[..n]));
      assert Disconnects(bs)[..n] == Disconnects(bs[..n]);
      assert bs == bs[..n] + [bs[n]];
    }
  }

  function Operations(bs: seq<Backend>, selected: Backend): seq<Command> {
    Disconnects(bs) + [Connect(selected), Restart]
  }

  /** The connect adds the selected slot to what the disconnects left. */
  lemma ConnectAdds(slots: seq<Slot>, bs: seq<Backend>, selected: Backend)
    ensures forall i :: 0 <= i < |slots| ==>
      (AfterCommands(slots, Operations(bs, selected)[..|bs| + 1])[i].feeds <==>
         slots[i].id == selected || (slots[i].feeds && slots[i].id !in bs))
  {
    var ops, n := Operations(bs, selected), |bs|;
    var mid := AfterCommands(slots, Disconnects(bs));
    DisconnectsTake(slots, bs);
    CommandsKeepSlots(slots, Disconnects(bs));
    assert ops[..n + 1][..n] == Disconnects(bs);
    assert AfterCommands(slots, ops[..n + 1]) == AfterCommand(mid, Connect(selected));
  }

  /** The restart changes no connection. */
  lemma RestartConnectsNothing(slots: seq<Slot>, bs: seq<Backend>, selected: Backend)
    ensures AfterCommands(slots, Operations(bs, selected)[..|bs| + 2])
         == AfterCommands(slots, Operations(bs, selected)[..|bs| + 1])
  {
    var ops, n := Operations(bs, selected), |bs|;
    assert ops[..n + 2][..n + 1] == ops[..n + 1];
    var mid := AfterCommands(slots, ops[..n + 1]);
    assert AfterCommands(slots, ops[..n + 2]) == AfterCommand(mid, Restart);
    assert AfterCommand(mid, Restart) == mid;
  }

  /** The first `k` commands, still disconnecting. */
  lemma WhileDisconnecting(slots: seq<Slot>, bs: seq<Backend>, selected: Backend, k: nat)
    requires k <= |bs|
    ensures forall i :: 0 <= i < |slots| ==>
      (AfterCommands(slots, Operations(bs, selected)[..k])[i].feeds <==> slots[i].feeds && slots[i].id !in bs[..k])
  {
    assert Operations(bs, selected)[..k] == Disconnects(bs[..k]);
    DisconnectsTake(slots, bs[..k]);
  }

  /** The first `k` commands, the connect among them. */
  lemma OnceConnected(slots: seq<Slot>, bs: seq<Backend>, selected: Backend, k: nat)
    requires k == |bs| + 1 || k == |bs| + 2
    ensures forall i :: 0 <= i < |slots| ==>
      (AfterCommands(slots, Operations(bs, selected)[..k])[i].feeds <==>
         slots[i].id == selected || (slots[i].feeds && slots[i].id !in bs))
  {
    ConnectAdds(slots, bs, selected);
    RestartConnectsNothing(slots, bs, selected);
  }

  /** Every slot that feeds Myna is one the plan disconnects. */
  lemma PlanCoversFeeding(slots: seq<Slot>, i: nat)
    requires i < |slots| && slots[i].feeds
    ensures slots[i].id in ConnectedBackends(Read(slots).active) + Read(slots).strays
  {
    ReadKeepsConnected(slots);
    PickMembers(slots, (s: Slot) => s.isModel && s.feeds, slots[i].id);
    PickMembers(slots, (s: Slot) => !s.isModel && s.feeds, slots[i].id);
  }

  lemma OnlyOneFeeds(slots: seq<Slot>, selected: Backend)
    requires WellFormed(slots) && selected in Models(slots)
    requires forall i :: 0 <= i < |slots| ==> (slots[i].feeds <==> slots[i].id == selected)
    ensures Read(slots).active == Connected(selected) && Read(slots).strays == []
  {
    PickMembers(slots, (s: Slot) => s.isModel, selected);
    var k :| 0 <= k < |slots| && slots[k].id == selected && slots[k].isModel;
    assert forall i :: 0 <= i < |slots| && i != k ==> slots[i].id != selected;
    PickOne(slots, (s: Slot) => s.isModel && s.feeds, k);
    PickNone(slots, (s: Slot) => !s.isModel && s.feeds);
  }

  /** A switch's commands, run to the end, take any machine to exactly the selected model. */
  lemma PlanReachesSelected(slots: seq<Slot>, p: Plan)
    requires WellFormed(slots) && IsPlan(p) && p.baseline == Read(slots)
    ensures Read(AfterCommands(slots, p.operations)).active == Connected(p.selected)
    ensures p.operations != [] ==> Read(AfterCommands(slots, p.operations)).strays == []
  {
    var bs := ConnectedBackends(p.baseline.active) + p.baseline.strays;
    if p.operations == [] {
      assert ConnectedBackends(p.baseline.active) == [p.selected];
      ReadKeepsConnected(slots);
    } else {
      var r := AfterCommands(slots, p.operations);
      assert p.operations[..|bs| + 2] == p.operations;
      OnceConnected(slots, bs, p.selected, |bs| + 2);
      forall i | 0 <= i < |slots| && slots[i].feeds
        ensures slots[i].id in bs
      {
        PlanCoversFeeding(slots, i);
      }
      CommandsKeepSlots(slots, p.operations);
      SameModels(slots, r);
      OnlyOneFeeds(r, p.selected);
    }
  }

  /** Nothing but the selected model feeds Myna. */
  ghost predicate FedOnlyBy(slots: seq<Slot>, selected: Backend) {
    forall i :: 0 <= i < |slots| && slots[i].feeds ==> slots[i].id == selected
  }

  /** A plan clears everything else off Myna's plug, except that with the selected model already the
      one connected it is empty and leaves any stray where it is. */
  lemma PlanClearsStraysUnlessNoop(slots: seq<Slot>, p: Plan)
    requires WellFormed(slots) && IsPlan(p) && p.baseline == Read(slots)
    ensures FedOnlyBy(AfterCommands(slots, p.operations), p.selected)
       <==> !(p.baseline.active == Connected(p.selected) && p.baseline.strays != [])
  {
    var bs := ConnectedBackends(p.baseline.active) + p.baseline.strays;
    ReadKeepsConnected(slots);
    if p.operations != [] {
      assert p.operations[..|bs| + 2] == p.operations;
      OnceConnected(slots, bs, p.selected, |bs| + 2);
      CommandsKeepSlots(slots, p.operations);
      forall i | 0 <= i < |slots| && slots[i].feeds
        ensures slots[i].id in bs
      {
        PlanCoversFeeding(slots, i);
      }
    } else {
      NoopFedBy(slots, p);
    }
  }

  lemma NoopFedBy(slots: seq<Slot>, p: Plan)
    requires WellFormed(slots) && IsPlan(p) && p.baseline == Read(slots) && p.operations == []
    ensures FedOnlyBy(slots, p.selected) <==> p.baseline.strays == []
  {
    ReadKeepsConnected(slots);
    assert FeedingModels(slots) == [p.selected];
    forall i | 0 <= i < |slots| && slots[i].feeds && p.baseline.strays == []
      ensures slots[i].id == p.selected
    {
      PlanCoversFeeding(slots, i);
    }
    if p.baseline.strays != [] {
      var stray := p.baseline.strays[0];
      PickMembers(slots, (s: Slot) => !s.isModel && s.feeds, stray);
      PickMembers(slots, (s: Slot) => s.isModel && s.feeds, p.selected);
      var i :| 0 <= i < |slots| && slots[i].id == stray && !slots[i].isModel && slots[i].feeds;
      var k :| 0 <= k < |slots| && slots[k].id == p.selected && slots[k].isModel && slots[k].feeds;
      assert slots[i].id != slots[k].id;
    }
  }

  /** Such a stray: a language model's provider left connected beside the speech model. */
  lemma StraySurvivesNoop()
    ensures var model, stray := Backend("parakeet", "provider"), Backend("gemma", "provider");
            var slots := [Slot(stray, false, true), Slot(model, true, true)];
            var plan := NewPlan(Read(slots), model);
            plan.Some? && !FedOnlyBy(AfterCommands(slots, plan.value.operations), model)
  {
    var model, stray := Backend("parakeet", "provider"), Backend("gemma", "provider");
    assert model.snap[0] != stray.snap[0];
    var slots := [Slot(stray, false, true), Slot(model, true, true)];
    PickOne(slots, (s: Slot) => s.isModel, 1);
    PickOne(slots, (s: Slot) => s.isModel && s.feeds, 1);
    assert AfterCommands(slots, []) == slots;
    assert slots[0].feeds && slots[0].id == stray;
  }

  /** Stopped anywhere, a switch away from one model leaves that one, none, or the one selected. */
  lemma StoppedSwitchLeavesAtMostOne(slots: seq<Slot>, p: Plan, k: nat)
    requires WellFormed(slots) && IsPlan(p) && p.baseline == Read(slots)
    requires p.baseline.active.Connected? && k <= |p.operations|
    ensures Read(AfterCommands(slots, p.operations[..k])).active
              in {p.baseline.active, Disconnected, Connected(p.selected)}
    ensures Models(AfterCommands(slots, p.operations[..k])) == Models(slots)
    ensures p.baseline.active.backend in Models(slots)
  {
    var previous := p.baseline.active.backend;
    var bs := [previous] + p.baseline.strays;
    var r := AfterCommands(slots, p.operations[..k]);
    ReadKeepsConnected(slots);
    assert FeedingModels(slots) == [previous];
    PickMembers(slots, (s: Slot) => s.isModel && s.feeds, previous);
    PickMembers(slots, (s: Slot) => s.isModel, previous);
    CommandsKeepSlots(slots, p.operations[..k]);
    SameModels(slots, r);
    if k == 0 {
      assert p.operations[..k] == [];
    } else {
      forall i | 0 <= i < |slots| && slots[i].feeds
        ensures slots[i].id in bs && (slots[i].isModel ==> slots[i].id == previous)
      {
        PlanCoversFeeding(slots, i);
        PickMembers(slots, (s: Slot) => s.isModel && s.feeds, slots[i].id);
      }
      if k <= |bs| {
        WhileDisconnecting(slots, bs, p.selected, k);
        assert bs[..k][0] == previous;
        PickNone(r, (s: Slot) => s.isModel && s.feeds);
      } else {
        OnceConnected(slots, bs, p.selected, k);
        OnlyOneFeeds(r, p.selected);
      }
    }
  }

  // ---------------------------------------------------------------------------------------------
  // The transaction

  datatype Execution = Completed(ran: seq<Command>) | Stopped(ran: seq<Command>, error: SysError)

  /** `last` and `final` are the connections as last read; `restoreError` is the restore's own
      failure. */
  datatype Outcome =
    | Applied(completed: seq<Command>, final: Snapshot)
    | Disagreed(completed: seq<Command>, final: Snapshot)
    | StaleDiscovery(final: Snapshot)
    | Noop(final: Snapshot)
    | Busy(change: string, final: Snapshot)
    | Failed(completed: seq<Command>, error: SysError, last: Option<Snapshot>, restoreError: Option<SysError>)
    | Cancelled(completed: seq<Command>, last: Option<Snapshot>)
    | FinalDiscoveryFailed(completed: seq<Command>)

  function FinalSnapshot(o: Outcome): Option<Snapshot> {
    match o
    case Applied(_, final) => Some(final)
    case Disagreed(_, final) => Some(final)
    case StaleDiscovery(final) => Some(final)
    case Noop(final) => Some(final)
    case Busy(_, final) => Some(final)
    case Failed(_, _, last, _) => last
    case Cancelled(_, last) => last
    case FinalDiscoveryFailed(_) => None
  }

  /** What the machine does to one switch: which reads fail, whether it was cancelled before it
      began, the snapd change in its way, where its commands and the restore's fail, and how others
      had left the machine by the time it was read back, if they touched it. */
  datatype Script = Script(
    preflightFails: bool,
    cancelled: bool,
    change: Option<string>,
    run: Option<Failure>,
    meddled: Option<seq<Slot>>,
    readBackFails: bool,
    restore: Option<Failure>,
    rereadFails: bool)

  ghost predicate Sound(script: Script) {
    script.meddled.Some? ==> WellFormed(script.meddled.value)
  }

  /** The machine as it is read back, its own commands having left `slots`. */
  function Meddled(slots: seq<Slot>, script: Script): seq<Slot> {
    if script.meddled.Some? then script.meddled.value else slots
  }

  /** The switch began with one model, which is still listed, and none is connected. */
  predicate LostModel(plan: Plan, slots: seq<Slot>) {
    plan.baseline.active.Connected? && Read(slots).active == Disconnected && plan.baseline.active.backend in Models(slots)
  }

  /** How a failed or cancelled switch that began with one model leaves the machine, read back and with
      no restore failing: never with none while that model is listed, and, nobody meddling, on that
      model or the selected one. */
  ghost predicate Recovered(plan: Plan, script: Script, o: Outcome, slots: seq<Slot>) {
    plan.baseline.active.Connected? && !script.readBackFails && (o.Failed? ==> o.restoreError.None?) ==>
      && (plan.baseline.active.backend in Models(slots) ==> Read(slots).active != Disconnected)
      && (script.meddled.None? ==>
            Read(slots).active == plan.baseline.active || Read(slots).active == Connected(plan.selected))
  }

  /** The plan still fits the machine, and there is something to do. */
  predicate Current(plan: Plan, script: Script, slots: seq<Slot>) {
    !script.preflightFails && Read(slots) == plan.baseline && plan.operations != []
  }

  predicate Completes(plan: Plan, script: Script) {
    script.run.None? || script.run.value.at >= |plan.operations|
  }

  /** A stopped switch says what stopped it, lists what it ran, and shows the connections unless they
      could not be read. A cancellation is reported as one unless the restore failed. */
  ghost predicate Stops(o: Outcome, completed: seq<Command>, error: SysError, script: Script) {
    && (o.Failed? || o.Cancelled?)
    && (o.Failed? ==> o.error == error && (error == UserCancelled ==> o.restoreError.Some?))
    && (o.Cancelled? ==> error == UserCancelled)
    && completed <= o.completed
    && (o.last.None? ==> script.readBackFails || script.rereadFails)
  }

  /** What a switch that gets to run its commands reports. */
  ghost predicate CommitsTo(plan: Plan, script: Script, o: Outcome, slots: seq<Slot>) {
    if !Completes(plan, script) then
      Stops(o, plan.operations[..script.run.value.at], script.run.value.error, script)
    else if script.readBackFails then o == FinalDiscoveryFailed(plan.operations)
    else if Read(slots).active == Connected(plan.selected) then o == Applied(plan.operations, Read(slots))
    else o == Disagreed(plan.operations, Read(slots))
  }

  class Machine {
    var slots: seq<Slot>
    /** Every command that ran, in order. */
    var ran: seq<Command>

    ghost predicate Valid()
      reads this
    {
      WellFormed(slots)
    }

    constructor (slots: seq<Slot>)
      requires WellFormed(slots)
      ensures Valid() && this.slots == slots && ran == []
    {
      this.slots, ran := slots, [];
    }

    method Refresh(fails: bool) returns (snapshot: Option<Snapshot>)
      ensures snapshot == if fails then None else Some(Read(slots))
    {
      snapshot := if fails then None else Some(Read(slots));
    }

    /** `execute_backend_switch`: run the commands in order until one fails. */
    method Execute(operations: seq<Command>, failure: Option<Failure>) returns (x: Execution)
      requires Valid()
      modifies this
      ensures Valid()
      ensures x.ran <= operations && ran == old(ran) + x.ran
      ensures slots == AfterCommands(old(slots), x.ran)
      ensures x.Completed? ==> x.ran == operations
      ensures x.Stopped? <==> failure.Some? && failure.value.at < |operations|
      ensures x.Stopped? ==> x.error == failure.value.error && |x.ran| == failure.value.at
    {
      var done := [];
      for n := 0 to |operations|
        invariant done == operations[..n]
        invariant slots == AfterCommands(old(slots), done) && SameSlots(old(slots), slots)
        invariant ran == old(ran) + done
        invariant failure.Some? ==> failure.value.at >= n
      {
        if failure.Some? && failure.value.at == n {
          return Stopped(done, failure.value.error);
        }
        assert operations[..n + 1][..n] == operations[..n];
        slots := AfterCommand(slots, operations[n]);
        ran := ran + [operations[n]];
        done := done + [operations[n]];
      }
      x := Completed(done);
    }

    /** `settle_after_refresh` */
    method Settle(completed: seq<Command>, error: SysError, readFails: bool) returns (o: Outcome)
      ensures o == var last := if readFails then None else Some(Read(slots));
                   if error == UserCancelled then Cancelled(completed, last) else Failed(completed, error, last, None)
    {
      var last := Refresh(readFails);
      match error
      case UserCancelled => o := Cancelled(completed, last);
      case _ => o := Failed(completed, error, last, None);
    }

    /** `restore_lost_model`: connect the previous model again when a stopped switch left none. */
    method Restore(plan: Plan, outcome: Outcome, failure: Option<Failure>, rereadFails: bool) returns (o: Outcome)
      requires Valid() && (outcome.Failed? ==> outcome.restoreError.None?)
      requires outcome.Failed? || outcome.Cancelled?
      requires outcome.last.Some? ==> outcome.last.value == Read(slots)
      modifies this
      ensures Valid() && SameSlots(old(slots), slots) && old(ran) <= ran
      ensures o.Failed? || o.Cancelled?
      ensures o.last.Some? ==> o.last.value == Read(slots)
      // A cancelled switch stays cancelled exactly if nothing about putting the model back failed.
      ensures o.Cancelled? ==> outcome.Cancelled?
      ensures o.Failed? ==>
        if outcome.Failed? then o.error == outcome.error else o.error == UserCancelled && o.restoreError.Some?
      ensures o.last.None? ==> outcome.last.None? || rereadFails
      ensures o.completed == outcome.completed + ran[|old(ran)|..]
      // Nothing is touched unless the read-back shows the model lost; then it is back, or the outcome
      // says why not.
      ensures outcome.last.None? || !LostModel(plan, old(slots)) ==> o == outcome && ran == old(ran) && slots == old(slots)
      ensures outcome.last.Some? && LostModel(plan, old(slots)) && (o.Failed? ==> o.restoreError.None?) ==>
        Read(slots).active == plan.baseline.active
      ensures o.Failed? && o.restoreError.Some? ==>
        failure.Some? && o.restoreError.value == failure.value.error
    {
      o := outcome;
      assert ran[|old(ran)|..] == [];
      assert outcome.completed + [] == outcome.completed;
      if !plan.baseline.active.Connected? || outcome.last.None? {
        return;
      }
      var previous := plan.baseline.active.backend;
      var lost := outcome.last.value;
      if lost.active != Disconnected || previous !in lost.backends {
        return;
      }
      var restore := NewPlan(lost, previous);
      var x := Execute(restore.value.operations, failure);
      CommandsKeepSlots(old(slots), x.ran);
      assert ran[|old(ran)|..] == x.ran;
      if x.Completed? {
        PlanReachesSelected(old(slots), restore.value);
      }
      var restoreError := if x.Stopped? then Some(x.error) else None;
      var last := Refresh(rereadFails);
      match outcome
      case Failed(completed, error, _, _) =>
        o := Failed(completed + x.ran, error, last, restoreError);
      case Cancelled(completed, _) =>
        if restoreError.Some? {
          o := Failed(completed + x.ran, UserCancelled, last, restoreError);
        } else {
          o := Cancelled(completed + x.ran, last);
        }
    }

    /** A stopped switch, from its commands on: read back, and restore what it lost. */
    method Recover(plan: Plan, ghost began: seq<Slot>, completed: seq<Command>, error: SysError, script: Script)
      returns (o: Outcome)
      requires Valid() && WellFormed(began) && IsPlan(plan) && plan.baseline == Read(began)
      requires |completed| <= |plan.operations| && completed == plan.operations[..|completed|]
      requires slots == Meddled(AfterCommands(began, completed), script)
      modifies this
      ensures Valid() && SameSlots(old(slots), slots)
      ensures o.Failed? || o.Cancelled?
      ensures FinalSnapshot(o).Some? ==> FinalSnapshot(o).value == Read(slots)
      ensures old(ran) <= ran && o.completed == completed + ran[|old(ran)|..]
      ensures Recovered(plan, script, o, slots) && Stops(o, completed, error, script)
      ensures o.Failed? && o.restoreError.Some? ==> script.restore.Some?
    {
      var settled := Settle(completed, error, script.readBackFails);
      if plan.baseline.active.Connected? && script.meddled.None? {
        StoppedSwitchLeavesAtMostOne(began, plan, |completed|);
      }
      o := Restore(plan, settled, script.restore, script.rereadFails);
      SameModels(old(slots), slots);
    }

    /** A completed switch, from its commands on: is the selected model the one connected? */
    method ReadBack(plan: Plan, ghost began: seq<Slot>, script: Script) returns (o: Outcome)
      requires WellFormed(began) && IsPlan(plan) && plan.baseline == Read(began) && plan.operations != []
      requires slots == Meddled(AfterCommands(began, plan.operations), script)
      ensures o.Applied? || o.Disagreed? || o.FinalDiscoveryFailed?
      ensures o.completed == plan.operations
      ensures o == if script.readBackFails then FinalDiscoveryFailed(plan.operations)
                   else if Read(slots).active == Connected(plan.selected) then Applied(plan.operations, Read(slots))
                   else Disagreed(plan.operations, Read(slots))
      ensures FinalSnapshot(o).Some? ==> FinalSnapshot(o).value == Read(slots)
      ensures o.FinalDiscoveryFailed? <==> script.readBackFails
      ensures o.Applied? <==> !script.readBackFails && Read(slots).active == Connected(plan.selected)
      ensures script.meddled.None? ==> !o.Disagreed? && Read(slots).strays == []
    {
      PlanReachesSelected(began, plan);
      var final := Refresh(script.readBackFails);
      if final.None? {
        return FinalDiscoveryFailed(plan.operations);
      }
      o := if final.value.active == Connected(plan.selected) then Applied(plan.operations, final.value)
           else Disagreed(plan.operations, final.value);
    }

    /** `execute_switch` once nothing stands in its way: run the plan, read back, restore. */
    method Commit(plan: Plan, script: Script) returns (o: Outcome)
      requires Valid() && Sound(script) && IsPlan(plan) && plan.baseline == Read(slots) && plan.operations != []
      modifies this
      ensures Valid() && SameSlots(Meddled(old(slots), script), slots)
      ensures o.Applied? || o.Disagreed? || o.Failed? || o.Cancelled? || o.FinalDiscoveryFailed?
      ensures FinalSnapshot(o).Some? ==> FinalSnapshot(o).value == Read(slots)
      ensures CommitsTo(plan, script, o, slots)
      ensures ran == old(ran) + o.completed
      ensures o.Applied? ==> Read(slots).active == Connected(plan.selected) && o.completed == plan.operations
      ensures o.Applied? && script.meddled.None? ==> Read(slots).strays == []
      ensures script.meddled.None? ==> !o.Disagreed?
      ensures (&& script.meddled.None? && !script.readBackFails
               && (script.run.Some? ==> script.run.value.at >= |plan.operations|)) ==> o.Applied?
      ensures o.Failed? || o.Cancelled? ==> Recovered(plan, script, o, slots)
      ensures o.Failed? && o.restoreError.Some? ==> script.restore.Some?
    {
      var x := Execute(plan.operations, script.run);
      CommandsKeepSlots(old(slots), x.ran);
      slots := Meddled(slots, script);
      match x
      case Completed(completed) =>
        o := ReadBack(plan, old(slots), script);
      case Stopped(completed, error) =>
        assert completed == plan.operations[..|completed|];
        o := Recover(plan, old(slots), completed, error, script);
    }

    /** `execute_switch` */
    method ExecuteSwitch(plan: Plan, script: Script) returns (o: Outcome)
      requires Valid() && Sound(script) && IsPlan(plan)
      modifies this
      ensures Valid() && old(ran) <= ran
      ensures SameSlots(old(slots), slots) || script.meddled.Some?
      // The report is true: what it shows is how the machine now is, and what ran is what it lists.
      ensures FinalSnapshot(o).Some? ==> FinalSnapshot(o).value == Read(slots)
      ensures o.Applied? || o.Disagreed? || o.Failed? || o.Cancelled? || o.FinalDiscoveryFailed? ==>
        ran == old(ran) + o.completed
      // A switch that finds the machine changed, nothing to do, or snapd busy runs nothing.
      ensures o.StaleDiscovery? || o.Noop? || o.Busy? ==> ran == old(ran) && slots == old(slots)
      ensures script.preflightFails ==> o == FinalDiscoveryFailed([]) && slots == old(slots)
      ensures !script.preflightFails ==> (o.StaleDiscovery? <==> Read(old(slots)) != plan.baseline)
      ensures o.Noop? <==> !script.preflightFails && Read(old(slots)) == plan.baseline && plan.operations == []
      // Cancelled before it began, it says so; with snapd in its way, it says what; else it commits.
      ensures Current(plan, script, old(slots)) && script.cancelled ==>
        && o == Cancelled([], if script.readBackFails then None else Some(Read(slots)))
        && ran == old(ran) && slots == old(slots)
      ensures Current(plan, script, old(slots)) && !script.cancelled ==>
        if script.change.Some? then o == Busy(script.change.value, Read(slots)) else CommitsTo(plan, script, o, slots)
      // Applied means the selected model, and Myna restarted on it; alone, unless others meddled.
      ensures o.Applied? ==> Read(slots).active == Connected(plan.selected)
      ensures o.Applied? ==> plan.operations != [] && ran == old(ran) + plan.operations && ran[|ran| - 1] == Restart
      ensures o.Applied? && script.meddled.None? ==> Read(slots).strays == []
      ensures o.Disagreed? ==> script.meddled.Some?
      // Unobstructed, it is applied.
      ensures (&& !script.preflightFails && Read(old(slots)) == plan.baseline && plan.operations != []
               && !script.cancelled && script.change.None? && script.meddled.None? && !script.readBackFails
               && (script.run.Some? ==> script.run.value.at >= |plan.operations|)) ==> o.Applied?
      // A failed or cancelled switch that began with one model does not end with none while that one
      // is listed, and unmeddled ends on that one or the selected one, or it says why not. A cancelled
      // one never says so: a failed restore makes it a failure.
      ensures o.Failed? || o.Cancelled? ==> Recovered(plan, script, o, slots)
      ensures o.Failed? && o.restoreError.Some? ==> script.restore.Some?
    {
      var preflight := Refresh(script.preflightFails);
      if preflight.None? {
        return FinalDiscoveryFailed([]);
      }
      if plan.operations == [] {
        o := if preflight.value == plan.baseline then Noop(preflight.value) else StaleDiscovery(preflight.value);
        return;
      }
      if preflight.value != plan.baseline || plan.selected !in preflight.value.backends {
        return StaleDiscovery(preflight.value);
      }
      if script.cancelled {
        o := Settle([], UserCancelled, script.readBackFails);
        return;
      }
      if script.change.Some? {
        return Busy(script.change.value, preflight.value);
      }
      o := Commit(plan, script);
    }
  }
}
