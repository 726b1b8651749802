/**
 The capture loop's lifecycle decisions: phase deadlines, stop and abort, and which ending wins.
 Instants are whole milliseconds.
 */
module Supervisor {
  import opened Prelude
  import opened Capture

  const SILENCE_TIMEOUT: nat := 3000

  datatype Phase = Discovering | Linking | Capturing

  datatype Watch = Watch(phase: Phase, wired: bool, deadline: nat)

  /** What one drain of the realtime ring found. Only a drain that moved audio can find the
      consumer gone. */
  datatype Drained = Nothing | Audio(abandoned: bool)

  datatype Event =
    | LinkingAt(now: nat)
    | StreamAccepted
    | StreamFailed(detail: string)
    | PollAt(now: nat, drained: Drained, loss: Option<Loss>, stopped: bool)

  /** The loop thread's view: the watch, and the ending once there is one. */
  datatype Loop = Loop(watch: Watch, ending: Option<Ending>)

  function Opened(now: nat): Loop {
    Loop(Watch(Discovering, false, now + SILENCE_TIMEOUT), None)
  }

  /** `Supervisor::tick` */
  function Ticked(w: Watch, now: nat, stopped: bool): Option<Ending> {
    if stopped then
      Some(if w.wired || w.phase == Phase.Capturing then Clean
           else Fault(DeviceUnavailable("capture stopped before an audio source was wired")))
    else if now >= w.deadline then Some(Fault(if w.phase == Discovering then ServiceUnresponsive else NoFlow))
    else None
  }

  function Stepped(l: Loop, e: Event): Loop {
    match e
    case LinkingAt(now) => l.(watch := l.watch.(phase := Linking, deadline := now + SILENCE_TIMEOUT))
    case StreamAccepted => l.(watch := l.watch.(wired := true))
    case StreamFailed(detail) => l.(ending := First(l.ending, Some(Fault(DeviceUnavailable(detail)))))
    case PollAt(now, drained, loss, stopped) =>
      var watch := if drained.Audio? then l.watch.(phase := Phase.Capturing, deadline := now + SILENCE_TIMEOUT) else l.watch;
      var abort := if drained.Audio? && drained.abandoned then Some(Clean) else None;
      var lost := if loss.Some? then Some(Fault(AudioLost(loss.value))) else None;
      Loop(watch, First(First(First(l.ending, abort), lost), Ticked(watch, now, stopped)))
  }

  function After(since: nat, es: seq<Event>): Loop {
    if es == [] then Opened(since) else Stepped(After(since, es[..|es| - 1]), es[|es| - 1])
  }

  // ---------------------------------------------------------------------------------------------
  // The run, read off its events

  predicate Progress(e: Event) {
    e.LinkingAt? || (e.PollAt? && e.drained.Audio?)
  }

  /** When capture last got anywhere: opened, linked, or delivered audio. */
  function LastProgress(since: nat, es: seq<Event>): nat {
    if es == [] then since
    else if Progress(es[|es| - 1]) then es[|es| - 1].now
    else LastProgress(since, es[..|es| - 1])
  }

  ghost predicate Linked(es: seq<Event>) { exists i :: 0 <= i < |es| && Progress(es[i]) }

  /** The graph accepted the stream at some point. */
  ghost predicate Accepted(es: seq<Event>) { StreamAccepted in es }

  /** The last progress was audio. */
  predicate Flowing(es: seq<Event>) {
    es != [] && if Progress(es[|es| - 1]) then es[|es| - 1].PollAt? else Flowing(es[..|es| - 1])
  }

  ghost predicate Proved(es: seq<Event>) {
    exists i :: 0 <= i < |es| && (es[i].StreamAccepted? || (es[i].PollAt? && es[i].drained.Audio?))
  }

  /** The watch follows the run: the deadline is the last progress plus the timeout, in every run. */
  lemma {:induction false} DeadlineFollowsProgress(since: nat, es: seq<Event>)
    ensures After(since, es).watch.deadline == LastProgress(since, es) + SILENCE_TIMEOUT
    ensures After(since, es).watch.phase == Discovering <==> !Linked(es)
    ensures After(since, es).watch.phase == Phase.Capturing <==> Flowing(es)
    ensures After(since, es).watch.wired <==> Accepted(es)
    ensures Accepted(es) || Flowing(es) ==> Proved(es)
  {
    if es != [] {
      var front, last := es[..|es| - 1], es[|es| - 1];
      DeadlineFollowsProgress(since, front);
      assert forall i :: 0 <= i < |front| ==> es[i] == front[i];
      assert es[|front|] == last;
    }
  }

  /** A poll that finds nothing, no stop and no loss ends the capture exactly when the silence has
      lasted the timeout, and then as a fault that says how far capture had got. */
  lemma SilentPollEndsAtDeadline(since: nat, es: seq<Event>, now: nat)
    requires After(since, es).ending.None?
    ensures var l := After(since, es + [PollAt(now, Nothing, None, false)]);
            && (l.ending.Some? <==> now >= LastProgress(since, es) + SILENCE_TIMEOUT)
            && (l.ending.Some? ==> l.ending == Some(Fault(if Linked(es) then NoFlow else ServiceUnresponsive)))
  {
    DeadlineFollowsProgress(since, es);
    assert (es + [PollAt(now, Nothing, None, false)])[..|es|] == es;
  }

  /** A poll that moved audio for a consumer still there never ends an unstopped, lossless capture. */
  lemma DeliveryNeverTimesOut(since: nat, es: seq<Event>, now: nat)
    requires After(since, es).ending.None?
    ensures After(since, es + [PollAt(now, Audio(false), None, false)]).ending.None?
  {
    assert (es + [PollAt(now, Audio(false), None, false)])[..|es|] == es;
  }

  /** A stop always ends the capture, whatever the deadline and whatever the poll found: clean exactly
      when the consumer was gone, or no loss was read and the graph had accepted the stream or audio
      was flowing. */
  lemma StopAlwaysEnds(since: nat, es: seq<Event>, now: nat, drained: Drained, loss: Option<Loss>)
    requires After(since, es).ending.None?
    ensures var l := After(since, es + [PollAt(now, drained, loss, true)]);
            && l.ending.Some?
            && (l.ending == Some(Clean) <==>
                  || (drained.Audio? && drained.abandoned)
                  || (loss.None? && (Accepted(es) || drained.Audio? || Flowing(es))))
            && (loss.Some? && !(drained.Audio? && drained.abandoned) ==> l.ending == Some(Fault(AudioLost(loss.value))))
  {
    DeadlineFollowsProgress(since, es);
    assert (es + [PollAt(now, drained, loss, true)])[..|es|] == es;
  }

  /** The ending of an open run's next poll, in order of precedence: a consumer found gone, the loss
      read, the stop, the deadline. */
  ghost function PollEnding(since: nat, es: seq<Event>, now: nat, drained: Drained, loss: Option<Loss>, stopped: bool): Option<Ending> {
    if drained.Audio? && drained.abandoned then Some(Clean)
    else if loss.Some? then Some(Fault(AudioLost(loss.value)))
    else if stopped then
      Some(if Accepted(es) || drained.Audio? || Flowing(es) then Clean
           else Fault(DeviceUnavailable("capture stopped before an audio source was wired")))
    else if drained.Nothing? && now >= LastProgress(since, es) + SILENCE_TIMEOUT then
      Some(Fault(if Linked(es) then NoFlow else ServiceUnresponsive))
    else None
  }

  /** Every poll of an open run ends it, or not, exactly so. */
  lemma PollEndsExactly(since: nat, es: seq<Event>, now: nat, drained: Drained, loss: Option<Loss>, stopped: bool)
    requires After(since, es).ending.None?
    ensures After(since, es + [PollAt(now, drained, loss, stopped)]).ending
         == PollEnding(since, es, now, drained, loss, stopped)
  {
    DeadlineFollowsProgress(since, es);
    assert (es + [PollAt(now, drained, loss, stopped)])[..|es|] == es;
  }

  /** A stream failure ends an open run as an unavailable device; linking and acceptance end nothing. */
  lemma OtherEventsEndExactly(since: nat, es: seq<Event>, e: Event)
    requires After(since, es).ending.None? && !e.PollAt?
    ensures After(since, es + [e]).ending
         == if e.StreamFailed? then Some(Fault(DeviceUnavailable(e.detail))) else None
  {
    assert (es + [e])[..|es|] == es;
  }

  /** The first ending wins: no later event changes it. */
  lemma {:induction false} FirstEndingWins(since: nat, es: seq<Event>, more: seq<Event>)
    requires After(since, es).ending.Some?
    ensures After(since, es + more).ending == After(since, es).ending
    decreases |more|
  {
    if more == [] {
      assert es + more == es;
    } else {
      var front := more[..|more| - 1];
      FirstEndingWins(since, es, front);
      assert (es + more)[..|es + more| - 1] == es + front;
    }
  }

  /** No run ends clean on nothing: before a clean ending comes an accepted stream or a delivery. */
  lemma {:induction false} CleanNeedsProof(since: nat, es: seq<Event>)
    requires After(since, es).ending == Some(Clean)
    ensures Proved(es)
  {
    var front, last := es[..|es| - 1], es[|es| - 1];
    assert forall i :: 0 <= i < |front| ==> es[i] == front[i];
    assert es[|front|] == last;
    DeadlineFollowsProgress(since, front);
    if After(since, front).ending.Some? {
      CleanNeedsProof(since, front);
    }
  }

  // ---------------------------------------------------------------------------------------------
  // The supervisor itself

  class Supervisor {
    var phase: Phase
    var wired: bool
    var deadline: nat

    ghost function View(): Watch
      reads this
    {
      Watch(phase, wired, deadline)
    }

    constructor (now: nat)
      ensures View() == Opened(now).watch
    {
      phase, wired, deadline := Discovering, false, now + SILENCE_TIMEOUT;
    }

    method Tick(now: nat, stopped: bool) returns (why: Option<Ending>)
      ensures why == Ticked(View(), now, stopped)
    {
      if stopped {
        if wired || phase == Phase.Capturing {
          return Some(Clean);
        }
        return Some(Fault(DeviceUnavailable("capture stopped before an audio source was wired")));
      }
      if now >= deadline {
        match phase
        case Discovering => return Some(Fault(ServiceUnresponsive));
        case _ => return Some(Fault(NoFlow));
      }
      return None;
    }
  }

  /** The poll timer and stream callbacks on the loop thread. */
  class CaptureLoop {
    const supervisor: Supervisor
    var ending: Option<Ending>

    ghost function View(): Loop
      reads this, supervisor
    {
      Loop(supervisor.View(), ending)
    }

    constructor (now: nat)
      ensures View() == Opened(now) && fresh(supervisor)
    {
      supervisor := new Supervisor(now);
      ending := None;
    }

    method End(why: Ending)
      modifies this`ending
      ensures ending == First(old(ending), Some(why))
    {
      if ending.None? {
        ending := Some(why);
      }
    }

    method Link(now: nat)
      modifies supervisor
      ensures View() == Stepped(old(View()), LinkingAt(now))
    {
      supervisor.phase := Linking;
      supervisor.deadline := now + SILENCE_TIMEOUT;
    }

    method StateChanged(accepted: bool, failed: Option<string>)
      modifies this`ending, supervisor
      ensures View() == var l := if accepted then Stepped(old(View()), StreamAccepted) else old(View());
                        if failed.Some? then Stepped(l, StreamFailed(failed.value)) else l
    {
      if accepted {
        supervisor.wired := true;
      }
      if failed.Some? {
        End(Fault(DeviceUnavailable(failed.value)));
      }
    }

    method Poll(now: nat, drained: Drained, loss: Option<Loss>, stopped: bool)
      modifies this`ending, supervisor
      ensures View() == Stepped(old(View()), PollAt(now, drained, loss, stopped))
    {
      if drained.Audio? {
        supervisor.phase := Phase.Capturing;
        supervisor.deadline := now + SILENCE_TIMEOUT;
        if drained.abandoned {
          End(Clean);
        }
      }
      if loss.Some? {
        End(Fault(AudioLost(loss.value)));
      }
      var why := supervisor.Tick(now, stopped);
      if why.Some? {
        End(why.value);
      }
    }
  }
}
