/** Cancelling an execution of the ACP backend: a latch, one channel per execution and a forwarder thread. */
module AcpCancellation {
  import opened Wrappers

  datatype Signal = Cancel | Complete

  datatype Phase = Waiting | Forwarding | Ended | Over(started: bool)

  /** The channel's log, whether the forwarder was told to complete, and whether it notified the agent. */
  datatype Execution = Execution(phase: Phase, log: seq<Signal>, completed: bool, notified: bool)

  datatype Event = Armed(id: nat) | Skipped | Refused | Cancelled | Completed(id: nat) | Disarmed(id: nat)

  /** The latch and the armed execution's channel are the shared state; `history` records what happened. */
  datatype State = State(
    requested: bool, signal: Option<nat>, next: nat, executions: map<nat, Execution>, history: seq<Event>)

  function Start(): State {
    State(false, None, 0, map[], [])
  }

  /** A request to cancel, an execution's beginning and end, and the steps of its forwarder. */
  datatype Action =
    | Execute
    | RequestCancel
    | StartForwarder(id: nat)
    | Receive(id: nat)
    | DropForwarder(id: nat)
    | Disarm(id: nat)

  /** The latch taken, a second execution refused, or a channel opened. */
  function Arm(s: State): State {
    if s.signal.Some? then State(s.requested, s.signal, s.next, s.executions, s.history + [Refused])
    else if s.requested then State(false, s.signal, s.next, s.executions, s.history + [Skipped])
    else
      var id := s.next + 1;
      State(false, Some(id), id, s.executions[id := Execution(Waiting, [], false, false)], s.history + [Armed(id)])
  }

  function Request(s: State): State {
    var executions :=
      if s.signal.Some? && s.signal.value in s.executions then Send(s.executions, s.signal.value, Cancel)
      else s.executions;
    State(true, s.signal, s.next, executions, s.history + [Cancelled])
  }

  function Send(executions: map<nat, Execution>, id: nat, signal: Signal): map<nat, Execution>
    requires id in executions
  {
    var e := executions[id];
    executions[id := Execution(e.phase, e.log + [signal], e.completed || signal == Complete, e.notified)]
  }

  function With(s: State, id: nat, e: Execution): State {
    State(s.requested, s.signal, s.next, s.executions[id := e], s.history)
  }

  function Step(s: State, action: Action): State {
    match action
    case Execute => Arm(s)
    case RequestCancel => Request(s)
    case StartForwarder(id) =>
      if id in s.executions && s.executions[id].phase.Waiting? then
        var e := s.executions[id];
        With(s, id, Execution(Forwarding, e.log, e.completed, e.notified))
      else s
    case Receive(id) =>
      if id in s.executions && s.executions[id].phase.Forwarding? && s.executions[id].log != [] then
        var e := s.executions[id];
        With(s, id, Execution(Ended, e.log, e.completed, e.log[0] == Cancel))
      else s
    case DropForwarder(id) =>
      if id in s.executions && (s.executions[id].phase.Forwarding? || s.executions[id].phase.Ended?)
         && !s.executions[id].completed
      then
        State(s.requested, s.signal, s.next, Send(s.executions, id, Complete), s.history + [Completed(id)])
      else s
    case Disarm(id) =>
      if s.signal == Some(id) && id in s.executions && MayDisarm(s.executions[id]) then
        var e := s.executions[id];
        var over := Execution(Over(e.phase.Ended?), e.log, e.completed, e.notified);
        State(false, None, s.next, s.executions[id := over], s.history + [Disarmed(id)])
      else s
  }

  /** Either the forwarder never started, or it was told to complete and joined. */
  predicate MayDisarm(e: Execution) {
    e.phase.Waiting? || (e.phase.Ended? && e.completed)
  }

  function Run(s: State, actions: seq<Action>): State
    decreases |actions|
  {
    if actions == [] then s else Run(Step(s, actions[0]), actions[1..])
  }

  // ---------------------------------------------------------------- what the history says

  /** The execution that was armed last and not disarmed. */
  function Current(history: seq<Event>): Option<nat> {
    if history == [] then None
    else
      match history[|history| - 1]
      case Armed(id) => Some(id)
      case Disarmed(_) => None
      case _ => Current(history[..|history| - 1])
  }

  /** A cancel came in since an execution last began, was skipped or was disarmed. */
  function Pending(history: seq<Event>): bool {
    if history == [] then false
    else
      match history[|history| - 1]
      case Cancelled => true
      case Armed(_) => false
      case Skipped => false
      case Disarmed(_) => false
      case _ => Pending(history[..|history| - 1])
  }

  /** What the next execution does, by the history alone. */
  function Outcome(history: seq<Event>, id: nat): Event {
    if Current(history).Some? then Refused else if Pending(history) then Skipped else Armed(id)
  }

  /** A cancel came in while the execution was current and before its forwarder was told to complete. */
  ghost predicate Signalled(history: seq<Event>, id: nat) {
    exists j :: 0 <= j < |history| && history[j] == Cancelled && Current(history[..j]) == Some(id)
                && Completed(id) !in history[..j]
  }

  lemma {:induction false} SignalledStep(history: seq<Event>, event: Event, id: nat)
    ensures Signalled(history + [event], id) <==>
              Signalled(history, id)
              || (event == Cancelled && Current(history) == Some(id) && Completed(id) !in history)
  {
    var longer := history + [event];
    forall j | 0 <= j < |history|
      ensures longer[..j] == history[..j]
    {
    }
    assert longer[..|history|] == history;
    if Signalled(history, id) {
      var j :| 0 <= j < |history| && history[j] == Cancelled && Current(history[..j]) == Some(id)
               && Completed(id) !in history[..j];
      assert longer[j] == Cancelled && longer[..j] == history[..j];
    }
    if event == Cancelled && Current(history) == Some(id) && Completed(id) !in history {
      assert longer[|history|] == Cancelled;
    }
    if Signalled(longer, id) {
      var j :| 0 <= j < |longer| && longer[j] == Cancelled && Current(longer[..j]) == Some(id)
               && Completed(id) !in longer[..j];
      if j < |history| {
        assert history[j] == Cancelled && longer[..j] == history[..j];
      }
    }
  }

  // ---------------------------------------------------------------- the invariant

  predicate FirstIsCancel(log: seq<Signal>) {
    log != [] && log[0] == Cancel
  }

  ghost predicate ExecutionOk(s: State, id: nat, e: Execution) {
    && (FirstIsCancel(e.log) <==> Signalled(s.history, id))
    && (e.completed <==> Completed(id) in s.history)
    && (e.log == [] <==> !Signalled(s.history, id) && !e.completed)
    && (!e.phase.Over? <==> s.signal == Some(id))
    && (e.notified ==> FirstIsCancel(e.log))
    && (e.phase.Waiting? || e.phase == Over(false) ==> !e.completed)
    && (e.phase.Waiting? || e.phase.Forwarding? || e.phase == Over(false) ==> !e.notified)
    && (e.phase.Ended? || e.phase == Over(true) ==> e.log != [] && (e.notified <==> FirstIsCancel(e.log)))
    && (e.phase == Over(true) ==> e.completed)
  }

  ghost predicate Inv(s: State) {
    && s.signal == Current(s.history)
    && (s.signal == None ==> (s.requested <==> Pending(s.history)))
    && (s.signal.Some? ==> s.signal.value in s.executions)
    && (forall id :: id in s.executions ==> id <= s.next && ExecutionOk(s, id, s.executions[id]))
    && (forall id: nat :: Armed(id) in s.history || Completed(id) in s.history ==> id <= s.next)
  }

  lemma {:induction false} CurrentWasArmed(history: seq<Event>, id: nat)
    requires Current(history) == Some(id)
    ensures Armed(id) in history
    decreases |history|
  {
    var last := history[|history| - 1];
    if !last.Armed? {
      CurrentWasArmed(history[..|history| - 1], id);
    }
  }

  lemma {:induction false} SignalledWasArmed(history: seq<Event>, id: nat)
    requires Signalled(history, id)
    ensures Armed(id) in history
  {
    var j :| 0 <= j < |history| && history[j] == Cancelled && Current(history[..j]) == Some(id)
             && Completed(id) !in history[..j];
    CurrentWasArmed(history[..j], id);
  }

  /** One more event that is neither a cancel nor about the execution's completion changes nothing for it. */
  lemma {:induction false} OtherEvent(history: seq<Event>, event: Event, id: nat)
    requires event != Cancelled && event != Completed(id)
    ensures Signalled(history + [event], id) == Signalled(history, id)
    ensures Completed(id) in history + [event] <==> Completed(id) in history
  {
    SignalledStep(history, event, id);
  }

  lemma {:induction false} LastEvent(history: seq<Event>, event: Event)
    ensures (history + [event])[..|history|] == history && (history + [event])[|history|] == event
  {
  }

  /** A refused or skipped execution: the channels stay, and the event concerns none of them. */
  lemma {:induction false} NoneArmedKeeps(s: State, event: Event)
    requires Inv(s) && ((s.signal.Some? && event == Refused) || (s.signal.None? && s.requested && event == Skipped))
    ensures Inv(State(if event == Refused then s.requested else false, s.signal, s.next, s.executions, s.history + [event]))
  {
    var t := State(if event == Refused then s.requested else false, s.signal, s.next, s.executions, s.history + [event]);
    LastEvent(s.history, event);
    forall id | id in t.executions
      ensures id <= t.next && ExecutionOk(t, id, t.executions[id])
    {
      OtherEvent(s.history, event, id);
    }
  }

  /** A new channel is opened for an execution that no event was about. */
  lemma {:induction false} NewOneOk(s: State, t: State)
    requires Inv(s) && s.signal.None? && !s.requested && t == Arm(s)
    ensures ExecutionOk(t, t.next, t.executions[t.next])
  {
    var event := Armed(s.next + 1);
    LastEvent(s.history, event);
    OtherEvent(s.history, event, t.next);
    if Signalled(s.history, t.next) {
      SignalledWasArmed(s.history, t.next);
    }
  }

  lemma {:induction false} NewOneKeeps(s: State)
    requires Inv(s) && s.signal.None? && !s.requested
    ensures Inv(Arm(s))
  {
    var t, event := Arm(s), Armed(s.next + 1);
    LastEvent(s.history, event);
    NewOneOk(s, t);
    forall id | id in t.executions
      ensures id <= t.next && ExecutionOk(t, id, t.executions[id])
    {
      if id != t.next {
        OtherEvent(s.history, event, id);
        assert ExecutionOk(s, id, s.executions[id]);
      }
    }
  }

  lemma {:induction false} ArmKeeps(s: State)
    requires Inv(s)
    ensures Inv(Arm(s))
  {
    if s.signal.Some? {
      NoneArmedKeeps(s, Refused);
    } else if s.requested {
      NoneArmedKeeps(s, Skipped);
    } else {
      NewOneKeeps(s);
    }
  }

  /** A cancel is logged by the armed execution only. */
  lemma {:induction false} CancelledOk(s: State, id: nat)
    requires Inv(s) && id in s.executions
    ensures ExecutionOk(Request(s), id, Request(s).executions[id])
  {
    SignalledStep(s.history, Cancelled, id);
    assert ExecutionOk(s, id, s.executions[id]);
    assert Completed(id) in s.history + [Cancelled] <==> Completed(id) in s.history;
  }

  lemma {:induction false} RequestKeeps(s: State)
    requires Inv(s)
    ensures Inv(Request(s))
  {
    LastEvent(s.history, Cancelled);
    forall id | id in Request(s).executions
      ensures ExecutionOk(Request(s), id, Request(s).executions[id])
    {
      CancelledOk(s, id);
    }
  }

  /** A step of one forwarder is in order when it is in order for its own execution. */
  lemma {:induction false} WithKeeps(s: State, id: nat, e: Execution)
    requires Inv(s) && id in s.executions && ExecutionOk(s, id, e)
    ensures Inv(With(s, id, e))
  {
    var t := With(s, id, e);
    forall other | other in t.executions
      ensures other <= t.next && ExecutionOk(t, other, t.executions[other])
    {
      assert ExecutionOk(s, other, t.executions[other]);
    }
  }

  lemma {:induction false} StartKeeps(s: State, id: nat)
    requires Inv(s)
    ensures Inv(Step(s, StartForwarder(id)))
  {
    if id in s.executions && s.executions[id].phase.Waiting? {
      var e := s.executions[id];
      assert ExecutionOk(s, id, e);
      WithKeeps(s, id, Execution(Forwarding, e.log, e.completed, e.notified));
    }
  }

  lemma {:induction false} ReceiveKeeps(s: State, id: nat)
    requires Inv(s)
    ensures Inv(Step(s, Receive(id)))
  {
    if id in s.executions && s.executions[id].phase.Forwarding? && s.executions[id].log != [] {
      var e := s.executions[id];
      assert ExecutionOk(s, id, e);
      WithKeeps(s, id, Execution(Ended, e.log, e.completed, e.log[0] == Cancel));
    }
  }

  lemma {:induction false} DropOk(s: State, id: nat, other: nat)
    requires Inv(s) && Step(s, DropForwarder(id)) != s && other in s.executions
    ensures ExecutionOk(Step(s, DropForwarder(id)), other, Step(s, DropForwarder(id)).executions[other])
  {
    assert ExecutionOk(s, other, s.executions[other]);
    LastEvent(s.history, Completed(id));
    SignalledStep(s.history, Completed(id), other);
    if other != id {
      OtherEvent(s.history, Completed(id), other);
    }
  }

  lemma {:induction false} DropKeeps(s: State, id: nat)
    requires Inv(s)
    ensures Inv(Step(s, DropForwarder(id)))
  {
    var t := Step(s, DropForwarder(id));
    if t != s {
      LastEvent(s.history, Completed(id));
      forall other | other in t.executions
        ensures other <= t.next && ExecutionOk(t, other, t.executions[other])
      {
        DropOk(s, id, other);
      }
    }
  }

  lemma {:induction false} DisarmOk(s: State, id: nat, other: nat)
    requires Inv(s) && Step(s, Disarm(id)) != s && other in s.executions
    ensures ExecutionOk(Step(s, Disarm(id)), other, Step(s, Disarm(id)).executions[other])
  {
    LastEvent(s.history, Disarmed(id));
    OtherEvent(s.history, Disarmed(id), other);
    assert ExecutionOk(s, other, s.executions[other]);
  }

  lemma {:induction false} DisarmKeeps(s: State, id: nat)
    requires Inv(s)
    ensures Inv(Step(s, Disarm(id)))
  {
    var t := Step(s, Disarm(id));
    if t != s {
      LastEvent(s.history, Disarmed(id));
      forall other | other in t.executions
        ensures other <= t.next && ExecutionOk(t, other, t.executions[other])
      {
        DisarmOk(s, id, other);
      }
    }
  }

  lemma {:induction false} RunKeeps(s: State, actions: seq<Action>)
    requires Inv(s)
    ensures Inv(Run(s, actions))
    decreases |actions|
  {
    if actions != [] {
      match actions[0] {
        case Execute => ArmKeeps(s);
        case RequestCancel => RequestKeeps(s);
        case StartForwarder(id) => StartKeeps(s, id);
        case Receive(id) => ReceiveKeeps(s, id);
        case DropForwarder(id) => DropKeeps(s, id);
        case Disarm(id) => DisarmKeeps(s, id);
      }
      RunKeeps(Step(s, actions[0]), actions[1..]);
    }
  }

  // ---------------------------------------------------------------- what every run gives

  /** Whether an execution is refused, skipped or armed follows from the history of events alone. */
  lemma {:induction false} OutcomeFollowsHistory(actions: seq<Action>)
    ensures var s := Run(Start(), actions);
            Arm(s).history == s.history + [Outcome(s.history, s.next + 1)]
  {
    RunKeeps(Start(), actions);
  }

  /** At most one execution is armed, and one that is refused changes nothing else. */
  lemma {:induction false} OneExecutionIsArmed(actions: seq<Action>, a: nat, b: nat)
    ensures var s := Run(Start(), actions);
            a in s.executions && b in s.executions && !s.executions[a].phase.Over? && !s.executions[b].phase.Over?
            ==> a == b && Arm(s).executions == s.executions && Arm(s).signal == s.signal && Arm(s).requested == s.requested
  {
    RunKeeps(Start(), actions);
  }

  /** A forwarder that has ended notified the agent exactly when a cancel came before it was told to complete. */
  lemma {:induction false} NotifiesIffSignalled(actions: seq<Action>, id: nat)
    ensures var s := Run(Start(), actions);
            id in s.executions && (s.executions[id].phase.Ended? || s.executions[id].phase == Over(true)) ==>
              (s.executions[id].notified <==> Signalled(s.history, id))
  {
    RunKeeps(Start(), actions);
  }

  /** A forwarder told to complete has something to receive, and ends when it does: joining it does not hang. */
  lemma {:induction false} ForwarderEnds(actions: seq<Action>, id: nat)
    ensures var s := Run(Start(), actions);
            id in s.executions && s.executions[id].phase.Forwarding? && (s.executions[id].completed || Signalled(s.history, id))
            ==> Step(s, Receive(id)).executions[id].phase.Ended?
  {
    RunKeeps(Start(), actions);
  }

  lemma {:induction false} FreshlyArmed(s: State)
    requires Inv(s) && s.signal == None && !s.requested
    ensures var t := Arm(s);
            && t.signal == Some(t.next) && t.executions[t.next] == Execution(Waiting, [], false, false)
            && !Signalled(t.history, t.next)
  {
    ArmKeeps(s);
    var t := Arm(s);
    assert ExecutionOk(t, t.next, t.executions[t.next]);
  }

  /** Cancels that came in before an execution is disarmed do not reach a later one. */
  lemma {:induction false} DisarmForgets(actions: seq<Action>, id: nat)
    requires Step(Run(Start(), actions), Disarm(id)) != Run(Start(), actions)
    ensures var t := Arm(Step(Run(Start(), actions), Disarm(id)));
            && t.signal == Some(t.next) && t.executions[t.next] == Execution(Waiting, [], false, false)
            && !Signalled(t.history, t.next)
  {
    RunKeeps(Start(), actions);
    DisarmKeeps(Run(Start(), actions), id);
    FreshlyArmed(Step(Run(Start(), actions), Disarm(id)));
  }

  /** A cancel while idle skips the next execution and only that one. */
  lemma {:induction false} IdleCancelSkipsOne(actions: seq<Action>)
    requires Run(Start(), actions).signal == None
    ensures var s := Run(Start(), actions);
            var t := Arm(Request(s));
            && t.history == s.history + [Cancelled, Skipped] && t.executions == s.executions && t.signal == None
            && Arm(t).history == t.history + [Armed(t.next + 1)]
  {
    RunKeeps(Start(), actions);
  }

  // ---------------------------------------------------------------- the shared state, updated in place

  /** A channel of which the sending end is kept. */
  class Channel {
    var log: seq<Signal>

    constructor ()
      ensures log == []
    {
      log := [];
    }

    method SendSignal(signal: Signal)
      modifies this
      ensures log == old(log) + [signal]
    {
      log := log + [signal];
    }
  }

  class CancellationState {
    var requested: bool
    var signal: Channel?

    constructor ()
      ensures !requested && signal == null
    {
      requested, signal := false, null;
    }

    /** The fields are those of a state of the model. */
    ghost predicate Matches(s: State)
      reads this, signal
    {
      && requested == s.requested && (signal == null <==> s.signal == None)
      && (s.signal.Some? ==> s.signal.value in s.executions && signal.log == s.executions[s.signal.value].log)
    }

    method ArmCancellation(ghost s: State) returns (busy: bool, channel: Channel?)
      requires Matches(s)
      modifies this
      ensures Matches(Arm(s))
      ensures busy <==> s.signal.Some?
      ensures channel != null <==> !busy && !s.requested
      ensures channel != null ==> fresh(channel) && signal == channel
    {
      if signal != null {
        return true, null;
      }
      if requested {
        requested := false;
        return false, null;
      }
      channel := new Channel();
      signal := channel;
      return false, channel;
    }

    method DisarmCancellation(ghost s: State, ghost id: nat)
      requires Matches(s) && Step(s, Disarm(id)) != s
      modifies this
      ensures Matches(Step(s, Disarm(id)))
    {
      signal := null;
      requested := false;
    }

    method RequestCancellation(ghost s: State)
      requires Matches(s)
      modifies this, signal
      ensures Matches(Request(s))
    {
      requested := true;
      if signal != null {
        signal.SendSignal(Cancel);
      }
    }
  }
}
