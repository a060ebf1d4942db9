/** The facade's session cache as the object the Lua binding updates in place. */
module Facade {
  import opened Wrappers
  import opened FacadeSpec
  import opened Text

  class FacadeState {
    var phase: Phase
    var error: Option<Failure>
    var events: seq<Event>
    var sessions: map<string, Projection>
    var sessionInfo: map<string, Info>
    var repairs: map<string, nat>
    var backlog: map<string, seq<Update>>
    var latestExecution: map<string, string>
    var submitted: nat
    /** Events already handed out, and accepted repair requests not yet consumed. */
    ghost var drained: seq<Event>
    ghost var open: set<nat>
    /** Whether the worker takes the n-th repair submission. */
    const accepts: nat -> bool

    ghost function View(): State
      reads this
    {
      State(phase, error, events, sessions, sessionInfo, repairs, backlog, latestExecution, drained, submitted, open)
    }

    constructor (accepts: nat -> bool)
      ensures View() == InitialState && this.accepts == accepts
    {
      this.accepts := accepts;
      phase, error, events := Connecting, None, [Status];
      sessions, sessionInfo, repairs, backlog, latestExecution := map[], map[], map[], map[], map[];
      drained, submitted, open := [], 0, {};
    }

    method FailCore(failure: Failure)
      modifies this
      ensures View() == Fail(old(View()), failure)
      ensures drained == old(drained)
    {
      phase, error := Failed, Some(failure);
      events := events + [Status];
    }

    method ScheduleRepair(key: string)
      modifies this
      ensures View() == Schedule(old(View()), key, accepts)
      ensures drained == old(drained)
    {
      if key in repairs {
        return;
      }
      if !ValidSessionId(key) {
        FailCore(InvalidSessionId);
        return;
      }
      var request := submitted;
      submitted := submitted + 1;
      if accepts(request) {
        repairs := repairs[key := request];
        open := open + {request};
      } else {
        FailCore(RepairNotScheduled);
      }
    }

    method ApplyValidUpdate(key: string, update: Update)
      requires key in sessions
      modifies this
      ensures View() == Append(old(View()), key, update)
    {
      if update.change.Execution? {
        latestExecution := latestExecution[key := update.change.executionId];
      }
      var current := sessions[key];
      if update.change.Renamed? {
        current := current.(info := current.info.(title := Some(update.change.title)));
      }
      current := current.(through := update.sequence, updates := current.updates + [update]);
      sessions := sessions[key := current];
      sessionInfo := sessionInfo[key := current.info];
      events := events + [Live(update)];
      events := events + [Status];
      assert events == old(events) + [Live(update), Status];
    }

    method StashUpdate(key: string, update: Update)
      modifies this
      ensures View() == Stash(old(View()), key, update)
    {
      var pending := if key in backlog then backlog[key] else [];
      backlog := backlog[key := pending + [update]];
    }

    method IngestSessionUpdate(update: Update)
      modifies this
      ensures View() == Ingest(old(View()), update, accepts)
      ensures drained == old(drained)
    {
      var key := update.session;
      if key !in sessions {
        StashUpdate(key, update);
        ScheduleRepair(key);
        return;
      }
      var through := sessions[key].through;
      if update.sequence <= through {
        return;
      }
      var needsRepair := update.sequence != SaturatingSucc(through);
      if needsRepair {
        StashUpdate(key, update);
      } else {
        ApplyValidUpdate(key, update);
      }
      if needsRepair {
        ScheduleRepair(key);
      }
    }

    method ReplayBacklog(key: string)
      modifies this
      ensures View() == Replay(old(View()), key, accepts)
      ensures drained == old(drained)
    {
      var waiting := if key in backlog then backlog[key] else [];
      backlog := backlog - {key};
      waiting := SortBySequence(waiting);
      ghost var start := View();
      assert waiting[0..] == waiting;
      for i := 0 to |waiting|
        invariant drained == old(drained)
        invariant IngestAll(View(), waiting[i..], accepts) == IngestAll(start, waiting, accepts)
      {
        assert waiting[i..][1..] == waiting[i + 1..];
        IngestSessionUpdate(waiting[i]);
      }
    }

    method InstallSnapshot(snapshot: Projection, reason: Reason)
      modifies this
      ensures View() == Install(old(View()), snapshot, reason, accepts)
      ensures drained == old(drained)
    {
      var key := snapshot.info.session;
      sessionInfo := sessionInfo[key := snapshot.info];
      sessions := sessions[key := snapshot];
      events := events + [Snapshot(snapshot, reason), Status];
      ReplayBacklog(key);
    }

    method InstallCreatedSession(info: Info)
      modifies this
      ensures View() == InstallCreated(old(View()), info)
    {
      var projection := Projection(info, 0, []);
      sessionInfo := sessionInfo[info.session := info];
      sessions := sessions[info.session := projection];
      events := events + [Snapshot(projection, Create), Status];
    }

    /** The loop body of `DriveRepairs`: one request taken from the table. */
    method ConsumeRepair(key: string, request: nat, outcome: Outcome)
      modifies this
      ensures View() == DriveOne(old(View()), key, request, outcome, accepts)
      ensures drained == old(drained)
    {
      match outcome {
        case Pending =>
          repairs := repairs[key := request];
        case Answered(snapshot) =>
          open := open - {request};
          InstallSnapshot(snapshot, Repair);
        case NotApplication =>
          open := open - {request};
          FailCore(NotAnApplicationAnswer);
        case Undecodable(failure) =>
          open := open - {request};
          FailCore(failure);
        case Rejected(failure) =>
          open := open - {request};
          FailCore(failure);
      }
    }

    /** Visits the table it emptied in key order, and reports that order. */
    method DriveRepairs(polls: map<nat, Outcome>) returns (order: seq<string>)
      modifies this
      ensures InKeyOrder(order, old(repairs).Keys)
      ensures View() == Drive(old(View()), order, polls, accepts)
      ensures drained == old(drained)
    {
      var taken := repairs;
      repairs := map[];
      order := [];
      var left := taken.Keys;
      ghost var start := View();
      while left != {}
        invariant left <= taken.Keys && InKeyOrder(order, taken.Keys - left)
        invariant AllBefore(order, left)
        invariant drained == old(drained)
        invariant View() == DriveAll(start, taken, order, polls, accepts)
        decreases left
      {
        var key := TakeLeast(left);
        ConsumeRepair(key, taken[key], Poll(polls, taken[key]));
        DriveAllSnoc(start, taken, order, key, polls, accepts);
        OneMoreInOrder(order, key, taken.Keys, left);
        order := order + [key];
        left := left - {key};
      }
    }

    /** Hands out the oldest queued events, at most `budget` of them. */
    method DrainQueue(budget: nat) returns (out: seq<Event>)
      modifies this
      ensures View() == Drain(old(View()), budget)
      ensures out == old(events)[..if budget <= |old(events)| then budget else |old(events)|]
    {
      var count := if budget <= |events| then budget else |events|;
      out := events[..count];
      drained := drained + out;
      events := events[count..];
    }

    /** The session-rename branch of `decode_outcome`. */
    method RecordRename(info: Info)
      modifies this
      ensures View() == RenameCached(old(View()), info)
    {
      sessionInfo := sessionInfo[info.session := info];
      if info.session in sessions {
        sessions := sessions[info.session := sessions[info.session].(info := info)];
      }
      events := events + [Status];
    }

    /** `ingest_application_event`, past the check of the event's name. */
    method IngestApplicationEvent(arrival: Action)
      requires IsArrival(arrival)
      modifies this
      ensures View() == Step(old(View()), arrival, accepts)
    {
      match arrival
      case Arrive(update) => IngestSessionUpdate(update);
      case ArriveUndecodable(failure) => FailCore(failure);
    }

    /** The receive loop of `pump`; `arrivals[i]` is what turn i took from the event queue, if anything. */
    method ReceiveArrivals(arrivals: seq<Option<Action>>)
      requires AllArrivals(arrivals)
      modifies this
      ensures Reaches(old(View()), Received(arrivals), View(), accepts)
    {
      ghost var start := View();
      for turn := 0 to |arrivals|
        invariant Reaches(start, Received(arrivals[..turn]), View(), accepts)
      {
        ghost var before := View();
        if arrivals[turn].Some? {
          IngestApplicationEvent(arrivals[turn].value);
        }
        ReceiveOne(start, arrivals, turn, before, View(), accepts);
      }
      assert arrivals[..|arrivals|] == arrivals;
    }

    /** The check for a terminal error reported by the worker. */
    method NoteTerminal(terminal: Option<Failure>)
      modifies this
      ensures Reaches(old(View()), Noted(terminal), View(), accepts)
    {
      if terminal.Some? {
        RunSnoc(View(), [], TerminalError(terminal.value), accepts);
        if phase != Failed {
          FailCore(terminal.value);
        }
      }
    }

    /** What the first answered request of a connection leads to; `missing` says why the facade cannot be used. */
    method DriveBootstrap(bootstrap: Option<Option<Failure>>)
      modifies this
      ensures Reaches(old(View()), Booted(bootstrap), View(), accepts)
    {
      if bootstrap.Some? {
        RunSnoc(View(), [], Bootstrapped(bootstrap.value), accepts);
        if bootstrap.value.None? {
          phase := Ready;
          events := events + [Status];
        } else {
          FailCore(bootstrap.value.value);
        }
      }
    }

    /** The answers to requests that change the session cache or its status. */
    method DecodeOutcome(answer: Action)
      requires IsAnswer(answer)
      modifies this
      ensures View() == Step(old(View()), answer, accepts)
    {
      match answer {
        case Created(info) => InstallCreatedSession(info);
        case Resumed(snapshot) => InstallSnapshot(snapshot, Resume);
        case RenameAnswered(info) => RecordRename(info);
        case Listed(infos) => RecordPage(infos);
        case Prompted(session, executionId) =>
          latestExecution := latestExecution[session := executionId];
          events := events + [Status];
        case OtherAnswer => events := events + [Status];
      }
    }

    method RecordPage(infos: seq<Info>)
      modifies this`sessionInfo
      ensures sessionInfo == RecordInfos(old(sessionInfo), infos)
    {
      assert infos[0..] == infos;
      for i := 0 to |infos|
        invariant RecordInfos(sessionInfo, infos[i..]) == RecordInfos(old(sessionInfo), infos)
      {
        assert infos[i..][1..] == infos[i + 1..];
        sessionInfo := sessionInfo[infos[i].session := infos[i]];
      }
    }

    /**
     * One `pump`: look at the connection's first request, drive the repairs, note a terminal error, take arrivals (at
     * most one a turn and `budget` turns, fewer when a queue is disconnected), drive the repairs again and hand out
     * events. As a whole it is the run of those actions in this order. When handling a callback fails the pump ends
     * with the arrivals.
     */
    method Pump(budget: nat, bootstrap: Option<Option<Failure>>, first: map<nat, Outcome>, terminal: Option<Failure>,
                arrivals: seq<Option<Action>>, failed: bool, second: map<nat, Outcome>)
      returns (out: seq<Event>, order: seq<string>, order': seq<string>)
      requires |arrivals| <= ClampBudget(budget) && AllArrivals(arrivals)
      modifies this
      ensures Reaches(old(View()),
                      Taken(bootstrap, order, first, terminal, arrivals)
                      + if failed then [] else HandedOut(budget, order', second), View(), accepts)
      ensures |out| <= ClampBudget(budget) && (failed ==> out == [])
    {
      ghost var start := View();
      DriveBootstrap(bootstrap);
      ghost var s1 := View();
      order := DriveRepairs(first);
      ghost var s2 := View();
      NoteTerminal(terminal);
      ghost var s3 := View();
      ReceiveArrivals(arrivals);
      ghost var s4 := View();
      ghost var taken := Taken(bootstrap, order, first, terminal, arrivals);
      TakenChain(start, s1, s2, s3, s4, bootstrap, order, first, terminal, arrivals, accepts);
      if failed {
        assert taken + [] == taken;
        return [], order, [];
      }
      order' := DriveRepairs(second);
      ghost var s5 := View();
      out := DrainQueue(ClampBudget(budget));
      HandedOutChain(s4, s5, budget, order', second, accepts);
      ReachesTwice(start, taken, s4, HandedOut(budget, order', second), View(), accepts);
    }
  }

  method TakeLeast(keys: set<string>) returns (key: string)
    requires keys != {}
    ensures IsLeast(key, keys)
  {
    ghost var least := LeastExists(keys);
    key :| key in keys && IsLeast(key, keys);
  }

  predicate AllBefore(order: seq<string>, left: set<string>) {
    forall k, l | k in order && l in left :: Before(k, l)
  }

  /** The least key of those left comes after the keys visited and before the other keys left. */
  lemma {:induction false} OneMoreInOrder(order: seq<string>, key: string, keys: set<string>, left: set<string>)
    requires left <= keys && InKeyOrder(order, keys - left) && AllBefore(order, left) && IsLeast(key, left)
    ensures InKeyOrder(order + [key], keys - (left - {key})) && AllBefore(order + [key], left - {key})
  {
    var longer := order + [key];
    assert forall k :: k in longer <==> k in order || k == key;
    forall i, j | 0 <= i < j < |longer|
      ensures Before(longer[i], longer[j]) && longer[i] != longer[j]
    {
      if j == |order| {
        assert order[i] in order;
      }
    }
  }

  /** The actions can happen from `s` on and lead to `s'`. */
  ghost predicate Reaches(s: State, actions: seq<Action>, s': State, accepts: nat -> bool) {
    Runnable(s, actions, accepts) && Run(s, actions, accepts) == s'
  }

  predicate AllArrivals(arrivals: seq<Option<Action>>) {
    forall i :: 0 <= i < |arrivals| && arrivals[i].Some? ==> IsArrival(arrivals[i].value)
  }

  predicate IsArrival(a: Action) {
    a.Arrive? || a.ArriveUndecodable?
  }

  function Received(arrivals: seq<Option<Action>>): seq<Action> {
    if arrivals == [] then []
    else
      var last := arrivals[|arrivals| - 1];
      Received(arrivals[..|arrivals| - 1]) + if last.Some? then [last.value] else []
  }

  function Noted(terminal: Option<Failure>): seq<Action> {
    if terminal.Some? then [TerminalError(terminal.value)] else []
  }

  function Booted(bootstrap: Option<Option<Failure>>): seq<Action> {
    if bootstrap.Some? then [Bootstrapped(bootstrap.value)] else []
  }

  predicate IsAnswer(a: Action) {
    a.Created? || a.Resumed? || a.RenameAnswered? || a.Listed? || a.Prompted? || a.OtherAnswer?
  }

  /** The actions of one pump up to its arrivals. */
  function Taken(bootstrap: Option<Option<Failure>>, order: seq<string>, first: map<nat, Outcome>,
                 terminal: Option<Failure>, arrivals: seq<Option<Action>>): seq<Action>
  {
    Booted(bootstrap) + [DriveRepairs(order, first)] + Noted(terminal) + Received(arrivals)
  }

  /** The actions of one pump after its arrivals. */
  function HandedOut(budget: nat, order: seq<string>, second: map<nat, Outcome>): seq<Action> {
    [DriveRepairs(order, second)] + [DrainEvents(ClampBudget(budget))]
  }

  const MAX_PUMP_BUDGET: nat := 1024

  function ClampBudget(budget: nat): nat {
    if budget < 1 then 1 else if budget > MAX_PUMP_BUDGET then MAX_PUMP_BUDGET else budget
  }

  lemma {:induction false} RunSnoc(s: State, actions: seq<Action>, a: Action, accepts: nat -> bool)
    requires Runnable(s, actions, accepts) && Enabled(Run(s, actions, accepts), a)
    ensures Runnable(s, actions + [a], accepts)
    ensures Run(s, actions + [a], accepts) == Step(Run(s, actions, accepts), a, accepts)
    decreases |actions|
  {
    var all := actions + [a];
    if actions == [] {
      assert all == [a] && all[1..] == [];
    } else {
      assert all[1..] == actions[1..] + [a];
      RunSnoc(Step(s, actions[0], accepts), actions[1..], a, accepts);
    }
  }

  lemma {:induction false} RunConcat(s: State, first: seq<Action>, second: seq<Action>, accepts: nat -> bool)
    requires Runnable(s, first, accepts)
    ensures Runnable(s, first + second, accepts) <==> Runnable(Run(s, first, accepts), second, accepts)
    ensures Runnable(s, first + second, accepts) ==>
              Run(s, first + second, accepts) == Run(Run(s, first, accepts), second, accepts)
    decreases |first|
  {
    if first == [] {
      assert first + second == second;
    } else {
      assert (first + second)[1..] == first[1..] + second;
      RunConcat(Step(s, first[0], accepts), first[1..], second, accepts);
    }
  }

  lemma {:induction false} ReceiveOne(start: State, arrivals: seq<Option<Action>>, turn: nat, s: State, s': State,
                                      accepts: nat -> bool)
    requires turn < |arrivals| && AllArrivals(arrivals) && Reaches(start, Received(arrivals[..turn]), s, accepts)
    requires s' == if arrivals[turn].Some? then Step(s, arrivals[turn].value, accepts) else s
    ensures Reaches(start, Received(arrivals[..turn + 1]), s', accepts)
  {
    assert arrivals[..turn + 1][..turn] == arrivals[..turn];
    if arrivals[turn].Some? {
      RunSnoc(start, Received(arrivals[..turn]), arrivals[turn].value, accepts);
    } else {
      assert Received(arrivals[..turn]) + [] == Received(arrivals[..turn]);
    }
  }

  lemma {:induction false} ReachesTwice(s: State, first: seq<Action>, m: State, second: seq<Action>, s': State,
                                        accepts: nat -> bool)
    requires Reaches(s, first, m, accepts) && Reaches(m, second, s', accepts)
    ensures Reaches(s, first + second, s', accepts)
  {
    RunConcat(s, first, second, accepts);
  }

  lemma {:induction false} ReachesOne(s: State, a: Action, accepts: nat -> bool)
    requires Enabled(s, a)
    ensures Reaches(s, [a], Step(s, a, accepts), accepts)
  {
    RunSnoc(s, [], a, accepts);
    assert [] + [a] == [a];
  }

  lemma {:induction false} TakenChain(s0: State, s1: State, s2: State, s3: State, s4: State,
                                      bootstrap: Option<Option<Failure>>, order: seq<string>, first: map<nat, Outcome>,
                                      terminal: Option<Failure>, arrivals: seq<Option<Action>>, accepts: nat -> bool)
    requires Reaches(s0, Booted(bootstrap), s1, accepts)
    requires InKeyOrder(order, s1.repairs.Keys) && s2 == Drive(s1, order, first, accepts)
    requires Reaches(s2, Noted(terminal), s3, accepts) && Reaches(s3, Received(arrivals), s4, accepts)
    ensures Reaches(s0, Taken(bootstrap, order, first, terminal, arrivals), s4, accepts)
  {
    var a := DriveRepairs(order, first);
    ReachesOne(s1, a, accepts);
    ReachesTwice(s0, Booted(bootstrap), s1, [a], s2, accepts);
    var b := Booted(bootstrap) + [a];
    ReachesTwice(s0, b, s2, Noted(terminal), s3, accepts);
    ReachesTwice(s0, b + Noted(terminal), s3, Received(arrivals), s4, accepts);
  }

  lemma {:induction false} HandedOutChain(s: State, s': State, budget: nat, order: seq<string>,
                                          second: map<nat, Outcome>, accepts: nat -> bool)
    requires InKeyOrder(order, s.repairs.Keys) && s' == Drive(s, order, second, accepts)
    ensures Reaches(s, HandedOut(budget, order, second), Drain(s', ClampBudget(budget)), accepts)
  {
    var a, d := DriveRepairs(order, second), DrainEvents(ClampBudget(budget));
    ReachesOne(s, a, accepts);
    ReachesOne(s', d, accepts);
    ReachesTwice(s, [a], s', [d], Drain(s', ClampBudget(budget)), accepts);
  }

  lemma {:induction false} DriveAllSnoc(s: State, taken: map<string, nat>, order: seq<string>, key: string,
                                        polls: map<nat, Outcome>, accepts: nat -> bool)
    requires key in taken && forall k :: k in order ==> k in taken
    ensures DriveAll(s, taken, order + [key], polls, accepts)
         == DriveOne(DriveAll(s, taken, order, polls, accepts), key, taken[key], Poll(polls, taken[key]), accepts)
    decreases |order|
  {
    var all := order + [key];
    if order == [] {
      assert all[1..] == [];
    } else {
      assert all[1..] == order[1..] + [key];
      var s1 := DriveOne(s, order[0], taken[order[0]], Poll(polls, taken[order[0]]), accepts);
      DriveAllSnoc(s1, taken, order[1..], key, polls, accepts);
    }
  }
}
