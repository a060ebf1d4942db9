/** What each callback is replied, and by which step of a run. */
module RepliesTold {
  import opened Wrappers
  import opened DeferredReplies

  predicate WaitsUnder(s: State, id: nat, callback: nat) {
    id in s.pending && s.pending[id] == callback
  }

  /** The callback's value converts, or its interaction is answered in its own kind or cancelled. */
  predicate TellsOutput(s: State, action: Action, callback: nat) {
    match action
    case Dispatch(handling) => callback == s.arrived && handling == Convert(true)
    case DispatchFacade(arrival) => callback == s.arrived && arrival == Arrival(true, true, ForLocal(Convert(true)))
    case Resolve(id, converts) => WaitsUnder(s, id, callback) && converts
    case Interact(c, operation) =>
      c == callback && c in s.held && (operation.CancelInteraction? || (operation.Respond? && operation.kind == s.held[c]))
    case LetGo(c) => c == callback && c in s.held
    case _ => false
  }

  /** It is turned down, its value does not convert, it is rejected or failed, or the table is rejected while it waits. */
  ghost predicate TellsFailure(s: State, action: Action, callback: nat) {
    match action
    case Dispatch(handling) => callback == s.arrived && (handling == TurnDown || handling == Convert(false))
    case DispatchFacade(arrival) => callback == s.arrived && arrival.decodes && IsTurnedDown(arrival)
    case Resolve(id, converts) => WaitsUnder(s, id, callback) && !converts
    case Reject(id) => WaitsUnder(s, id, callback)
    case StartFailed(id) => WaitsUnder(s, id, callback)
    case Interact(c, operation) => c == callback && c in s.held && operation.Fail?
    case LetGo(_) => false
    case Close => IsPending(s, callback)
  }

  predicate IsTurnedDown(arrival: Arrival) {
    || !arrival.own
    || match arrival.target
       case ForPermission(decodes, installed, _) => decodes && !installed
       case ForElicitation(decodes, form, installed, _) => decodes && (!form || !installed)
       case ForLocal(handling) => handling == TurnDown || handling == Convert(false)
  }

  /** The step replies to the callback. */
  ghost predicate Tells(s: State, action: Action, callback: nat, reply: Reply) {
    match reply
    case Output => TellsOutput(s, action, callback)
    case Failure => TellsFailure(s, action, callback)
    case Disconnected => callback == s.arrived && Drops(s, action)
  }

  lemma {:induction false} FailuresAre(pending: map<nat, nat>, n: nat, g: Given)
    ensures g in Failures(pending, n) <==>
            g.reply == Failure && exists id :: 0 < id <= n && id in pending && pending[id] == g.callback
    decreases n
  {
    if n > 0 {
      FailuresAre(pending, n - 1, g);
      if n in pending && g == Given(pending[n], Failure) {
        assert pending[n] == g.callback;
      }
    }
  }

  lemma {:induction false} CloseTells(s: State, callback: nat, reply: Reply)
    requires PendingOk(s)
    ensures Given(callback, reply) in Closed(s).given <==>
            Given(callback, reply) in s.given || (reply == Failure && IsPending(s, callback))
  {
    FailuresAre(s.pending, s.next, Given(callback, reply));
    if IsPending(s, callback) {
      var id :| id in s.pending && s.pending[id] == callback;
      assert 0 < id <= s.next && id in s.pending && s.pending[id] == callback;
    }
  }

  lemma {:induction false} FacadeTells(s: State, arrival: Arrival, callback: nat, reply: Reply)
    ensures Given(callback, reply) in FacadeDispatched(s, arrival).given <==>
            Given(callback, reply) in s.given || Tells(s, DispatchFacade(arrival), callback, reply)
  {
    match arrival.target
    case ForPermission(_, _, _) =>
    case ForElicitation(_, _, _, _) =>
    case ForLocal(handling) =>
  }

  lemma {:induction false} HandlingTells(s: State, handling: Handling, callback: nat, reply: Reply)
    ensures Given(callback, reply) in Dispatched(s, handling).given <==>
            Given(callback, reply) in s.given || Tells(s, Dispatch(handling), callback, reply)
  {
  }

  lemma {:induction false} SettlingTells(s: State, id: nat, told: Reply, callback: nat, reply: Reply)
    ensures Given(callback, reply) in Settled(s, id, told).given <==>
            Given(callback, reply) in s.given || (WaitsUnder(s, id, callback) && reply == told)
  {
  }

  lemma {:induction false} HandleTells(s: State, c: nat, answer: Option<Answer>, callback: nat, reply: Reply)
    ensures Given(callback, reply) in HandleAnswers(s, c, answer).given <==>
            || Given(callback, reply) in s.given
            || (c == callback && c in s.held && answer.Some? && reply == if answer.value.FailedResponse? then Failure else Output)
  {
  }

  lemma {:induction false} StepTells(s: State, action: Action, callback: nat, reply: Reply)
    requires PendingOk(s)
    ensures Given(callback, reply) in Step(s, action).given <==>
            Given(callback, reply) in s.given || Tells(s, action, callback, reply)
  {
    match action
    case Dispatch(handling) => HandlingTells(s, handling, callback, reply);
    case DispatchFacade(arrival) => FacadeTells(s, arrival, callback, reply);
    case Resolve(id, converts) => SettlingTells(s, id, if converts then Output else Failure, callback, reply);
    case Reject(id) => SettlingTells(s, id, Failure, callback, reply);
    case StartFailed(id) => SettlingTells(s, id, Failure, callback, reply);
    case Interact(c, operation) =>
      HandleTells(s, c, if c in s.held then AnswerOf(s.held[c], operation) else None, callback, reply);
    case LetGo(c) => HandleTells(s, c, Some(CancelledResponse), callback, reply);
    case Close => CloseTells(s, callback, reply);
  }

  lemma {:induction false} RunLast(s: State, actions: seq<Action>)
    requires actions != []
    ensures Run(s, actions) == Step(Run(s, actions[..|actions| - 1]), actions[|actions| - 1])
    decreases |actions|
  {
    if |actions| > 1 {
      assert actions[1..][..|actions| - 2] == actions[..|actions| - 1][1..];
      RunLast(Step(s, actions[0]), actions[1..]);
    }
  }

  /** Step i of a run replies to the callback. */
  ghost predicate TellsAt(actions: seq<Action>, i: nat, callback: nat, reply: Reply) {
    i < |actions| && Tells(Run(Start(), actions[..i]), actions[i], callback, reply)
  }

  lemma {:induction false} LastTells(actions: seq<Action>, callback: nat, reply: Reply)
    requires actions != []
    ensures Given(callback, reply) in Run(Start(), actions).given <==>
            || Given(callback, reply) in Run(Start(), actions[..|actions| - 1]).given
            || TellsAt(actions, |actions| - 1, callback, reply)
  {
    var before := actions[..|actions| - 1];
    RunLast(Start(), actions);
    PendingIsOk(before);
    StepTells(Run(Start(), before), actions[|actions| - 1], callback, reply);
  }

  lemma {:induction false} PendingIsOk(actions: seq<Action>)
    ensures PendingOk(Run(Start(), actions))
  {
    RunKeeps(Start(), actions);
  }

  /** In every run a callback has a reply exactly if some step told it so. */
  lemma {:induction false} ToldIff(actions: seq<Action>, callback: nat, reply: Reply)
    ensures Given(callback, reply) in Run(Start(), actions).given <==> exists i: nat :: TellsAt(actions, i, callback, reply)
    decreases |actions|
  {
    if actions != [] {
      var n := |actions| - 1;
      var before := actions[..n];
      ToldIff(before, callback, reply);
      LastTells(actions, callback, reply);
      forall i: nat | i < n
        ensures TellsAt(before, i, callback, reply) <==> TellsAt(actions, i, callback, reply)
      {
        SameStep(actions, i, callback, reply);
      }
    }
  }

  lemma {:induction false} SameStep(actions: seq<Action>, i: nat, callback: nat, reply: Reply)
    requires i < |actions| - 1
    ensures TellsAt(actions[..|actions| - 1], i, callback, reply) <==> TellsAt(actions, i, callback, reply)
  {
    assert actions[..|actions| - 1][..i] == actions[..i];
  }
}
