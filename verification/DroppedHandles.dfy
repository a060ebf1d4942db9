/** What a dropped reply handle does to the client: the service retires its whole generation. */
module DroppedHandles {
  import opened AdmissionsSpec
  import Runs = AdmissionsRuns
  import Replies = DeferredReplies

  /** How the service takes the answer to an invocation of a client's callable. */
  datatype Verdict = Succeeded | ProviderFailed | Disconnected

  function VerdictOf(reply: Replies.Reply): Verdict {
    match reply
    case Output => Succeeded
    case Failure => ProviderFailed
    case Disconnected => Disconnected
  }

  /** The steps with which the service reacts: a retirement when the client counts as disconnected, else none. */
  function Reaction(p: nat, client: Generation, reply: Replies.Reply): seq<Runs.Action> {
    if VerdictOf(reply).Disconnected? then [Runs.Begin(p, Runs.RetireStarting(client)), Runs.Go(p), Runs.Go(p)] else []
  }

  /** The client is gone for the service: no admission, no handler, and no new registration. */
  ghost predicate Gone(s: Runs.State, client: Generation) {
    && (forall id :: id in s.tools.byId ==> GenerationOf(s.tools.byId[id]) != client)
    && (forall key :: key in s.registry.entries ==> key.generation != client)
    && (forall r: Ref, schema :: r.generation == client ==> Register(s.registry, r, schema).Err?)
  }

  lemma {:induction false} RetireRuns(s: Runs.State, p: nat, client: Generation)
    requires s.lock.None? && Runs.JobOf(s, p).Idle?
    ensures client in Runs.Run(s, Reaction(p, client, Replies.Disconnected)).finished
  {
    var actions := Reaction(p, client, Replies.Disconnected);
    var s1 := Runs.Step(s, actions[0]);
    var s2 := Runs.Step(s1, Runs.Go(p));
    var s3 := Runs.Step(s2, Runs.Go(p));
    assert actions[1..] == [Runs.Go(p), Runs.Go(p)] && actions[1..][1..] == [Runs.Go(p)] && [Runs.Go(p)][1..] == [];
    assert Runs.JobOf(s1, p) == Runs.RetireStarting(client) && Runs.JobOf(s2, p) == Runs.RetireWaiting(client);
    assert Runs.Run(s2, [Runs.Go(p)]) == s3;
    assert Runs.Run(s1, actions[1..]) == Runs.Run(s2, [Runs.Go(p)]);
  }

  /** Once the service has reacted to a dropped handle, the client's generation is gone for good. */
  lemma {:induction false} DroppedHandleIsFinal(before: seq<Runs.Action>, p: nat, client: Generation, after: seq<Runs.Action>)
    requires Runs.Run(Runs.Start(), before).lock.None? && Runs.JobOf(Runs.Run(Runs.Start(), before), p).Idle?
    ensures Gone(Runs.Run(Runs.Start(), before + Reaction(p, client, Replies.Disconnected) + after), client)
  {
    var reaction := Reaction(p, client, Replies.Disconnected);
    Runs.RunConcat(Runs.Start(), before, reaction);
    RetireRuns(Runs.Run(Runs.Start(), before), p, client);
    Runs.RetirementIsFinal(before + reaction, after, client);
  }

  /** A step of the binding makes the service retire the client exactly if it drops a reply handle. */
  lemma {:induction false} ReactsIffDropped(actions: seq<Replies.Action>, action: Replies.Action, p: nat, client: Generation)
    requires action.Dispatch? || action.DispatchFacade?
    ensures var s, t := Replies.Run(Replies.Start(), actions), Replies.Step(Replies.Run(Replies.Start(), actions), action);
            && (Replies.Drops(s, action) ==> t.given == s.given + [Replies.Given(s.arrived, Replies.Disconnected)])
            && (!Replies.Drops(s, action) ==>
                  t.given == s.given || exists reply :: t.given == s.given + [Replies.Given(s.arrived, reply)]
                                                        && Reaction(p, client, reply) == [])
  {
    var s := Replies.Run(Replies.Start(), actions);
    match action
    case Dispatch(handling) => DispatchReacts(s, handling, p, client);
    case DispatchFacade(arrival) => FacadeReacts(s, arrival, p, client);
  }

  /** The step answers the callback without a reaction, or leaves it open. */
  ghost predicate NoReaction(s: Replies.State, t: Replies.State, p: nat, client: Generation) {
    t.given == s.given || exists reply :: t.given == s.given + [Replies.Given(s.arrived, reply)] && Reaction(p, client, reply) == []
  }

  lemma {:induction false} AnswerReacts(s: Replies.State, reply: Replies.Reply, p: nat, client: Generation)
    requires reply != Replies.Disconnected
    ensures NoReaction(s, Replies.Answered(s, reply), p, client)
  {
    assert Reaction(p, client, reply) == [];
  }

  lemma {:induction false} DispatchReacts(s: Replies.State, handling: Replies.Handling, p: nat, client: Generation)
    ensures var t := Replies.Dispatched(s, handling);
            if Replies.NoPlace(s, handling) then t == Replies.Dropped(s) else NoReaction(s, t, p, client)
  {
    AnswerReacts(s, Replies.Failure, p, client);
    if handling.Convert? {
      AnswerReacts(s, Replies.ReplyOf(handling.ok), p, client);
    }
  }

  lemma {:induction false} FacadeReacts(s: Replies.State, arrival: Replies.Arrival, p: nat, client: Generation)
    ensures var t := Replies.FacadeDispatched(s, arrival);
            if Replies.GivenUp(s, arrival) then t == Replies.Dropped(s) else NoReaction(s, t, p, client)
  {
    AnswerReacts(s, Replies.Failure, p, client);
    match arrival.target
    case ForPermission(_, _, _) =>
    case ForElicitation(_, _, _, _) =>
    case ForLocal(handling) => DispatchReacts(s, handling, p, client);
  }

  /**
   * One deferred callback too many: when as many wait as the table has places, the next one is answered as
   * disconnected, and the service that gets this answer forgets the client's generation for good, with every tool of
   * it, although the connection is up.
   */
  lemma {:induction false} OneCallbackTooMany(
    n: nat, before: seq<Runs.Action>, p: nat, client: Generation, after: seq<Runs.Action>)
    requires n == Replies.CAPACITY
    requires Runs.Run(Runs.Start(), before).lock.None? && Runs.JobOf(Runs.Run(Runs.Start(), before), p).Idle?
    ensures var full := Replies.Run(Replies.Start(), Replies.Repeat(Replies.Dispatch(Replies.Defer), n));
            var t := Replies.Step(full, Replies.Dispatch(Replies.Defer));
            && t.given == [Replies.Given(n, Replies.Disconnected)]
            && Gone(Runs.Run(Runs.Start(), before + Reaction(p, client, t.given[0].reply) + after), client)
  {
    Replies.DeferringFills(Replies.Start(), n);
    DroppedHandleIsFinal(before, p, client, after);
  }
}
