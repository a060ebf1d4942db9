/** What the requests of the client's registrations come to, and the whole life of one registration. */
module ToolAnswers {
  import opened Wrappers
  import opened Schema
  import opened AdmissionsSpec
  import opened ToolEnds
  import Answers = AdmissionsAnswers

  // ---------------------------------------------------------------- the server's answers

  /** Exactly this tool is admitted more, under this new id, and the client is told the id. */
  predicate AddedAs(s: State, t: State, n: nat, session: string, tool: Tool, id: AdmissionId) {
    && id !in s.tools.byId && t.tools.byId == s.tools.byId[id := Admission(session, tool)]
    && t.registry.retired == s.registry.retired
    && t.registry.entries == s.registry.entries[Key(tool.invoke.generation, tool.invoke.id) :=
                               Callable(tool.invoke.contract, tool.input, tool.output)]
    && t.replies == s.replies + {Added(n, id)}
  }

  lemma {:induction false} AdmissibleIff(s: State, session: string, tool: Tool)
    requires Consistent(s.tools)
    ensures Admissible(s, session, tool) <==> Answers.CanAdmit(ServerOf(s), session, tool)
  {
    Answers.PlaceFreeIff(s.tools, session, tool.callable);
  }

  lemma {:induction false} AdmittedAs(s: State, taken: State, n: nat, session: string, tool: Tool)
    requires Consistent(s.tools) && Admissible(s, session, tool)
    requires taken.tools == s.tools && taken.registry == s.registry && taken.replies == s.replies
    ensures AddedAs(s, Reported(Admitting(taken, session, tool), Added(n, NextId(s.tools, tool))), n, session, tool,
                    NextId(s.tools, tool))
  {
    NextIdIsNew(s.tools, tool);
    var registered := AdmissionsSpec.Register(s.registry, tool.invoke, CallableSchema(tool));
    if registered.Err? {
      assert s.registry.entries[KeyOf(tool.invoke)] == CallableSchema(tool);
    }
  }

  lemma {:induction false} ConsistentRun(me: Generation, actions: seq<Action>)
    ensures Consistent(Run(me, Start(), actions).tools)
  {
    StartOk(me);
    RunKeeps(me, Start(), actions);
  }

  /**
   * In every run: a registration's request is answered with an admission if and only if the server does not refuse it
   * for reasons of its own and the generation is live, the place free and the handler free or fitting; otherwise it is
   * answered as refused and nothing changes on the server.
   */
  lemma {:induction false} AddIsServed(
    me: Generation, actions: seq<Action>, n: nat, session: string, tool: Tool, refused: bool)
    requires Add(n, session, tool) in Run(me, Start(), actions).requests
    ensures var s := Run(me, Start(), actions);
            var t := Step(me, s, Serve(Add(n, session, tool), refused));
            && t.requests == s.requests - {Add(n, session, tool)} && t.phases == s.phases && t.entries == s.entries
            && if !refused && Answers.CanAdmit(ServerOf(s), session, tool)
               then AddedAs(s, t, n, session, tool, NextId(s.tools, tool))
               else t.tools == s.tools && t.registry == s.registry && t.replies == s.replies + {AddRefused(n)}
  {
    var s := Run(me, Start(), actions);
    ConsistentRun(me, actions);
    AdmissibleIff(s, session, tool);
    if !refused && Admissible(s, session, tool) {
      AdmittedAs(s, s.(requests := s.requests - {Add(n, session, tool)}), n, session, tool);
    }
  }

  lemma {:induction false} RemovedAs(s: State, taken: State, id: AdmissionId)
    requires id in s.tools.byId && taken.tools == s.tools && taken.registry == s.registry
    ensures Answers.RemovesExactly(ServerOf(s), ServerOf(Removing(taken, id)), id)
  {
    var invoke := s.tools.byId[id].tool.invoke;
    var tools := Remove(s.tools, id);
    assert ContainsInvoke(tools, invoke) <==> Answers.StillUsed(ServerOf(s), id) by {
      if ContainsInvoke(tools, invoke) {
        var other :| other in tools.byId && tools.byId[other].tool.invoke == invoke;
        assert other in s.tools.byId && other != id;
      }
      if Answers.StillUsed(ServerOf(s), id) {
        var other :| other in s.tools.byId && other != id && s.tools.byId[other].tool.invoke == invoke;
        assert other in tools.byId && tools.byId[other].tool.invoke == invoke;
      }
    }
  }

  /** And a removal is acknowledged if and only if the session has the admission, which then is gone. */
  lemma {:induction false} StopIsServed(
    me: Generation, actions: seq<Action>, n: nat, session: string, id: AdmissionId, refused: bool)
    requires Stop(n, session, id) in Run(me, Start(), actions).requests
    ensures var s := Run(me, Start(), actions);
            var t := Step(me, s, Serve(Stop(n, session, id), refused));
            && t.requests == s.requests - {Stop(n, session, id)} && t.phases == s.phases && t.entries == s.entries
            && if id in s.tools.byId && s.tools.byId[id].session == session
               then Answers.RemovesExactly(ServerOf(s), ServerOf(t), id) && t.replies == s.replies + {Removed(n)}
               else t.tools == s.tools && t.registry == s.registry && t.replies == s.replies + {RemoveRefused(n)}
  {
    var s := Run(me, Start(), actions);
    if Removable(s, session, id) {
      RemovedAs(s, s.(requests := s.requests - {Stop(n, session, id)}), id);
    }
  }

  // ---------------------------------------------------------------- the client's functions

  /** A registration that was rejected or stopped has no function; any other has its own. */
  ghost predicate HoldsAll(s: State) {
    && (forall n :: n in s.phases ==> n <= s.next)
    && forall n: nat :: n in s.entries <==> n in s.phases && !s.phases[n].Rejected? && !s.phases[n].Stopped?
  }

  lemma {:induction false} StepHolds(me: Generation, s: State, action: Action)
    requires HoldsAll(s)
    ensures HoldsAll(Step(me, s, action))
  {
  }

  lemma {:induction false} RunHolds(me: Generation, s: State, actions: seq<Action>)
    requires HoldsAll(s)
    ensures HoldsAll(Run(me, s, actions))
    decreases |actions|
  {
    if actions != [] {
      StepHolds(me, s, actions[0]);
      RunHolds(me, Step(me, s, actions[0]), actions[1..]);
    }
  }

  /** In every run the client holds the functions of exactly the registrations that were not rejected or stopped. */
  lemma {:induction false} HeldIff(me: Generation, actions: seq<Action>, n: nat)
    ensures var s := Run(me, Start(), actions);
            n in s.entries <==> n in s.phases && !s.phases[n].Rejected? && !s.phases[n].Stopped?
  {
    RunHolds(me, Start(), actions);
  }

  /**
   * In every run: a function is dropped exactly when the client sees that its registration was refused or its removal
   * acknowledged, or finds the connection failed while the registration is not answered.
   */
  lemma {:induction false} DroppedIff(me: Generation, actions: seq<Action>, action: Action, n: nat)
    requires n in Run(me, Start(), actions).entries
    ensures var s := Run(me, Start(), actions);
            && n in s.phases
            && (n !in Step(me, s, action).entries <==>
                || (s.phases[n].Waiting? && action == PollRegistration(n, AddRefused(n)) && AddRefused(n) in s.replies)
                || (s.phases[n].Stopping? && action == PollStop(n, Removed(n)) && Removed(n) in s.replies)
                || (s.phases[n].Waiting? && action == PollFailed(n) && !s.live))
  {
    RunHolds(me, Start(), actions);
  }

  // ---------------------------------------------------------------- the whole life of a registration

  /** The state after a registration was admitted and the client has seen it. */
  predicate Registered(me: Generation, s: State, t: State, session: string, tool: Tool, id: AdmissionId) {
    var n := s.next + 1;
    && t.live == s.live && t.next == n && t.entries == s.entries + {n} && t.phases == s.phases[n := Holding(session, id)]
    && id !in s.tools.byId && t.tools.byId == s.tools.byId[id := Admission(session, tool)]
    && t.registry == Registry(s.registry.entries[KeyOf(Handler(me, n)) := CallableSchema(tool)], s.registry.retired)
  }

  /** No handler of a function not yet lifted is registered. */
  lemma {:induction false} NextHandlerIsFree(me: Generation, s: State)
    requires Inv(me, s) && RoutesOk(me, s)
    ensures KeyOf(Handler(me, s.next + 1)) !in s.registry.entries && s.next + 1 !in s.phases
  {
    var n := s.next + 1;
    assert FunctionOk(me, s, n) && n !in s.phases;
    if KeyOf(Handler(me, n)) in s.registry.entries {
      var id :| id in s.tools.byId && KeyOf(s.tools.byId[id].tool.invoke) == KeyOf(Handler(me, n));
      assert GenerationOf(s.tools.byId[id]) == me;
      assert ServedHere(s.registry, s.tools.byId[id].tool);
      assert Serves(me, s.tools, id, n);
    }
  }

  /** Asked, served and seen. */
  function RegisterRun(n: nat, session: string, tool: Tool, id: AdmissionId): seq<Action> {
    [Register(session, tool.callable, tool.input, tool.output, true), Serve(Add(n, session, tool), false),
     PollRegistration(n, Added(n, id))]
  }

  lemma {:induction false} RunThree(me: Generation, s: State, a: Action, b: Action, c: Action)
    ensures Run(me, s, [a, b, c]) == Step(me, Step(me, Step(me, s, a), b), c)
  {
    assert [a, b, c][1..] == [b, c] && [b, c][1..] == [c] && [c][1..] == [];
    var s2 := Step(me, Step(me, s, a), b);
    assert Run(me, s2, [c]) == Step(me, s2, c);
    assert Run(me, Step(me, s, a), [b, c]) == Run(me, s2, [c]);
  }

  /** From every reachable state: a registration in a free place is admitted, if its generation lives. */
  lemma {:induction false} RegistrationSucceeds(me: Generation, actions: seq<Action>, session: string, tool: Tool)
    requires tool.invoke == Handler(me, Run(me, Start(), actions).next + 1)
    requires me !in Run(me, Start(), actions).registry.retired
    requires Answers.PlaceFree(Run(me, Start(), actions).tools, session, tool.callable)
    ensures var s := Run(me, Start(), actions);
            var id := NextId(s.tools, tool);
            Registered(me, s, Run(me, s, RegisterRun(s.next + 1, session, tool, id)), session, tool, id)
  {
    var s := Run(me, Start(), actions);
    var (n, id) := (s.next + 1, NextId(s.tools, tool));
    StartOk(me);
    RunKeeps(me, Start(), actions);
    RunRoutes(me, Start(), actions);
    NextHandlerIsFree(me, s);
    AdmissibleIff(s, session, tool);
    NextIdIsNew(s.tools, tool);
    RegisterSteps(me, s, session, tool);
  }

  lemma {:induction false} RegisterSteps(me: Generation, s: State, session: string, tool: Tool)
    requires tool.invoke == Handler(me, s.next + 1) && s.next + 1 !in s.phases && Admissible(s, session, tool)
    requires KeyOf(tool.invoke) !in s.registry.entries && NextId(s.tools, tool) !in s.tools.byId
    ensures var id := NextId(s.tools, tool);
            Registered(me, s, Run(me, s, RegisterRun(s.next + 1, session, tool, id)), session, tool, id)
  {
    var (n, id) := (s.next + 1, NextId(s.tools, tool));
    var a, b := Register(session, tool.callable, tool.input, tool.output, true), Serve(Add(n, session, tool), false);
    var s1 := Step(me, s, a);
    var s2 := Step(me, s1, b);
    assert Add(n, session, tool) in s1.requests && Admissible(s1, session, tool);
    assert Added(n, id) in s2.replies && s2.phases[n] == Waiting(session);
    assert Step(me, s2, PollRegistration(n, Added(n, id))) == WithPhase(s2, n, Holding(session, id), false);
    RunThree(me, s, a, b, PollRegistration(n, Added(n, id)));
  }

  /** Stopped, served and seen. */
  function StopRun(n: nat, session: string, id: AdmissionId): seq<Action> {
    [CallStop(n), Serve(Stop(n, session, id), false), PollStop(n, Removed(n))]
  }

  /**
   * And the stop function undoes it: from every reachable state in which a registration holds an admission that the
   * server still has for it, stopping takes exactly that admission and its handler, and the client drops the function.
   */
  lemma {:induction false} StopUndoes(me: Generation, actions: seq<Action>, n: nat, session: string, id: AdmissionId)
    requires var s := Run(me, Start(), actions); n in s.phases && s.phases[n] == Holding(session, id)
    requires var s := Run(me, Start(), actions); Serves(me, s.tools, id, n) && s.tools.byId[id].session == session
    ensures var s := Run(me, Start(), actions);
            var t := Run(me, s, StopRun(n, session, id));
            && t.tools.byId == s.tools.byId - {id} && t.entries == s.entries - {n} && t.phases == s.phases[n := Stopped]
            && t.registry == Registry(s.registry.entries - {KeyOf(Handler(me, n))}, s.registry.retired)
  {
    var s := Run(me, Start(), actions);
    StartOk(me);
    RunKeeps(me, Start(), actions);
    RunRoutes(me, Start(), actions);
    OnlyUser(me, s, n, session, id);
    StopSteps(me, s, n, session, id);
  }

  lemma {:induction false} StopSteps(me: Generation, s: State, n: nat, session: string, id: AdmissionId)
    requires n in s.phases && s.phases[n] == Holding(session, id)
    requires Serves(me, s.tools, id, n) && s.tools.byId[id].session == session
    requires !ContainsInvoke(Remove(s.tools, id), Handler(me, n)) && me !in s.registry.retired
    ensures var t := Run(me, s, StopRun(n, session, id));
            && t.tools.byId == s.tools.byId - {id} && t.entries == s.entries - {n} && t.phases == s.phases[n := Stopped]
            && t.registry == Registry(s.registry.entries - {KeyOf(Handler(me, n))}, s.registry.retired)
  {
    var s1 := Step(me, s, CallStop(n));
    var s2 := Step(me, s1, Serve(Stop(n, session, id), false));
    assert s1 == StepCallStop(s, n) && Stop(n, session, id) in s1.requests && Removable(s1, session, id);
    assert s2.registry == Unregister(s.registry, Handler(me, n)) && Removed(n) in s2.replies;
    assert Step(me, s2, PollStop(n, Removed(n))) == WithPhase(s2, n, Stopped, true);
    RunThree(me, s, CallStop(n), Serve(Stop(n, session, id), false), PollStop(n, Removed(n)));
  }

  /** The admission that a registration holds is the only one that uses its function, and its handler is registered. */
  lemma {:induction false} OnlyUser(me: Generation, s: State, n: nat, session: string, id: AdmissionId)
    requires Inv(me, s) && RoutesOk(me, s) && n in s.phases && s.phases[n] == Holding(session, id)
    requires Serves(me, s.tools, id, n)
    ensures !ContainsInvoke(Remove(s.tools, id), Handler(me, n)) && me !in s.registry.retired
  {
    assert FunctionOk(me, s, n) && OnlyAt(me, s.tools, n, id);
    assert GenerationOf(s.tools.byId[id]) == me && ServedHere(s.registry, s.tools.byId[id].tool);
    if ContainsInvoke(Remove(s.tools, id), Handler(me, n)) {
      var other :| other in Remove(s.tools, id).byId && Remove(s.tools, id).byId[other].tool.invoke == Handler(me, n);
      assert Serves(me, s.tools, other, n);
    }
  }
}
