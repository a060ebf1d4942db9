/** How requests that run alone end, from every reachable state, said on the tables themselves. */
module AdmissionsAnswers {
  import opened Wrappers
  import opened Schema
  import opened AdmissionsSpec
  import opened AdmissionsRuns

  /** Process p takes up the request and makes its steps while nothing else happens. */
  function RunAlone(s: State, p: nat, request: Job): State {
    Run(s, [Begin(p, request), Go(p), Go(p), Go(p), Go(p)])
  }

  lemma {:induction false} AloneSteps(s: State, p: nat, request: Job)
    ensures RunAlone(s, p, request) ==
              Step(Step(Step(Step(Step(s, Begin(p, request)), Go(p)), Go(p)), Go(p)), Go(p))
  {
    var go := Go(p);
    var s1 := Step(s, Begin(p, request));
    assert [Begin(p, request), go, go, go, go][1..] == [go, go, go, go];
    assert [go, go, go, go][1..] == [go, go, go] && [go, go, go][1..] == [go, go] && [go, go][1..] == [go] && [go][1..] == [];
    var s2 := Step(s1, go);
    var s3 := Step(s2, go);
    var s4 := Step(s3, go);
    assert Run(s4, [go]) == Step(s4, go);
    assert Run(s3, [go, go]) == Run(s4, [go]);
    assert Run(s2, [go, go, go]) == Run(s3, [go, go]);
    assert Run(s1, [go, go, go, go]) == Run(s2, [go, go, go]);
  }

  // ---------------------------------------------------------------- admitting

  /** No live admission stands at the place. */
  predicate PlaceFree(tools: Tools, session: string, callable: string) {
    forall id | id in tools.byId :: tools.byId[id].session != session || tools.byId[id].tool.callable != callable
  }

  /** The handler is not registered, or at exactly the callable schema of the tool. */
  predicate HandlerFits(registry: Registry, tool: Tool) {
    var key := Key(tool.invoke.generation, tool.invoke.id);
    key in registry.entries ==> registry.entries[key] == Callable(tool.invoke.contract, tool.input, tool.output)
  }

  /** What a caller can look up before the request: generation live, place free, handler free or fitting. */
  predicate CanAdmit(s: State, session: string, tool: Tool) {
    && tool.invoke.generation !in s.registry.retired
    && PlaceFree(s.tools, session, tool.callable)
    && HandlerFits(s.registry, tool)
  }

  /** Exactly this tool is admitted more, under an id not used before, and its handler is registered. */
  ghost predicate AdmitsExactly(s: State, t: State, session: string, tool: Tool) {
    && (exists id :: id !in s.tools.byId && id.n > s.tools.next && t.tools.byId == s.tools.byId[id := Admission(session, tool)])
    && t.registry.entries == s.registry.entries[Key(tool.invoke.generation, tool.invoke.id) :=
                               Callable(tool.invoke.contract, tool.input, tool.output)]
    && t.registry.retired == s.registry.retired
  }

  lemma {:induction false} PlaceFreeIff(tools: Tools, session: string, callable: string)
    requires Consistent(tools)
    ensures PlaceFree(tools, session, callable) <==> Place(session, callable) !in tools.byPlace
  {
    if Place(session, callable) in tools.byPlace {
      assert PlaceOf(tools.byId[tools.byPlace[Place(session, callable)]]) == Place(session, callable);
    } else {
      forall id | id in tools.byId
        ensures tools.byId[id].session != session || tools.byId[id].tool.callable != callable
      {
        assert PlaceOf(tools.byId[id]) in tools.byPlace;
      }
    }
  }

  /** The steps of an admission, from a state with the lock free. */
  lemma {:induction false} AdmissionSteps(s: State, p: nat, session: string, tool: Tool)
    requires Inv(s) && s.lock.None? && JobOf(s, p).Idle? && tool.invoke.generation.owner.Client?
    ensures var t := RunAlone(s, p, AdmitWaiting(session, tool));
            && t.lock.None? && JobOf(t, p).Idle?
            && (if CanAdmit(s, session, tool) then AdmitsExactly(s, t, session, tool)
                else t.tools == s.tools && t.registry == s.registry)
  {
    AloneSteps(s, p, AdmitWaiting(session, tool));
    PlaceFreeIff(s.tools, session, tool.callable);
    if Place(session, tool.callable) in s.tools.byPlace {
      PlaceTaken(s, p, session, tool);
    } else {
      PlaceOpen(s, p, session, tool);
    }
  }

  lemma {:induction false} PlaceTaken(s: State, p: nat, session: string, tool: Tool)
    requires Inv(s) && s.lock.None? && JobOf(s, p).Idle? && tool.invoke.generation.owner.Client?
    requires Place(session, tool.callable) in s.tools.byPlace
    ensures var s1 := Step(s, Begin(p, AdmitWaiting(session, tool)));
            var t := Step(Step(Step(Step(s1, Go(p)), Go(p)), Go(p)), Go(p));
            t.lock.None? && JobOf(t, p).Idle? && t.tools == s.tools && t.registry == s.registry
  {
    var s1 := Step(s, Begin(p, AdmitWaiting(session, tool)));
    var s2 := Step(s1, Go(p));
    assert s2 == Move(s1, p, s.registry, s.tools, Idle);
  }

  lemma {:induction false} PlaceOpen(s: State, p: nat, session: string, tool: Tool)
    requires Inv(s) && s.lock.None? && JobOf(s, p).Idle? && tool.invoke.generation.owner.Client?
    requires Place(session, tool.callable) !in s.tools.byPlace && PlaceFree(s.tools, session, tool.callable)
    ensures var s1 := Step(s, Begin(p, AdmitWaiting(session, tool)));
            var t := Step(Step(Step(Step(s1, Go(p)), Go(p)), Go(p)), Go(p));
            && t.lock.None? && JobOf(t, p).Idle?
            && (if CanAdmit(s, session, tool) then AdmitsExactly(s, t, session, tool)
                else t.tools == s.tools && t.registry == s.registry)
  {
    var s1 := Step(s, Begin(p, AdmitWaiting(session, tool)));
    var s2 := Step(s1, Go(p));
    assert s2 == Move(s1, p, s.registry, s.tools, AdmitLocked(session, tool));
    var s3 := Step(s2, Go(p));
    var schema := Callable(tool.invoke.contract, tool.input, tool.output);
    var key := Key(tool.invoke.generation, tool.invoke.id);
    if tool.invoke.generation in s.registry.retired {
      assert s3 == Move(s2, p, s.registry, s.tools, Idle);
    } else if key in s.registry.entries {
      assert s3 == Move(s2, p, s.registry, s.tools, AdmitClash(session, tool));
      var s4 := Step(s3, Go(p));
      if s.registry.entries[key] == schema {
        assert s4 == Move(s3, p, s.registry, s.tools, AdmitReady(session, tool));
        assert s.registry.entries[key := schema] == s.registry.entries;
        Committed(s, s4, p, session, tool);
      } else {
        assert s4 == Move(s3, p, s.registry, s.tools, Idle);
      }
    } else {
      var registry := Registry(s.registry.entries[key := schema], s.registry.retired);
      assert s3 == Move(s2, p, registry, s.tools, AdmitReady(session, tool));
      Committed(s, s3, p, session, tool);
    }
  }

  /** The last step of an admission whose handler is registered. */
  lemma {:induction false} Committed(s: State, ready: State, p: nat, session: string, tool: Tool)
    requires Consistent(s.tools) && Place(session, tool.callable) !in s.tools.byPlace && ready.tools == s.tools
    requires JobOf(ready, p) == AdmitReady(session, tool)
    requires ready.registry == Registry(s.registry.entries[Key(tool.invoke.generation, tool.invoke.id) :=
                                          Callable(tool.invoke.contract, tool.input, tool.output)], s.registry.retired)
    ensures var t := Step(ready, Go(p));
            t.lock.None? && JobOf(t, p).Idle? && AdmitsExactly(s, t, session, tool)
  {
    var id := NextId(s.tools, tool);
    NextIdIsNew(s.tools, tool);
    var t := Step(ready, Go(p));
    assert t.tools.byId == s.tools.byId[id := Admission(session, tool)];
  }

  /**
   * A client that asks gets what it may have: from every reachable state with the lock free, an admission request that
   * runs alone ends with exactly that tool admitted if and only if its generation is not retired, its place is free and
   * its handler is not registered or registered at exactly the tool's callable schema; otherwise nothing changes.
   */
  lemma {:induction false} AdmittedAloneIff(actions: seq<Action>, p: nat, session: string, tool: Tool)
    requires tool.invoke.generation.owner.Client?
    requires Run(Start(), actions).lock.None? && JobOf(Run(Start(), actions), p).Idle?
    ensures var s := Run(Start(), actions);
            var t := RunAlone(s, p, AdmitWaiting(session, tool));
            && (AdmitsExactly(s, t, session, tool) <==> CanAdmit(s, session, tool))
            && (!CanAdmit(s, session, tool) ==> t.tools == s.tools && t.registry == s.registry)
            && t.lock.None? && JobOf(t, p).Idle?
  {
    StartOk();
    RunKeeps(Start(), actions);
    AdmissionSteps(Run(Start(), actions), p, session, tool);
  }

  // ---------------------------------------------------------------- removing

  /** The admission is the session's own. */
  predicate MayRemove(s: State, session: string, id: AdmissionId) {
    id in s.tools.byId && s.tools.byId[id].session == session
  }

  /** Another admission goes through the same reference. */
  predicate StillUsed(s: State, id: AdmissionId)
    requires id in s.tools.byId
  {
    exists other | other in s.tools.byId :: other != id && s.tools.byId[other].tool.invoke == s.tools.byId[id].tool.invoke
  }

  /** Exactly this admission is gone, and its handler with the last that used it. */
  predicate RemovesExactly(s: State, t: State, id: AdmissionId)
    requires id in s.tools.byId
  {
    var invoke := s.tools.byId[id].tool.invoke;
    && t.tools.byId == s.tools.byId - {id}
    && t.registry.retired == s.registry.retired
    && t.registry.entries == if StillUsed(s, id) || invoke.generation in s.registry.retired then s.registry.entries
                             else s.registry.entries - {Key(invoke.generation, invoke.id)}
  }

  lemma {:induction false} RemovalSteps(s: State, p: nat, session: string, id: AdmissionId)
    requires Inv(s) && s.lock.None? && JobOf(s, p).Idle?
    ensures var t := RunAlone(s, p, RemoveWaiting(session, id));
            && t.lock.None? && JobOf(t, p).Idle?
            && (if MayRemove(s, session, id) then RemovesExactly(s, t, id) else t.tools == s.tools && t.registry == s.registry)
  {
    AloneSteps(s, p, RemoveWaiting(session, id));
    var s1 := Step(s, Begin(p, RemoveWaiting(session, id)));
    var s2 := Step(s1, Go(p));
    if MayRemove(s, session, id) {
      var invoke := s.tools.byId[id].tool.invoke;
      assert s2 == Move(s1, p, s.registry, Remove(s.tools, id), RemoveTaken(invoke));
      TakenSteps(s, s2, p, id);
    } else {
      assert s2 == Move(s1, p, s.registry, s.tools, Idle);
    }
  }

  /** The steps of a removal after it has taken the admission. */
  lemma {:induction false} TakenSteps(s: State, taken: State, p: nat, id: AdmissionId)
    requires id in s.tools.byId && taken.registry == s.registry && taken.tools == Remove(s.tools, id)
    requires JobOf(taken, p) == RemoveTaken(s.tools.byId[id].tool.invoke)
    ensures var t := Step(Step(Step(taken, Go(p)), Go(p)), Go(p));
            t.lock.None? && JobOf(t, p).Idle? && RemovesExactly(s, t, id)
  {
    StillUsedIff(s, id);
    var invoke, next := s.tools.byId[id].tool.invoke, Step(taken, Go(p));
    if StillUsed(s, id) {
      assert next == Move(taken, p, s.registry, Remove(s.tools, id), Idle);
    } else {
      assert next == Move(taken, p, s.registry, Remove(s.tools, id), RemoveLast(invoke));
    }
  }

  lemma {:induction false} StillUsedIff(s: State, id: AdmissionId)
    requires id in s.tools.byId
    ensures StillUsed(s, id) <==> ContainsInvoke(Remove(s.tools, id), s.tools.byId[id].tool.invoke)
  {
    var after, invoke := Remove(s.tools, id), s.tools.byId[id].tool.invoke;
    if StillUsed(s, id) {
      var other :| other in s.tools.byId && other != id && s.tools.byId[other].tool.invoke == invoke;
      assert other in after.byId && after.byId[other].tool.invoke == invoke;
    }
  }

  /** From every reachable state with the lock free: a removal takes exactly the session's own admission. */
  lemma {:induction false} RemovedAloneIff(actions: seq<Action>, p: nat, session: string, id: AdmissionId)
    requires Run(Start(), actions).lock.None? && JobOf(Run(Start(), actions), p).Idle?
    ensures var s := Run(Start(), actions);
            var t := RunAlone(s, p, RemoveWaiting(session, id));
            && (if MayRemove(s, session, id) then RemovesExactly(s, t, id) else t.tools == s.tools && t.registry == s.registry)
            && t.lock.None? && JobOf(t, p).Idle?
  {
    StartOk();
    RunKeeps(Start(), actions);
    RemovalSteps(Run(Start(), actions), p, session, id);
  }

  // ---------------------------------------------------------------- retiring

  /** Nothing of the generation is left, and nothing changes for any other. */
  predicate RetiresExactly(s: State, t: State, generation: Generation) {
    && t.registry.retired == s.registry.retired + {generation}
    && (forall key | key in t.registry.entries :: key.generation != generation && key in s.registry.entries)
    && (forall key | key in s.registry.entries && key.generation != generation ::
          key in t.registry.entries && t.registry.entries[key] == s.registry.entries[key])
    && (forall id | id in t.tools.byId ::
          t.tools.byId[id].tool.invoke.generation != generation
          && id in s.tools.byId && t.tools.byId[id] == s.tools.byId[id])
    && (forall id | id in s.tools.byId && s.tools.byId[id].tool.invoke.generation != generation ::
          id in t.tools.byId && t.tools.byId[id] == s.tools.byId[id])
  }

  /** From every reachable state with the lock free: a retirement takes all of its generation and nothing else. */
  lemma {:induction false} RetiredAlone(actions: seq<Action>, p: nat, generation: Generation)
    requires Run(Start(), actions).lock.None? && JobOf(Run(Start(), actions), p).Idle?
    ensures var s := Run(Start(), actions);
            var t := RunAlone(s, p, RetireStarting(generation));
            RetiresExactly(s, t, generation) && generation in t.finished && t.lock.None? && JobOf(t, p).Idle?
  {
    var s := Run(Start(), actions);
    AloneSteps(s, p, RetireStarting(generation));
    var s1 := Step(s, Begin(p, RetireStarting(generation)));
    var s2 := Step(s1, Go(p));
    assert s2 == MoveUnlocked(s1, p, RetireHandlers(s.registry, generation), RetireWaiting(generation));
  }

  /** Retiring one generation changes nothing for what another may admit. */
  lemma {:induction false} RetirementSparesOthers(
    actions: seq<Action>, p: nat, generation: Generation, session: string, tool: Tool)
    requires Run(Start(), actions).lock.None? && JobOf(Run(Start(), actions), p).Idle?
    requires tool.invoke.generation != generation && CanAdmit(Run(Start(), actions), session, tool)
    ensures CanAdmit(RunAlone(Run(Start(), actions), p, RetireStarting(generation)), session, tool)
  {
    RetiredAlone(actions, p, generation);
    var s := Run(Start(), actions);
    var t := RunAlone(s, p, RetireStarting(generation));
    forall id | id in t.tools.byId
      ensures t.tools.byId[id].session != session || t.tools.byId[id].tool.callable != tool.callable
    {
      assert t.tools.byId[id] == s.tools.byId[id];
    }
  }
}
