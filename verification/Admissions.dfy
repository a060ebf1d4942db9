/** The registry, the admissions and the service that keeps the two in step, updated in place. */
module Admissions {
  import opened Wrappers
  import opened Schema
  import opened AdmissionsSpec
  import Runs = AdmissionsRuns
  import Answers = AdmissionsAnswers

  class CapabilityRegistry {
    var entries: map<Key, Type>
    var retired: set<Generation>

    constructor ()
      ensures View() == Registry(map[], {})
    {
      entries, retired := map[], {};
    }

    function View(): Registry
      reads this
    {
      Registry(entries, retired)
    }

    method RegisterHandler(r: Ref, schema: Type) returns (refusal: Option<Refusal>)
      modifies this
      ensures match Register(old(View()), r, schema)
              case Ok(registry) => refusal == None && View() == registry
              case Err(why) => refusal == Some(why) && View() == old(View())
      ensures refusal == None <==>
                && schema.Callable? && schema.contract == r.contract
                && r.generation !in old(retired) && Key(r.generation, r.id) !in old(entries)
      ensures refusal == None ==> entries == old(entries)[Key(r.generation, r.id) := schema] && retired == old(retired)
    {
      if !schema.Callable? || r.contract != schema.contract {
        return Some(WrongSchema);
      }
      if r.generation in retired {
        return Some(Stale);
      }
      if KeyOf(r) in entries {
        return Some(Duplicate);
      }
      entries := entries[KeyOf(r) := schema];
      return None;
    }

    method Retire(generation: Generation)
      modifies this
      ensures View() == RetireHandlers(old(View()), generation)
    {
      entries := map key | key in entries && key.generation != generation :: entries[key];
      retired := retired + {generation};
    }

    method UnregisterHandler(r: Ref) returns (removed: bool)
      modifies this
      ensures View() == Unregister(old(View()), r)
      ensures removed <==> View() != old(View())
    {
      if r.generation in retired {
        return false;
      }
      removed := KeyOf(r) in entries;
      entries := entries - {KeyOf(r)};
    }
  }

  class ClientToolAdmissions {
    var next: nat
    var byId: map<AdmissionId, Admission>
    var byPlace: map<Place, AdmissionId>
    var byGeneration: map<Generation, set<AdmissionId>>

    constructor ()
      ensures Valid() && View() == Tools(0, map[], map[], map[])
    {
      next, byId, byPlace, byGeneration := 0, map[], map[], map[];
    }

    function View(): Tools
      reads this
    {
      Tools(next, byId, byPlace, byGeneration)
    }

    ghost predicate Valid()
      reads this
    {
      Consistent(View())
    }

    method AdmitTool(session: string, tool: Tool) returns (id: Option<AdmissionId>)
      requires Valid()
      modifies this
      ensures Valid()
      ensures match Admit(old(View()), session, tool)
              case Ok(tools) => View() == tools && id == Some(NextId(old(View()), tool))
              case Err(_) => View() == old(View()) && id == None
    {
      ghost var before := View();
      var place, generation := Place(session, tool.callable), tool.invoke.generation;
      if place in byPlace {
        return None;
      }
      next := next + 1;
      var added := AdmissionId(generation.id, next);
      byPlace := byPlace[place := added];
      var ids := if generation in byGeneration then byGeneration[generation] else {};
      byGeneration := byGeneration[generation := ids + {added}];
      byId := byId[added := Admission(session, tool)];
      AdmitKeepsConsistent(before, session, tool);
      return Some(added);
    }

    method RemoveOne(id: AdmissionId, generation: Generation) returns (admission: Option<Admission>)
      requires Valid()
      modifies this
      ensures Valid()
      ensures var before := old(View());
              if id in before.byId && GenerationOf(before.byId[id]) == generation
              then admission == Some(before.byId[id]) && View() == Remove(before, id)
              else admission == None && View() == before
    {
      ghost var before := View();
      if id !in byId || GenerationOf(byId[id]) != generation {
        return None;
      }
      var removed := byId[id];
      byId := byId - {id};
      byPlace := byPlace - {PlaceOf(removed)};
      var ids := byGeneration[generation] - {id};
      if ids == {} {
        byGeneration := byGeneration - {generation};
      } else {
        byGeneration := byGeneration[generation := ids];
      }
      RemoveKeepsConsistent(before, id);
      return Some(removed);
    }

    method RemoveFrom(session: string, id: AdmissionId) returns (admission: Option<Admission>)
      requires Valid()
      modifies this
      ensures Valid()
      ensures match RemoveFromSession(old(View()), session, id)
              case Ok((removed, tools)) => admission == Some(removed) && View() == tools
              case Err(_) => admission == None && View() == old(View())
    {
      if id !in byId || byId[id].session != session {
        return None;
      }
      admission := RemoveOne(id, GenerationOf(byId[id]));
    }

    /** Removes the generation's admissions one by one. */
    method Retire(generation: Generation)
      requires Valid()
      modifies this
      ensures Valid() && View() == RetireTools(old(View()), generation)
    {
      ghost var before := View();
      if generation !in byGeneration {
        assert RetireTools(before, generation).byId == before.byId;
        assert RetireTools(before, generation).byPlace == before.byPlace;
        assert RetireTools(before, generation).byGeneration == before.byGeneration;
        return;
      }
      var ids := byGeneration[generation];
      while ids != {}
        invariant Valid() && ids == IdsOf(View(), generation)
        invariant RetireTools(View(), generation) == RetireTools(before, generation)
        decreases |ids|
      {
        ghost var tools := View();
        var id :| id in ids;
        var removed := RemoveOne(id, generation);
        RemovedOne(tools, id, generation);
        ids := ids - {id};
      }
      RetireNone(View(), generation);
    }

    method Find(place: Place) returns (admission: Option<Admission>)
      requires Valid()
      ensures admission == Admitted(View(), place)
    {
      if place !in byPlace {
        return None;
      }
      return Some(byId[byPlace[place]]);
    }

    method UsesInvoke(r: Ref) returns (used: bool)
      ensures used == ContainsInvoke(View(), r)
    {
      var ids := byId.Keys;
      while ids != {}
        invariant ids <= byId.Keys
        invariant forall id :: id in byId && id !in ids ==> byId[id].tool.invoke != r
        decreases |ids|
      {
        var id :| id in ids;
        if byId[id].tool.invoke == r {
          return true;
        }
        ids := ids - {id};
      }
      return false;
    }
  }

  /** Removing one admission of the generation leaves the others of it, and what retirement leaves. */
  lemma {:induction false} RemovedOne(tools: Tools, id: AdmissionId, generation: Generation)
    requires Consistent(tools) && id in IdsOf(tools, generation)
    ensures IdsOf(Remove(tools, id), generation) == IdsOf(tools, generation) - {id}
    ensures RetireTools(Remove(tools, id), generation) == RetireTools(tools, generation)
  {
    assert GenerationOf(tools.byId[id]) == generation;
    assert RetireTools(Remove(tools, id), generation).byGeneration == RetireTools(tools, generation).byGeneration;
    RemovedOneId(tools, id, generation);
    RemovedOnePlace(tools, id, generation);
  }

  lemma {:induction false} RemovedOneId(tools: Tools, id: AdmissionId, generation: Generation)
    requires id in tools.byId && GenerationOf(tools.byId[id]) == generation
    ensures RetireTools(Remove(tools, id), generation).byId == RetireTools(tools, generation).byId
  {
  }

  lemma {:induction false} RemovedOnePlace(tools: Tools, id: AdmissionId, generation: Generation)
    requires Consistent(tools) && id in tools.byId && GenerationOf(tools.byId[id]) == generation
    ensures RetireTools(Remove(tools, id), generation).byPlace == RetireTools(tools, generation).byPlace
  {
    var after := Remove(tools, id);
    forall place | place in after.byPlace
      ensures after.byPlace[place] != id && after.byPlace[place] in after.byId
    {
    }
  }

  lemma {:induction false} RetireNone(tools: Tools, generation: Generation)
    requires Consistent(tools) && IdsOf(tools, generation) == {}
    ensures RetireTools(tools, generation) == tools
  {
    assert RetireTools(tools, generation).byId == tools.byId;
    assert RetireTools(tools, generation).byPlace == tools.byPlace;
    assert RetireTools(tools, generation).byGeneration == tools.byGeneration;
  }

  datatype Failure = Mismatch | Conflict | Gone(refusal: Refusal)

  /** Where an invocation of the callable goes if the tool offers it, and the schema it is checked against. */
  function RouteOf(tool: Tool, callable: string): Option<(Ref, Type)> {
    if tool.callable == callable then Some((tool.invoke, Callable(tool.invoke.contract, tool.input, tool.output))) else None
  }

  /** One connection's service: its client's owner and generation, over the shared registry and admissions. */
  class SdkApplicationService {
    const client: Generation
    const capabilities: CapabilityRegistry
    const admissions: ClientToolAdmissions

    constructor (client: Generation, capabilities: CapabilityRegistry, admissions: ClientToolAdmissions)
      ensures this.client == client && this.capabilities == capabilities && this.admissions == admissions
    {
      this.client, this.capabilities, this.admissions := client, capabilities, admissions;
    }

    /** The shared state, the lock free and nothing in progress. */
    ghost function View(): Runs.State
      reads capabilities, admissions
    {
      Runs.State(capabilities.View(), admissions.View(), None, map[], {})
    }

    method AdmitCurrentClientCallable(r: Ref, schema: Type) returns (failure: Option<Failure>)
      modifies capabilities
      ensures failure == None ==>
                r.generation == client && SchemaOf(capabilities.View(), r) == Ok(schema)
      ensures capabilities.View() ==
                if r.generation == client && Register(old(capabilities.View()), r, schema).Ok?
                then Register(old(capabilities.View()), r, schema).value else old(capabilities.View())
      ensures failure == None <==>
                r.generation == client && (Register(old(capabilities.View()), r, schema).Ok?
                                           || (Register(old(capabilities.View()), r, schema) == Err(Duplicate)
                                               && SchemaOf(old(capabilities.View()), r) == Ok(schema)))
    {
      if r.generation != client {
        return Some(Mismatch);
      }
      var refusal := capabilities.RegisterHandler(r, schema);
      if refusal == None {
        return None;
      }
      if refusal == Some(Duplicate) {
        var registered := SchemaOf(capabilities.View(), r);
        match registered {
          case Ok(other) => return if other == schema then None else Some(Mismatch);
          case Err(why) => return Some(Gone(why));
        }
      }
      return Some(Gone(refusal.value));
    }

    /** Without interference, an admission request ends as the interleaved machine ends it when it runs alone. */
    method AdmitClientTool(session: string, tool: Tool) returns (id: Option<AdmissionId>)
      requires admissions.Valid() && client.owner.Client?
      modifies capabilities, admissions
      ensures admissions.Valid()
      ensures tool.invoke.generation == client ==>
                var alone := Alone(old(View()), Runs.AdmitWaiting(session, tool));
                capabilities.View() == alone.registry && admissions.View() == alone.tools
      ensures tool.invoke.generation != client ==>
                capabilities.View() == old(capabilities.View()) && admissions.View() == old(admissions.View())
      ensures id.Some? ==>
                && id.value in admissions.View().byId
                && admissions.View().byId[id.value] == Admission(session, tool)
                && SchemaOf(capabilities.View(), tool.invoke) == Ok(CallableSchema(tool))
      ensures id.None? ==> admissions.View() == old(admissions.View()) && capabilities.View() == old(capabilities.View())
      ensures id.Some? <==> tool.invoke.generation == client && Answers.CanAdmit(old(View()), session, tool)
    {
      if tool.invoke.generation != client {
        return None;
      }
      ghost var s := View();
      Answers.PlaceFreeIff(s.tools, session, tool.callable);
      var existing := admissions.Find(Place(session, tool.callable));
      if existing.Some? {
        AloneAdmit(s, session, tool);
        return None;
      }
      var failure := AdmitCurrentClientCallable(tool.invoke, CallableSchema(tool));
      if failure.Some? {
        AloneAdmit(s, session, tool);
        return None;
      }
      AdmittedIsTheOne(s.tools, AdmissionId("", 0), Place(session, tool.callable));
      id := admissions.AdmitTool(session, tool);
      AloneAdmit(s, session, tool);
    }

    method RemoveClientTool(session: string, id: AdmissionId) returns (removed: bool)
      requires admissions.Valid()
      modifies capabilities, admissions
      ensures admissions.Valid()
      ensures var alone := Alone(old(View()), Runs.RemoveWaiting(session, id));
              capabilities.View() == alone.registry && admissions.View() == alone.tools
      ensures removed <==> id in old(admissions.View()).byId && old(admissions.View()).byId[id].session == session
    {
      ghost var s := View();
      AloneRemove(s, session, id);
      var admission := admissions.RemoveFrom(session, id);
      if admission.None? {
        return false;
      }
      var used := admissions.UsesInvoke(admission.value.tool.invoke);
      if !used {
        var _ := capabilities.UnregisterHandler(admission.value.tool.invoke);
      }
      return true;
    }

    /**
     * What a tool invocation is checked against and sent to: exactly what is registered, unless the generation is
     * already retired there. The registry looks the handler up later, without the lock;
     * `AdmissionsRuns.InvocationWindow` is about that.
     */
    method PrepareInvocation(session: string, callable: string) returns (route: Option<(Ref, Type)>)
      requires admissions.Valid() && Runs.Agree(capabilities.View(), admissions.View())
      ensures route.Some? <==> Admitted(admissions.View(), Place(session, callable)).Some?
      ensures route.Some? ==>
                SchemaOf(capabilities.View(), route.value.0) ==
                  if route.value.0.generation in capabilities.View().retired then Err(Stale) else Ok(route.value.1)
      ensures route.Some? ==>
                exists id :: id in admissions.View().byId && admissions.View().byId[id].session == session
                             && RouteOf(admissions.View().byId[id].tool, callable) == route
      ensures route.None? ==> Answers.PlaceFree(admissions.View(), session, callable)
    {
      var admission := admissions.Find(Place(session, callable));
      if admission.None? {
        Answers.PlaceFreeIff(admissions.View(), session, callable);
        return None;
      }
      ghost var id := admissions.byPlace[Place(session, callable)];
      assert RouteOf(admissions.byId[id].tool, callable).Some?;
      assert Runs.Covered(capabilities.View(), admissions.byId[id].tool);
      return Some((admission.value.tool.invoke, CallableSchema(admission.value.tool)));
    }

    method RetireClient()
      requires admissions.Valid()
      modifies capabilities, admissions
      ensures admissions.Valid()
      ensures var alone := Alone(old(View()), Runs.RetireStarting(client));
              capabilities.View() == alone.registry && admissions.View() == alone.tools
      ensures forall id :: id in admissions.View().byId ==> GenerationOf(admissions.View().byId[id]) != client
    {
      ghost var s := View();
      AloneRetire(s, client);
      capabilities.Retire(client);
      admissions.Retire(client);
    }
  }

  /** One request, begun and driven to its end by process 0 with nothing in between. */
  function Alone(s: Runs.State, request: Runs.Job): Runs.State {
    Runs.Run(s, [Runs.Begin(0, request), Runs.Go(0), Runs.Go(0), Runs.Go(0), Runs.Go(0)])
  }

  lemma {:induction false} AloneUnfolds(s: Runs.State, request: Runs.Job)
    requires s.jobs == map[] && Runs.IsRequest(request)
    ensures var begun := Runs.MoveUnlocked(s, 0, s.registry, request);
            Alone(s, request) == Runs.Advance(Runs.Advance(Runs.Advance(Runs.Advance(begun, 0), 0), 0), 0)
  {
    var begun := Runs.MoveUnlocked(s, 0, s.registry, request);
    var go := Runs.Go(0);
    assert [Runs.Begin(0, request), go, go, go, go][1..] == [go, go, go, go];
    assert Runs.Step(s, Runs.Begin(0, request)) == begun;
    RunFour(begun, go);
  }

  lemma {:induction false} RunFour(s: Runs.State, action: Runs.Action)
    ensures Runs.Run(s, [action, action, action, action])
         == Runs.Step(Runs.Step(Runs.Step(Runs.Step(s, action), action), action), action)
  {
    var s1 := Runs.Step(s, action);
    var s2 := Runs.Step(s1, action);
    var s3 := Runs.Step(s2, action);
    assert [action, action, action, action][1..] == [action, action, action];
    assert [action, action, action][1..] == [action, action];
    assert [action, action][1..] == [action];
    assert [action][1..] == [];
    assert Runs.Run(s3, [action]) == Runs.Step(s3, action);
    assert Runs.Run(s2, [action, action]) == Runs.Run(s3, [action]);
    assert Runs.Run(s1, [action, action, action]) == Runs.Run(s2, [action, action]);
  }

  lemma {:induction false} AloneAdmit(s: Runs.State, session: string, tool: Tool)
    requires s.jobs == map[] && s.lock == None && tool.invoke.generation.owner.Client?
    ensures var alone := Alone(s, Runs.AdmitWaiting(session, tool));
            var registered := Register(s.registry, tool.invoke, CallableSchema(tool));
            var served := registered.Ok? || (registered == Err(Duplicate)
                                             && SchemaOf(s.registry, tool.invoke) == Ok(CallableSchema(tool)));
            if Admitted(s.tools, Place(session, tool.callable)).Some? || !served
            then alone.registry == s.registry && alone.tools == s.tools
            else
              && alone.registry == (if registered.Ok? then registered.value else s.registry)
              && alone.tools == match Admit(s.tools, session, tool) { case Ok(tools) => tools case Err(_) => s.tools }
  {
    AloneUnfolds(s, Runs.AdmitWaiting(session, tool));
  }

  lemma {:induction false} AloneRemove(s: Runs.State, session: string, id: AdmissionId)
    requires s.jobs == map[] && s.lock == None
    ensures var alone := Alone(s, Runs.RemoveWaiting(session, id));
            match RemoveFromSession(s.tools, session, id)
            case Err(_) => alone.registry == s.registry && alone.tools == s.tools
            case Ok((admission, tools)) =>
              && alone.tools == tools
              && alone.registry == if ContainsInvoke(tools, admission.tool.invoke) then s.registry
                                   else Unregister(s.registry, admission.tool.invoke)
  {
    AloneUnfolds(s, Runs.RemoveWaiting(session, id));
  }

  lemma {:induction false} AloneRetire(s: Runs.State, generation: Generation)
    requires s.jobs == map[] && s.lock == None
    ensures var alone := Alone(s, Runs.RetireStarting(generation));
            alone.registry == RetireHandlers(s.registry, generation) && alone.tools == RetireTools(s.tools, generation)
  {
    AloneUnfolds(s, Runs.RetireStarting(generation));
  }
}
