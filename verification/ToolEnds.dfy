/**
 * The two ends of a client tool: the Lua client's registrations and local callables, the server's admissions and
 * registered handlers, and requests and replies on the way between them, in any order.
 */
module ToolEnds {
  import opened Wrappers
  import opened Schema
  import opened Text
  import opened AdmissionsSpec
  import Runs = AdmissionsRuns
  import Admissions

  /** Where a registration stands on the client; it is named by the number of its lifted function. */
  datatype Phase =
    | Waiting(session: string)
    | Rejected
    | Holding(session: string, id: AdmissionId)
    | Stopping(session: string, id: AdmissionId)
    | Stopped
    | StopFailed

  /** `Explicit` removals come from the application itself, not from a registration's stop function. */
  datatype Request =
    | Add(n: nat, session: string, tool: Tool)
    | Stop(n: nat, session: string, id: AdmissionId)
    | Explicit(session: string, id: AdmissionId)

  datatype Reply =
    | Added(n: nat, id: AdmissionId)
    | AddRefused(n: nat)
    | Removed(n: nat)
    | RemoveRefused(n: nat)

  /** `entries` are the client's local callables by number. */
  datatype State = State(
    live: bool, next: nat, entries: set<nat>, phases: map<nat, Phase>,
    requests: set<Request>, replies: set<Reply>, tools: Tools, registry: Registry)

  function Start(): State {
    State(true, 0, {}, map[], {}, {}, Tools(0, map[], map[], map[]), Registry(map[], {}))
  }

  const HANDLER := "phenix.client-tool-handler@1"

  /** The reference of the client's n-th lifted function. */
  function Handler(me: Generation, n: nat): Ref {
    Ref(HANDLER, me, Decimal(n))
  }

  datatype Action =
    | Register(session: string, callable: string, input: Type, output: Type, sent: bool)
    | PollRegistration(n: nat, reply: Reply)
    | CallStop(n: nat)
    | PollStop(n: nat, reply: Reply)
    | PollFailed(n: nat)
    | RemoveExplicitly(session: string, id: AdmissionId)
    | Serve(request: Request, refused: bool)
    | OtherAdmits(session: string, tool: Tool)
    | OtherRemoves(session: string, id: AdmissionId)
    | Retire(generation: Generation)
    | Disconnect

  function Step(me: Generation, s: State, action: Action): State {
    match action
    case Register(session, callable, input, output, sent) => StepRegister(me, s, session, callable, input, output, sent)
    case PollRegistration(n, reply) =>
      if n in s.phases && s.phases[n].Waiting? && reply in s.replies then StepAnswer(s, n, reply) else s
    case CallStop(n) => if n in s.phases && s.phases[n].Holding? then StepCallStop(s, n) else s
    case PollStop(n, reply) =>
      if n in s.phases && s.phases[n].Stopping? && reply in s.replies then StepStopAnswer(s, n, reply) else s
    case PollFailed(n) => if !s.live && n in s.phases then StepFailed(s, n) else s
    case RemoveExplicitly(session, id) =>
      s.(requests := s.requests + {Explicit(session, id)})
    case Serve(request, refused) => if request in s.requests then StepServe(s, request, refused) else s
    case OtherAdmits(session, tool) =>
      if tool.invoke.generation != me && Admissible(s, session, tool) then Admitting(s, session, tool) else s
    case OtherRemoves(session, id) => if Removable(s, session, id) then Removing(s, id) else s
    case Retire(generation) =>
      s.(tools := RetireTools(s.tools, generation), registry := RetireHandlers(s.registry, generation))
    case Disconnect => s.(live := false)
  }

  /** The server can serve the tool: its handler can be registered, or is registered at the same schema. */
  predicate Servable(registry: Registry, tool: Tool) {
    var registered := AdmissionsSpec.Register(registry, tool.invoke, CallableSchema(tool));
    registered.Ok? || (registered == Err(Duplicate) && SchemaOf(registry, tool.invoke) == Ok(CallableSchema(tool)))
  }

  predicate Admissible(s: State, session: string, tool: Tool) {
    Admit(s.tools, session, tool).Ok? && Servable(s.registry, tool)
  }

  /** An admission with its handler; as `AdmissionsRuns` does it for a request that runs alone. */
  function Admitting(s: State, session: string, tool: Tool): State
    requires Admissible(s, session, tool)
  {
    var registered := AdmissionsSpec.Register(s.registry, tool.invoke, CallableSchema(tool));
    s.(tools := Admit(s.tools, session, tool).value, registry := if registered.Ok? then registered.value else s.registry)
  }

  predicate Removable(s: State, session: string, id: AdmissionId) {
    RemoveFromSession(s.tools, session, id).Ok?
  }

  /** The handler goes with the last admission that uses it. */
  function Removing(s: State, id: AdmissionId): State
    requires id in s.tools.byId
  {
    var invoke, tools := s.tools.byId[id].tool.invoke, Remove(s.tools, id);
    s.(tools := tools, registry := if ContainsInvoke(tools, invoke) then s.registry else Unregister(s.registry, invoke))
  }

  /** The registration n is at a new phase; its function stays lifted or is dropped. */
  function WithPhase(s: State, n: nat, phase: Phase, drop: bool): State {
    s.(entries := if drop then s.entries - {n} else s.entries, phases := s.phases[n := phase])
  }

  /** Lift the handler and ask; when the request cannot be sent the lifted function is dropped again. */
  function StepRegister(
    me: Generation, s: State, session: string, callable: string, input: Type, output: Type, sent: bool): State
  {
    var n := s.next + 1;
    if sent then
      s.(next := n, entries := s.entries + {n}, phases := s.phases[n := Waiting(session)],
         requests := s.requests + {Add(n, session, Tool(callable, input, output, Handler(me, n)))})
    else s.(next := n)
  }

  /** A refusal releases the function; an admission is kept with its handle. */
  function StepAnswer(s: State, n: nat, reply: Reply): State
    requires n in s.phases && s.phases[n].Waiting?
  {
    if reply == AddRefused(n) then WithPhase(s, n, Rejected, true)
    else if reply.Added? && reply.n == n then WithPhase(s, n, Holding(s.phases[n].session, reply.id), false)
    else s
  }

  /** The first call of the stop function sends the one removal request; later calls share it. */
  function StepCallStop(s: State, n: nat): State
    requires n in s.phases && s.phases[n].Holding?
  {
    var phase := s.phases[n];
    s.(phases := s.phases[n := Stopping(phase.session, phase.id)],
       requests := s.requests + {Stop(n, phase.session, phase.id)})
  }

  /** Only an acknowledged removal drops the function. */
  function StepStopAnswer(s: State, n: nat, reply: Reply): State {
    if reply == Removed(n) then WithPhase(s, n, Stopped, true)
    else if reply == RemoveRefused(n) then WithPhase(s, n, StopFailed, false)
    else s
  }

  /** On a failed connection pending requests fail: a registration releases its function, a removal does not. */
  function StepFailed(s: State, n: nat): State
    requires n in s.phases
  {
    if s.phases[n].Waiting? then WithPhase(s, n, Rejected, true)
    else if s.phases[n].Stopping? then WithPhase(s, n, StopFailed, false)
    else s
  }

  /** The server takes up one request; it may refuse to admit for reasons of its own. */
  function StepServe(s: State, request: Request, refused: bool): State {
    var taken := s.(requests := s.requests - {request});
    match request
    case Add(n, session, tool) =>
      if refused || !Admissible(s, session, tool) then Reported(taken, AddRefused(n))
      else Reported(Admitting(taken, session, tool), Added(n, NextId(s.tools, tool)))
    case Stop(n, session, id) =>
      if Removable(s, session, id) then Reported(Removing(taken, id), Removed(n)) else Reported(taken, RemoveRefused(n))
    case Explicit(session, id) => if Removable(s, session, id) then Removing(taken, id) else taken
  }

  function Reported(s: State, reply: Reply): State {
    s.(replies := s.replies + {reply})
  }

  function Run(me: Generation, s: State, actions: seq<Action>): State
    decreases |actions|
  {
    if actions == [] then s else Run(me, Step(me, s, actions[0]), actions[1..])
  }

  /** The server's part of a state, with nothing in progress. */
  function ServerOf(s: State): Runs.State {
    Runs.State(s.registry, s.tools, None, map[], {})
  }

  /** One step here is the interleaved machine's admission request that runs alone. */
  lemma {:induction false} AdmittingIsAlone(s: State, session: string, tool: Tool)
    requires Consistent(s.tools) && tool.invoke.generation.owner.Client?
    ensures var alone := Admissions.Alone(ServerOf(s), Runs.AdmitWaiting(session, tool));
            var t := if Admissible(s, session, tool) then Admitting(s, session, tool) else s;
            alone.registry == t.registry && alone.tools == t.tools
  {
    Admissions.AloneAdmit(ServerOf(s), session, tool);
  }

  lemma {:induction false} RemovingIsAlone(s: State, session: string, id: AdmissionId)
    ensures var alone := Admissions.Alone(ServerOf(s), Runs.RemoveWaiting(session, id));
            var t := if Removable(s, session, id) then Removing(s, id) else s;
            alone.registry == t.registry && alone.tools == t.tools
  {
    Admissions.AloneRemove(ServerOf(s), session, id);
  }

  // ---------------------------------------------------------------- the invariant, one lifted function at a time

  /** The admission goes to the client's n-th function. */
  predicate Serves(me: Generation, tools: Tools, id: AdmissionId, n: nat) {
    id in tools.byId && tools.byId[id].tool.invoke == Handler(me, n)
  }

  /** Only this admission, if any, goes to the n-th function. */
  ghost predicate OnlyAt(me: Generation, tools: Tools, n: nat, id: AdmissionId) {
    forall other :: Serves(me, tools, other, n) ==> other == id
  }

  ghost predicate Unserved(me: Generation, tools: Tools, n: nat) {
    forall other :: !Serves(me, tools, other, n)
  }

  ghost predicate Asked(s: State, n: nat) {
    exists session, tool :: Add(n, session, tool) in s.requests
  }

  /** What messages may be about a function of this number, given its phase. */
  ghost predicate FunctionOk(me: Generation, s: State, n: nat) {
    if n !in s.phases then
      && Unserved(me, s.tools, n) && !Asked(s, n)
      && (forall id :: Added(n, id) !in s.replies) && AddRefused(n) !in s.replies && Removed(n) !in s.replies
      && (forall session, id :: Stop(n, session, id) !in s.requests)
    else
      match s.phases[n]
      case Waiting(_) =>
        && n in s.entries
        && (Asked(s, n) ==> Unserved(me, s.tools, n) && AddRefused(n) !in s.replies && forall id :: Added(n, id) !in s.replies)
        && (AddRefused(n) in s.replies ==> Unserved(me, s.tools, n))
        && (forall id :: Added(n, id) in s.replies ==> OnlyAt(me, s.tools, n, id))
        && Removed(n) !in s.replies && (forall session, id :: Stop(n, session, id) !in s.requests)
      case Rejected => n !in s.entries && (s.live ==> Unserved(me, s.tools, n) && !Asked(s, n))
      case Holding(_, id) =>
        && n in s.entries && OnlyAt(me, s.tools, n, id) && !Asked(s, n)
        && Removed(n) !in s.replies && (forall session, other :: Stop(n, session, other) !in s.requests)
      case Stopping(_, id) =>
        && n in s.entries && OnlyAt(me, s.tools, n, id) && !Asked(s, n)
        && (forall session, other :: Stop(n, session, other) in s.requests ==> other == id)
        && (Removed(n) in s.replies ==> Unserved(me, s.tools, n))
      case Stopped => Unserved(me, s.tools, n) && !Asked(s, n)
      case StopFailed => n in s.entries && !Asked(s, n)
  }

  ghost predicate Inv(me: Generation, s: State) {
    && Consistent(s.tools)
    && (forall n :: n in s.phases ==> n <= s.next)
    && (forall request :: request in s.requests && request.Add? ==> request.tool.invoke == Handler(me, request.n))
    && OneAddEach(s)
    && (forall n: nat :: FunctionOk(me, s, n))
  }

  ghost predicate OneAddEach(s: State) {
    forall a, b :: a in s.requests && b in s.requests && a.Add? && b.Add? && a.n == b.n ==> a == b
  }

  lemma {:induction false} HandlersDiffer(me: Generation, a: nat, b: nat)
    requires Handler(me, a) == Handler(me, b)
    ensures a == b
  {
    DecimalInjective(a, b);
  }

  /** Nothing new about the function. */
  ghost predicate NoNews(me: Generation, s: State, t: State, n: nat) {
    && (n in t.phases <==> n in s.phases) && (n in s.phases ==> t.phases[n] == s.phases[n])
    && (n in t.entries <==> n in s.entries) && (t.live ==> s.live)
    && (forall id :: Serves(me, t.tools, id, n) ==> Serves(me, s.tools, id, n))
    && (Asked(t, n) ==> Asked(s, n))
    && (forall reply :: reply in t.replies && reply.n == n ==> reply in s.replies)
    && (forall session, id :: Stop(n, session, id) in t.requests ==> Stop(n, session, id) in s.requests)
  }

  lemma {:induction false} NoNewsIsFine(me: Generation, s: State, t: State, n: nat)
    requires FunctionOk(me, s, n) && NoNews(me, s, t, n)
    ensures FunctionOk(me, t, n)
  {
  }

  /** The server lost admissions, and nothing else happened. */
  lemma {:induction false} ToolsShrink(me: Generation, s: State, t: State)
    requires Inv(me, s) && Consistent(t.tools) && t == s.(tools := t.tools, registry := t.registry)
    requires forall id :: id in t.tools.byId ==> id in s.tools.byId && t.tools.byId[id] == s.tools.byId[id]
    ensures Inv(me, t)
  {
    forall n: nat
      ensures FunctionOk(me, t, n)
    {
      NoNewsIsFine(me, s, t, n);
    }
  }

  lemma {:induction false} OtherAdmitsKeeps(me: Generation, s: State, session: string, tool: Tool)
    requires Inv(me, s) && tool.invoke.generation != me && Admissible(s, session, tool)
    ensures Inv(me, Admitting(s, session, tool))
  {
    AdmitKeepsConsistent(s.tools, session, tool);
    var t := Admitting(s, session, tool);
    forall n: nat
      ensures FunctionOk(me, t, n)
    {
      NoNewsIsFine(me, s, t, n);
    }
  }

  lemma {:induction false} RegisterKeeps(
    me: Generation, s: State, session: string, callable: string, input: Type, output: Type, sent: bool)
    requires Inv(me, s)
    ensures Inv(me, StepRegister(me, s, session, callable, input, output, sent))
  {
    var t, added := StepRegister(me, s, session, callable, input, output, sent), s.next + 1;
    assert FunctionOk(me, s, added) && added !in s.phases;
    forall a | a in s.requests && a.Add?
      ensures a.n != added
    {
      assert Add(a.n, a.session, a.tool) in s.requests;
    }
    forall n: nat
      ensures FunctionOk(me, t, n)
    {
      assert FunctionOk(me, s, added) && added !in s.phases;
      if n != added || !sent {
        NoNewsIsFine(me, s, t, n);
      }
    }
  }

  /** A step that changes the phase of one function, where the change is in order for it. */
  lemma {:induction false} PhaseKeeps(me: Generation, s: State, t: State, n: nat)
    requires Inv(me, s) && n in s.phases && t.tools == s.tools && t.next == s.next && t.replies == s.replies
    requires t.live == s.live && t.phases.Keys == s.phases.Keys
    requires forall other :: other in s.phases && other != n ==> t.phases[other] == s.phases[other]
    requires forall other :: other != n ==> (other in t.entries <==> other in s.entries)
    requires forall request :: request in t.requests ==> request in s.requests || (request.Stop? && request.n == n)
    requires FunctionOk(me, t, n)
    ensures Inv(me, t)
  {
    forall other: nat
      ensures FunctionOk(me, t, other)
    {
      if other != n {
        NoNewsIsFine(me, s, t, other);
      }
    }
  }

  lemma {:induction false} AnswerKeeps(me: Generation, s: State, n: nat, reply: Reply)
    requires Inv(me, s) && n in s.phases && s.phases[n].Waiting? && reply in s.replies
    ensures Inv(me, StepAnswer(s, n, reply))
  {
    assert FunctionOk(me, s, n);
    var t := StepAnswer(s, n, reply);
    if t != s {
      PhaseKeeps(me, s, t, n);
    }
  }

  lemma {:induction false} CallStopKeeps(me: Generation, s: State, n: nat)
    requires Inv(me, s) && n in s.phases && s.phases[n].Holding?
    ensures Inv(me, StepCallStop(s, n))
  {
    assert FunctionOk(me, s, n);
    PhaseKeeps(me, s, StepCallStop(s, n), n);
  }

  lemma {:induction false} StopAnswerKeeps(me: Generation, s: State, n: nat, reply: Reply)
    requires Inv(me, s) && n in s.phases && s.phases[n].Stopping? && reply in s.replies
    ensures Inv(me, StepStopAnswer(s, n, reply))
  {
    assert FunctionOk(me, s, n);
    var t := StepStopAnswer(s, n, reply);
    if t != s {
      PhaseKeeps(me, s, t, n);
    }
  }

  lemma {:induction false} FailedKeeps(me: Generation, s: State, n: nat)
    requires Inv(me, s) && n in s.phases && !s.live
    ensures Inv(me, StepFailed(s, n))
  {
    assert FunctionOk(me, s, n);
    var t := StepFailed(s, n);
    if t != s {
      PhaseKeeps(me, s, t, n);
    }
  }

  /** Serving changes what concerns one function only. */
  lemma {:induction false} ServeKeeps(me: Generation, s: State, t: State, n: nat)
    requires Inv(me, s) && t.phases == s.phases && t.entries == s.entries && t.next == s.next && t.live == s.live
    requires t.requests <= s.requests && Consistent(t.tools)
    requires forall reply :: reply in t.replies ==> reply in s.replies || reply.n == n
    requires forall id, other: nat :: other != n && Serves(me, t.tools, id, other) ==> Serves(me, s.tools, id, other)
    requires FunctionOk(me, t, n)
    ensures Inv(me, t)
  {
    forall other: nat
      ensures FunctionOk(me, t, other)
    {
      if other != n {
        NoNewsIsFine(me, s, t, other);
      }
    }
  }

  lemma {:induction false} ServedAddIsTheOnly(s: State, t: State, n: nat, session: string, tool: Tool)
    requires OneAddEach(s) && Add(n, session, tool) in s.requests
    requires t.requests == s.requests - {Add(n, session, tool)}
    ensures !Asked(t, n)
  {
  }

  lemma {:induction false} RefuseKeeps(me: Generation, s: State, n: nat, session: string, tool: Tool)
    requires Inv(me, s) && Add(n, session, tool) in s.requests
    ensures Inv(me, StepServe(s, Add(n, session, tool), true))
  {
    var t := StepServe(s, Add(n, session, tool), true);
    assert FunctionOk(me, s, n) && Asked(s, n);
    ServedAddIsTheOnly(s, t, n, session, tool);
    ServeKeeps(me, s, t, n);
  }

  /** The new admission is the only one for its function, and none for another. */
  lemma {:induction false} AdmittedServes(me: Generation, tools: Tools, session: string, tool: Tool, n: nat)
    requires Consistent(tools) && tool.invoke == Handler(me, n) && Admit(tools, session, tool).Ok?
    ensures var after := Admit(tools, session, tool).value;
            && (Unserved(me, tools, n) ==> OnlyAt(me, after, n, NextId(tools, tool)))
            && (forall id, other: nat :: other != n && Serves(me, after, id, other) ==> Serves(me, tools, id, other))
  {
    NextIdIsNew(tools, tool);
    var after := Admit(tools, session, tool).value;
    forall id, other: nat | other != n && Serves(me, after, id, other)
      ensures Serves(me, tools, id, other)
    {
      if Handler(me, other) == Handler(me, n) {
        HandlersDiffer(me, other, n);
      }
    }
    forall id | Unserved(me, tools, n) && Serves(me, after, id, n)
      ensures id == NextId(tools, tool)
    {
      assert !Serves(me, tools, id, n);
    }
  }

  lemma {:induction false} AdmittingKeeps(me: Generation, s: State, n: nat, session: string, tool: Tool)
    requires Inv(me, s) && Add(n, session, tool) in s.requests && Admissible(s, session, tool)
    ensures Inv(me, StepServe(s, Add(n, session, tool), false))
  {
    AdmitKeepsConsistent(s.tools, session, tool);
    AdmittedServes(me, s.tools, session, tool, n);
    AdmittingOk(me, s, n, session, tool);
    ServeKeeps(me, s, StepServe(s, Add(n, session, tool), false), n);
  }

  lemma {:induction false} AdmittingOk(me: Generation, s: State, n: nat, session: string, tool: Tool)
    requires Inv(me, s) && Add(n, session, tool) in s.requests && Admissible(s, session, tool)
    ensures FunctionOk(me, StepServe(s, Add(n, session, tool), false), n)
  {
    var t := StepServe(s, Add(n, session, tool), false);
    assert FunctionOk(me, s, n) && Asked(s, n);
    AdmittedServes(me, s.tools, session, tool, n);
    ServedAddIsTheOnly(s, t, n, session, tool);
  }

  lemma {:induction false} ServeAddKeeps(me: Generation, s: State, n: nat, session: string, tool: Tool, refused: bool)
    requires Inv(me, s) && Add(n, session, tool) in s.requests
    ensures Inv(me, StepServe(s, Add(n, session, tool), refused))
  {
    if refused || !Admissible(s, session, tool) {
      RefuseKeeps(me, s, n, session, tool);
    } else {
      AdmittingKeeps(me, s, n, session, tool);
    }
  }

  lemma {:induction false} RemovedServes(me: Generation, tools: Tools, id: AdmissionId, n: nat)
    requires Consistent(tools) && id in tools.byId
    ensures forall other, m: nat :: Serves(me, Remove(tools, id), other, m) ==> Serves(me, tools, other, m)
    ensures OnlyAt(me, tools, n, id) ==> Unserved(me, Remove(tools, id), n)
  {
    forall other | OnlyAt(me, tools, n, id)
      ensures !Serves(me, Remove(tools, id), other, n)
    {
      assert Serves(me, tools, other, n) ==> other == id;
    }
  }

  lemma {:induction false} RemovalKeeps(me: Generation, s: State, n: nat, session: string, id: AdmissionId, refused: bool)
    requires Inv(me, s) && Stop(n, session, id) in s.requests && Removable(s, session, id)
    ensures Inv(me, StepServe(s, Stop(n, session, id), refused))
  {
    RemoveKeepsConsistent(s.tools, id);
    RemovedServes(me, s.tools, id, n);
    RemovalOk(me, s, n, session, id, refused);
    ServeKeeps(me, s, StepServe(s, Stop(n, session, id), refused), n);
  }

  lemma {:induction false} RemovalOk(me: Generation, s: State, n: nat, session: string, id: AdmissionId, refused: bool)
    requires Inv(me, s) && Stop(n, session, id) in s.requests && Removable(s, session, id)
    ensures FunctionOk(me, StepServe(s, Stop(n, session, id), refused), n)
  {
    var t := StepServe(s, Stop(n, session, id), refused);
    assert FunctionOk(me, s, n);
    RemovedServes(me, s.tools, id, n);
    assert forall other :: Serves(me, t.tools, other, n) ==> Serves(me, s.tools, other, n);
  }

  lemma {:induction false} NoRemovalKeeps(me: Generation, s: State, n: nat, session: string, id: AdmissionId, refused: bool)
    requires Inv(me, s) && Stop(n, session, id) in s.requests && !Removable(s, session, id)
    ensures Inv(me, StepServe(s, Stop(n, session, id), refused))
  {
    var t := StepServe(s, Stop(n, session, id), refused);
    assert FunctionOk(me, s, n) && t.tools == s.tools;
    ServeKeeps(me, s, t, n);
  }

  lemma {:induction false} ServeStopKeeps(me: Generation, s: State, n: nat, session: string, id: AdmissionId, refused: bool)
    requires Inv(me, s) && Stop(n, session, id) in s.requests
    ensures Inv(me, StepServe(s, Stop(n, session, id), refused))
  {
    if Removable(s, session, id) {
      RemovalKeeps(me, s, n, session, id, refused);
    } else {
      NoRemovalKeeps(me, s, n, session, id, refused);
    }
  }

  lemma {:induction false} ServeExplicitKeeps(me: Generation, s: State, session: string, id: AdmissionId, refused: bool)
    requires Inv(me, s)
    ensures Inv(me, StepServe(s, Explicit(session, id), refused))
  {
    var t := StepServe(s, Explicit(session, id), refused);
    if Removable(s, session, id) {
      RemoveKeepsConsistent(s.tools, id);
    }
    forall n: nat
      ensures FunctionOk(me, t, n)
    {
      NoNewsIsFine(me, s, t, n);
    }
  }

  lemma {:induction false} StepKeeps(me: Generation, s: State, action: Action)
    requires Inv(me, s)
    ensures Inv(me, Step(me, s, action))
  {
    match action
    case Register(session, callable, input, output, sent) => RegisterKeeps(me, s, session, callable, input, output, sent);
    case PollRegistration(n, reply) =>
      if n in s.phases && s.phases[n].Waiting? && reply in s.replies {
        AnswerKeeps(me, s, n, reply);
      }
    case CallStop(n) =>
      if n in s.phases && s.phases[n].Holding? {
        CallStopKeeps(me, s, n);
      }
    case PollStop(n, reply) =>
      if n in s.phases && s.phases[n].Stopping? && reply in s.replies {
        StopAnswerKeeps(me, s, n, reply);
      }
    case PollFailed(n) =>
      if !s.live && n in s.phases {
        FailedKeeps(me, s, n);
      }
    case RemoveExplicitly(session, id) => QuietKeeps(me, s, Step(me, s, action));
    case Serve(request, refused) =>
      if request in s.requests {
        match request
        case Add(n, session, tool) => ServeAddKeeps(me, s, n, session, tool, refused);
        case Stop(n, session, id) => ServeStopKeeps(me, s, n, session, id, refused);
        case Explicit(session, id) => ServeExplicitKeeps(me, s, session, id, refused);
      }
    case OtherAdmits(session, tool) =>
      if tool.invoke.generation != me && Admissible(s, session, tool) {
        OtherAdmitsKeeps(me, s, session, tool);
      }
    case OtherRemoves(session, id) =>
      if Removable(s, session, id) {
        RemoveKeepsConsistent(s.tools, id);
        ToolsShrink(me, s, Removing(s, id));
      }
    case Retire(generation) =>
      RetireKeepsConsistent(s.tools, generation);
      ToolsShrink(me, s, Step(me, s, action));
    case Disconnect => QuietKeeps(me, s, Step(me, s, action));
  }

  /** Explicit removal requests and the loss of the connection are no news for any function. */
  lemma {:induction false} QuietKeeps(me: Generation, s: State, t: State)
    requires Inv(me, s) && t.tools == s.tools && t.next == s.next && t.replies == s.replies && t.phases == s.phases
    requires t.entries == s.entries && (t.live ==> s.live)
    requires forall request :: request in t.requests ==> request in s.requests || request.Explicit?
    ensures Inv(me, t)
  {
    forall n: nat
      ensures FunctionOk(me, t, n)
    {
      NoNewsIsFine(me, s, t, n);
    }
  }

  lemma {:induction false} RunKeeps(me: Generation, s: State, actions: seq<Action>)
    requires Inv(me, s)
    ensures Inv(me, Run(me, s, actions))
    decreases |actions|
  {
    if actions != [] {
      StepKeeps(me, s, actions[0]);
      RunKeeps(me, Step(me, s, actions[0]), actions[1..]);
    }
  }

  lemma {:induction false} StartOk(me: Generation)
    ensures Inv(me, Start())
  {
  }

  // ---------------------------------------------------------------- the registered handlers of the client

  /** Some admission goes through the handler. */
  predicate Routed(tools: Tools, key: Key) {
    exists id :: id in tools.byId && KeyOf(tools.byId[id].tool.invoke) == key
  }

  /** The client's admissions are of its lifted functions, and each is served at its schema. */
  ghost predicate ServedAtSchema(me: Generation, s: State) {
    forall id :: id in s.tools.byId && GenerationOf(s.tools.byId[id]) == me ==>
      ServedHere(s.registry, s.tools.byId[id].tool)
  }

  predicate ServedHere(registry: Registry, tool: Tool) {
    && tool.invoke.contract == HANDLER
    && KeyOf(tool.invoke) in registry.entries && registry.entries[KeyOf(tool.invoke)] == CallableSchema(tool)
  }

  ghost predicate RoutesOk(me: Generation, s: State) {
    && (forall key :: key in s.registry.entries && key.generation == me ==> Routed(s.tools, key))
    && (forall key :: key in s.registry.entries ==> key.generation !in s.registry.retired)
    && ServedAtSchema(me, s)
  }

  lemma {:induction false} AdmittingRoutes(me: Generation, s: State, session: string, tool: Tool)
    requires RoutesOk(me, s) && Consistent(s.tools) && Admissible(s, session, tool)
    requires tool.invoke.generation == me ==> tool.invoke.contract == HANDLER
    ensures RoutesOk(me, Admitting(s, session, tool))
  {
    var t := Admitting(s, session, tool);
    forall key | key in t.registry.entries && key.generation == me
      ensures Routed(t.tools, key)
    {
      AdmittingRoutesKey(me, s, session, tool, key);
    }
    AdmittingServes(me, s, session, tool);
  }

  lemma {:induction false} AdmittingRoutesKey(me: Generation, s: State, session: string, tool: Tool, key: Key)
    requires RoutesOk(me, s) && Consistent(s.tools) && Admissible(s, session, tool)
    requires key in Admitting(s, session, tool).registry.entries && key.generation == me
    ensures Routed(Admitting(s, session, tool).tools, key)
  {
    NextIdIsNew(s.tools, tool);
    var t, added := Admitting(s, session, tool), NextId(s.tools, tool);
    if key == KeyOf(tool.invoke) {
      assert added in t.tools.byId && KeyOf(t.tools.byId[added].tool.invoke) == key;
    } else {
      StaysRouted(s.tools, t.tools, key, added);
    }
  }

  lemma {:induction false} AdmittingServes(me: Generation, s: State, session: string, tool: Tool)
    requires RoutesOk(me, s) && Admissible(s, session, tool)
    requires tool.invoke.generation == me ==> tool.invoke.contract == HANDLER
    ensures ServedAtSchema(me, Admitting(s, session, tool))
  {
    var t, added := Admitting(s, session, tool), NextId(s.tools, tool);
    forall id | id in t.tools.byId && GenerationOf(t.tools.byId[id]) == me
      ensures ServedHere(t.registry, t.tools.byId[id].tool)
    {
      assert id != added ==> id in s.tools.byId && t.tools.byId[id] == s.tools.byId[id];
      assert id != added ==> ServedHere(s.registry, t.tools.byId[id].tool);
    }
  }

  lemma {:induction false} StaysRouted(tools: Tools, later: Tools, key: Key, changed: AdmissionId)
    requires Routed(tools, key)
    requires forall id :: id in tools.byId && id != changed ==> id in later.byId && later.byId[id] == tools.byId[id]
    requires changed in tools.byId ==> KeyOf(tools.byId[changed].tool.invoke) != key
    ensures Routed(later, key)
  {
    var id :| id in tools.byId && KeyOf(tools.byId[id].tool.invoke) == key;
    assert later.byId[id] == tools.byId[id];
  }

  lemma {:induction false} RemovingRoutes(me: Generation, s: State, id: AdmissionId)
    requires RoutesOk(me, s) && id in s.tools.byId
    ensures RoutesOk(me, Removing(s, id))
  {
    var t, invoke := Removing(s, id), s.tools.byId[id].tool.invoke;
    forall key | key in t.registry.entries && key.generation == me
      ensures Routed(t.tools, key)
    {
      if key != KeyOf(invoke) {
        StaysRouted(s.tools, t.tools, key, id);
      }
    }
    forall other | other in t.tools.byId && GenerationOf(t.tools.byId[other]) == me
      ensures ServedHere(t.registry, t.tools.byId[other].tool)
    {
      var tool := s.tools.byId[other].tool;
      assert ServedHere(s.registry, tool);
      assert KeyOf(tool.invoke) == KeyOf(invoke) ==> tool.invoke == invoke;
    }
  }

  lemma {:induction false} RetiringRoutes(me: Generation, s: State, generation: Generation)
    requires RoutesOk(me, s)
    ensures RoutesOk(me, Step(me, s, Retire(generation)))
  {
    var t := Step(me, s, Retire(generation));
    forall key | key in t.registry.entries && key.generation == me
      ensures Routed(t.tools, key)
    {
      var id :| id in s.tools.byId && KeyOf(s.tools.byId[id].tool.invoke) == key;
      assert t.tools.byId[id] == s.tools.byId[id];
    }
  }

  lemma {:induction false} ServeRoutes(me: Generation, s: State, request: Request, refused: bool)
    requires RoutesOk(me, s) && Consistent(s.tools) && request in s.requests
    requires request.Add? ==> request.tool.invoke == Handler(me, request.n)
    ensures RoutesOk(me, StepServe(s, request, refused))
  {
    match request
    case Add(n, session, tool) =>
      if !refused && Admissible(s, session, tool) {
        AdmittingRoutes(me, s, session, tool);
      }
    case Stop(_, session, id) =>
      if Removable(s, session, id) {
        RemovingRoutes(me, s, id);
      }
    case Explicit(session, id) =>
      if Removable(s, session, id) {
        RemovingRoutes(me, s, id);
      }
  }

  lemma {:induction false} StepRoutes(me: Generation, s: State, action: Action)
    requires RoutesOk(me, s) && Inv(me, s)
    ensures RoutesOk(me, Step(me, s, action))
  {
    match action
    case Serve(request, refused) =>
      if request in s.requests {
        ServeRoutes(me, s, request, refused);
      }
    case OtherAdmits(session, tool) =>
      if tool.invoke.generation != me && Admissible(s, session, tool) {
        AdmittingRoutes(me, s, session, tool);
      }
    case OtherRemoves(session, id) =>
      if Removable(s, session, id) {
        RemovingRoutes(me, s, id);
      }
    case Retire(generation) => RetiringRoutes(me, s, generation);
    case _ =>
  }

  lemma {:induction false} RunRoutes(me: Generation, s: State, actions: seq<Action>)
    requires RoutesOk(me, s) && Inv(me, s)
    ensures RoutesOk(me, Run(me, s, actions))
    decreases |actions|
  {
    if actions != [] {
      StepRoutes(me, s, actions[0]);
      StepKeeps(me, s, actions[0]);
      RunRoutes(me, Step(me, s, actions[0]), actions[1..]);
    }
  }

  // ---------------------------------------------------------------- what every run gives

  /** While the connection lives, every admission of a handler the client registered finds that handler. */
  lemma {:induction false} AdmittedHandlersAreHeld(me: Generation, actions: seq<Action>, id: AdmissionId, n: nat)
    ensures var s := Run(me, Start(), actions);
            s.live && Serves(me, s.tools, id, n) ==> n in s.entries
  {
    StartOk(me);
    RunKeeps(me, Start(), actions);
    assert FunctionOk(me, Run(me, Start(), actions), n);
  }

  /** A handler is dropped only on a refusal, an acknowledged removal or a failed connection. */
  lemma {:induction false} DroppedOnlyWhenUnserved(me: Generation, actions: seq<Action>, action: Action, n: nat)
    requires n in Run(me, Start(), actions).entries && n !in Step(me, Run(me, Start(), actions), action).entries
    ensures var s := Run(me, Start(), actions);
            || (action == PollRegistration(n, AddRefused(n)) && Unserved(me, s.tools, n))
            || (action == PollStop(n, Removed(n)) && Unserved(me, s.tools, n))
            || (action == PollFailed(n) && !s.live)
  {
    StartOk(me);
    RunKeeps(me, Start(), actions);
    assert FunctionOk(me, Run(me, Start(), actions), n);
  }

  /**
   * The whole way: while the connection lives, a handler of the client that the server has registered for a tool is
   * held by the client, and an admission that goes to it is served at exactly its schema.
   */
  lemma {:induction false} RegisteredHandlersAreHeld(me: Generation, actions: seq<Action>, n: nat)
    ensures var s := Run(me, Start(), actions);
            && (s.live && KeyOf(Handler(me, n)) in s.registry.entries ==> n in s.entries)
            && forall id :: Serves(me, s.tools, id, n) ==>
                 SchemaOf(s.registry, Handler(me, n)) == Ok(CallableSchema(s.tools.byId[id].tool))
  {
    StartOk(me);
    RunRoutes(me, Start(), actions);
    var s := Run(me, Start(), actions);
    if KeyOf(Handler(me, n)) in s.registry.entries {
      var id :| id in s.tools.byId && KeyOf(s.tools.byId[id].tool.invoke) == KeyOf(Handler(me, n));
      assert GenerationOf(s.tools.byId[id]) == me;
      AdmittedHandlersAreHeld(me, actions, id, n);
    }
  }

  /**
   * When an admission is stranded: in every run, the function that an admission goes to is gone from the client if
   * and only if its registration was rejected, and then the connection is lost.
   */
  lemma {:induction false} StrandedIff(me: Generation, actions: seq<Action>, id: AdmissionId, n: nat)
    ensures var s := Run(me, Start(), actions);
            Serves(me, s.tools, id, n) ==>
              && (n !in s.entries <==> n in s.phases && s.phases[n].Rejected?)
              && (n !in s.entries ==> !s.live)
  {
    StartOk(me);
    RunKeeps(me, Start(), actions);
    assert FunctionOk(me, Run(me, Start(), actions), n);
  }

  /** A lost connection can strand an admission: its registration fails while the server still serves it. */
  lemma {:induction false} LostReplyStrands(me: Generation, s: State, id: AdmissionId, n: nat)
    requires n in s.phases && s.phases[n].Waiting? && Serves(me, s.tools, id, n)
    ensures var t := Run(me, s, [Disconnect, PollFailed(n)]);
            n !in t.entries && Serves(me, t.tools, id, n)
            && Unserved(me, Run(me, s, [Disconnect, PollFailed(n), Retire(me)]).tools, n)
  {
    var s1 := Step(me, s, Disconnect);
    var s2 := Step(me, s1, PollFailed(n));
    assert [Disconnect, PollFailed(n)][1..] == [PollFailed(n)] && [PollFailed(n)][1..] == [];
    assert Run(me, s1, [PollFailed(n)]) == s2;
    assert [Disconnect, PollFailed(n), Retire(me)][1..] == [PollFailed(n), Retire(me)];
    assert [PollFailed(n), Retire(me)][1..] == [Retire(me)] && [Retire(me)][1..] == [];
    assert Run(me, s2, [Retire(me)]) == Step(me, s2, Retire(me));
    assert Run(me, s1, [PollFailed(n), Retire(me)]) == Run(me, s2, [Retire(me)]);
  }

  /** The tool that the client's first registration offers. */
  function FirstTool(me: Generation): Tool {
    Tool("t", Unit, Unit, Handler(me, 1))
  }

  /** Admitted, but the connection is lost before the answer is seen. */
  function StrandingRun(me: Generation): seq<Action> {
    [Register("s", "t", Unit, Unit, true), Serve(Add(1, "s", FirstTool(me)), false), Disconnect, PollFailed(1)]
  }

  lemma {:induction false} FirstAdmission(me: Generation)
    ensures var s := Step(me, Step(me, Start(), Register("s", "t", Unit, Unit, true)), Serve(Add(1, "s", FirstTool(me)), false));
            && s.phases == map[1 := Waiting("s")]
            && Serves(me, s.tools, NextId(Start().tools, FirstTool(me)), 1)
  {
    var s1 := Step(me, Start(), Register("s", "t", Unit, Unit, true));
    var tool := FirstTool(me);
    assert s1.requests == {Add(1, "s", tool)};
    assert Admissible(s1, "s", tool);
  }

  /** From the start, four steps strand an admission. */
  lemma {:induction false} StrandingHappens(me: Generation)
    ensures var s := Run(me, Start(), StrandingRun(me));
            exists id :: Serves(me, s.tools, id, 1) && 1 !in s.entries
  {
    var a, b := Register("s", "t", Unit, Unit, true), Serve(Add(1, "s", FirstTool(me)), false);
    var s2 := Step(me, Step(me, Start(), a), b);
    FirstAdmission(me);
    LostReplyStrands(me, s2, NextId(Start().tools, FirstTool(me)), 1);
    var rest := [Disconnect, PollFailed(1)];
    assert StrandingRun(me)[1..] == [b] + rest;
    assert ([b] + rest)[1..] == rest;
    assert Run(me, Step(me, Start(), a), [b] + rest) == Run(me, s2, rest);
    assert StrandingRun(me)[0] == a && Run(me, Start(), StrandingRun(me)) == Run(me, Step(me, Start(), a), [b] + rest);
    assert Serves(me, Run(me, Start(), StrandingRun(me)).tools, NextId(Start().tools, FirstTool(me)), 1);
  }
}
