/** The service's operations as interleaved atomic steps over the shared registry and the locked admissions. */
module AdmissionsRuns {
  import opened Wrappers
  import opened Schema
  import opened AdmissionsSpec

  /** Where an operation stands. The middle jobs of `Admit…` and `Remove…` hold the admission lock. */
  datatype Job =
    | Idle
    | AdmitWaiting(session: string, tool: Tool)
    | AdmitLocked(session: string, tool: Tool)
    | AdmitClash(session: string, tool: Tool)
    | AdmitReady(session: string, tool: Tool)
    | RemoveWaiting(session: string, id: AdmissionId)
    | RemoveTaken(invoke: Ref)
    | RemoveLast(invoke: Ref)
    | RetireStarting(generation: Generation)
    | RetireWaiting(generation: Generation)
    | LiftWaiting(invoke: Ref, schema: Type)
    | LiftClash(invoke: Ref, schema: Type)

  /** `finished` are the generations of which a retirement has run to its end. */
  datatype State = State(
    registry: Registry, tools: Tools, lock: Option<nat>, jobs: map<nat, Job>, finished: set<Generation>)

  function Start(): State {
    State(Registry(map[], {}), Tools(0, map[], map[], map[]), None, map[], {})
  }

  function JobOf(s: State, p: nat): Job {
    if p in s.jobs then s.jobs[p] else Idle
  }

  predicate HoldsLock(job: Job) {
    job.AdmitLocked? || job.AdmitClash? || job.AdmitReady? || job.RemoveTaken? || job.RemoveLast?
  }

  /** Process p is at a new job, with the lock taken if that job holds it and free otherwise. */
  function Move(s: State, p: nat, registry: Registry, tools: Tools, job: Job): State {
    State(registry, tools, if HoldsLock(job) then Some(p) else None, s.jobs[p := job], s.finished)
  }

  /** The same for a step outside the lock. */
  function MoveUnlocked(s: State, p: nat, registry: Registry, job: Job): State {
    State(registry, s.tools, s.lock, s.jobs[p := job], s.finished)
  }

  function Advance(s: State, p: nat): State {
    match JobOf(s, p)
    case Idle => s
    case AdmitWaiting(session, tool) =>
      if s.lock.Some? then s
      else if Admitted(s.tools, Place(session, tool.callable)).Some? then Move(s, p, s.registry, s.tools, Idle)
      else Move(s, p, s.registry, s.tools, AdmitLocked(session, tool))
    case AdmitLocked(session, tool) => AdvanceRegister(s, p, session, tool)
    case AdmitClash(session, tool) =>
      Move(s, p, s.registry, s.tools,
           if SchemaOf(s.registry, tool.invoke) == Ok(CallableSchema(tool)) then AdmitReady(session, tool) else Idle)
    case AdmitReady(session, tool) =>
      var admitted := Admit(s.tools, session, tool);
      Move(s, p, s.registry, if admitted.Ok? then admitted.value else s.tools, Idle)
    case RemoveWaiting(session, id) =>
      if s.lock.Some? then s else AdvanceRemove(s, p, session, id)
    case RemoveTaken(invoke) =>
      Move(s, p, s.registry, s.tools, if ContainsInvoke(s.tools, invoke) then Idle else RemoveLast(invoke))
    case RemoveLast(invoke) => Move(s, p, Unregister(s.registry, invoke), s.tools, Idle)
    case RetireStarting(generation) =>
      MoveUnlocked(s, p, RetireHandlers(s.registry, generation), RetireWaiting(generation))
    case RetireWaiting(generation) =>
      if s.lock.Some? then s
      else State(s.registry, RetireTools(s.tools, generation), None, s.jobs[p := Idle], s.finished + {generation})
    case LiftWaiting(invoke, schema) => AdvanceLift(s, p, invoke, schema)
    case LiftClash(_, _) => MoveUnlocked(s, p, s.registry, Idle)
  }

  function AdvanceRegister(s: State, p: nat, session: string, tool: Tool): State {
    match Register(s.registry, tool.invoke, CallableSchema(tool))
    case Ok(registry) => Move(s, p, registry, s.tools, AdmitReady(session, tool))
    case Err(refusal) =>
      Move(s, p, s.registry, s.tools, if refusal == Duplicate then AdmitClash(session, tool) else Idle)
  }

  function AdvanceRemove(s: State, p: nat, session: string, id: AdmissionId): State {
    match RemoveFromSession(s.tools, session, id)
    case Ok((admission, tools)) => Move(s, p, s.registry, tools, RemoveTaken(admission.tool.invoke))
    case Err(_) => Move(s, p, s.registry, s.tools, Idle)
  }

  function AdvanceLift(s: State, p: nat, invoke: Ref, schema: Type): State {
    match Register(s.registry, invoke, schema)
    case Ok(registry) => MoveUnlocked(s, p, registry, Idle)
    case Err(refusal) => MoveUnlocked(s, p, s.registry, if refusal == Duplicate then LiftClash(invoke, schema) else Idle)
  }

  /**
   * A request begins in an idle process, a process makes its next atomic step, or the providers, which are not
   * clients, register, unregister and retire handlers of their own.
   */
  datatype Action =
    | Begin(p: nat, job: Job)
    | Go(p: nat)
    | Provide(r: Ref, schema: Type)
    | Withdraw(r: Ref)
    | RetireProvider(generation: Generation)

  /** What a request may be: a client speaks for its own callables only. */
  predicate IsRequest(job: Job) {
    match job
    case AdmitWaiting(_, tool) => tool.invoke.generation.owner.Client?
    case RemoveWaiting(_, _) => true
    case RetireStarting(_) => true
    case LiftWaiting(invoke, _) => invoke.generation.owner.Client?
    case _ => false
  }

  function Step(s: State, action: Action): State {
    match action
    case Begin(p, job) =>
      if JobOf(s, p).Idle? && IsRequest(job) then MoveUnlocked(s, p, s.registry, job) else s
    case Go(p) => Advance(s, p)
    case Provide(r, schema) =>
      var registered := Register(s.registry, r, schema);
      if r.generation.owner.Provider? && registered.Ok? then
        State(registered.value, s.tools, s.lock, s.jobs, s.finished)
      else s
    case Withdraw(r) =>
      if r.generation.owner.Provider? then State(Unregister(s.registry, r), s.tools, s.lock, s.jobs, s.finished) else s
    case RetireProvider(generation) =>
      if generation.owner.Provider? then
        State(RetireHandlers(s.registry, generation), s.tools, s.lock, s.jobs, s.finished)
      else s
  }

  function Run(s: State, actions: seq<Action>): State
    decreases |actions|
  {
    if actions == [] then s else Run(Step(s, actions[0]), actions[1..])
  }

  // ---------------------------------------------------------------- the invariant

  /** The tool's handler is registered with exactly its callable schema, unless its generation is retired. */
  predicate Covered(registry: Registry, tool: Tool) {
    tool.invoke.generation in registry.retired
    || (KeyOf(tool.invoke) in registry.entries && registry.entries[KeyOf(tool.invoke)] == CallableSchema(tool))
  }

  ghost predicate Agree(registry: Registry, tools: Tools) {
    forall id :: id in tools.byId ==>
      Covered(registry, tools.byId[id].tool) && GenerationOf(tools.byId[id]).owner.Client?
  }

  ghost predicate Clean(registry: Registry) {
    forall key :: key in registry.entries ==> key.generation !in registry.retired
  }

  /** No live admission goes through this handler. */
  ghost predicate Unused(registry: Registry, tools: Tools, r: Ref) {
    forall id :: id in tools.byId && KeyOf(tools.byId[id].tool.invoke) == KeyOf(r) ==> r.generation in registry.retired
  }

  /** The reference's contract is the registered one. */
  predicate Genuine(registry: Registry, r: Ref) {
    r.generation in registry.retired
    || (KeyOf(r) in registry.entries && registry.entries[KeyOf(r)].Callable?
        && registry.entries[KeyOf(r)].contract == r.contract)
  }

  ghost predicate JobOk(s: State, job: Job) {
    match job
    case AdmitWaiting(_, tool) => tool.invoke.generation.owner.Client?
    case AdmitLocked(session, tool) =>
      tool.invoke.generation.owner.Client? && Place(session, tool.callable) !in s.tools.byPlace
    case AdmitClash(session, tool) =>
      tool.invoke.generation.owner.Client? && Place(session, tool.callable) !in s.tools.byPlace
    case AdmitReady(session, tool) =>
      && tool.invoke.generation.owner.Client? && Place(session, tool.callable) !in s.tools.byPlace
      && Covered(s.registry, tool) && tool.invoke.generation !in s.finished
    case RemoveTaken(invoke) => invoke.generation.owner.Client? && Genuine(s.registry, invoke)
    case RemoveLast(invoke) => invoke.generation.owner.Client? && Unused(s.registry, s.tools, invoke)
    case RetireWaiting(generation) => generation in s.registry.retired
    case LiftWaiting(invoke, _) => invoke.generation.owner.Client?
    case _ => true
  }

  ghost predicate LockOk(s: State) {
    forall p: nat :: HoldsLock(JobOf(s, p)) <==> s.lock == Some(p)
  }

  ghost predicate JobsOk(s: State) {
    forall p: nat :: JobOk(s, JobOf(s, p))
  }

  ghost predicate FinishedOk(s: State) {
    && s.finished <= s.registry.retired
    && forall id :: id in s.tools.byId ==> GenerationOf(s.tools.byId[id]) !in s.finished
  }

  ghost predicate Inv(s: State) {
    LockOk(s) && JobsOk(s) && FinishedOk(s) && Consistent(s.tools) && Agree(s.registry, s.tools) && Clean(s.registry)
  }

  // ---------------------------------------------------------------- one step keeps it

  /** Registry changes that neither touch a client's handler nor forget a retirement. */
  ghost predicate Widens(a: Registry, b: Registry) {
    && a.retired <= b.retired
    && (forall key :: key in a.entries && key.generation.owner.Client? && key.generation !in b.retired ==>
          key in b.entries && b.entries[key] == a.entries[key])
  }

  lemma {:induction false} RegisterWidens(registry: Registry, r: Ref, schema: Type)
    requires Clean(registry) && Register(registry, r, schema).Ok?
    ensures Widens(registry, Register(registry, r, schema).value) && Clean(Register(registry, r, schema).value)
  {
  }

  lemma {:induction false} RetireWidens(registry: Registry, generation: Generation)
    requires Clean(registry)
    ensures Widens(registry, RetireHandlers(registry, generation)) && Clean(RetireHandlers(registry, generation))
  {
  }

  /** A wider registry is fine for every job and every admission. */
  lemma {:induction false} WidenKeeps(s: State, t: State, job: Job)
    requires Widens(s.registry, t.registry) && t.tools == s.tools && t.finished == s.finished
    requires JobOk(s, job)
    ensures JobOk(t, job)
  {
  }

  lemma {:induction false} WidenAgrees(a: Registry, b: Registry, tools: Tools)
    requires Widens(a, b) && Agree(a, tools)
    ensures Agree(b, tools)
  {
  }

  /** A step outside the lock that only widens the registry and moves p to a job that is in order. */
  lemma {:induction false} UnlockedKeeps(s: State, p: nat, registry: Registry, job: Job)
    requires Inv(s) && Widens(s.registry, registry) && Clean(registry)
    requires !HoldsLock(JobOf(s, p)) && !HoldsLock(job)
    requires JobOk(MoveUnlocked(s, p, registry, job), job)
    ensures Inv(MoveUnlocked(s, p, registry, job))
  {
    var t := MoveUnlocked(s, p, registry, job);
    WidenAgrees(s.registry, registry, s.tools);
    forall q: nat
      ensures JobOk(t, JobOf(t, q)) && (HoldsLock(JobOf(t, q)) <==> t.lock == Some(q))
    {
      assert HoldsLock(JobOf(s, q)) <==> s.lock == Some(q);
      assert HoldsLock(JobOf(s, p)) <==> s.lock == Some(p);
      if q != p {
        assert JobOf(t, q) == JobOf(s, q);
        WidenKeeps(s, t, JobOf(s, q));
      }
    }
  }

  /** The jobs of the processes that do not hold the lock depend on retirement only. */
  lemma {:induction false} WaitingStaysOk(s: State, t: State, job: Job)
    requires JobOk(s, job) && !HoldsLock(job) && s.registry.retired <= t.registry.retired
    ensures JobOk(t, job)
  {
  }

  /** A step by the process that holds the lock, or takes it. */
  lemma {:induction false} LockedKeeps(s: State, p: nat, t: State, job: Job)
    requires Inv(s) && (s.lock == Some(p) || s.lock == None)
    requires t.jobs == s.jobs[p := job] && t.lock == if HoldsLock(job) then Some(p) else None
    requires s.registry.retired <= t.registry.retired
    requires JobOk(t, job) && FinishedOk(t) && Consistent(t.tools) && Agree(t.registry, t.tools) && Clean(t.registry)
    ensures Inv(t)
  {
    forall q: nat
      ensures JobOk(t, JobOf(t, q)) && (HoldsLock(JobOf(t, q)) <==> t.lock == Some(q))
    {
      assert HoldsLock(JobOf(s, q)) <==> s.lock == Some(q);
      if q != p {
        assert JobOf(t, q) == JobOf(s, q);
        assert JobOk(s, JobOf(s, q));
        WaitingStaysOk(s, t, JobOf(s, q));
      }
    }
  }

  lemma {:induction false} AdmitKeeps(s: State, p: nat)
    requires Inv(s)
    requires var job := JobOf(s, p); job.AdmitWaiting? || job.AdmitLocked? || job.AdmitClash?
    ensures Inv(Advance(s, p))
  {
    var job, t := JobOf(s, p), Advance(s, p);
    assert JobOk(s, job) && (HoldsLock(job) <==> s.lock == Some(p));
    if t != s {
      match job
      case AdmitWaiting(session, tool) =>
        AdmittedIsTheOne(s.tools, AdmissionId("", 0), Place(session, tool.callable));
        LockedKeeps(s, p, t, JobOf(t, p));
      case AdmitLocked(session, tool) =>
        var registered := Register(s.registry, tool.invoke, CallableSchema(tool));
        if registered.Ok? {
          RegisterWidens(s.registry, tool.invoke, CallableSchema(tool));
          WidenAgrees(s.registry, registered.value, s.tools);
        }
        LockedKeeps(s, p, t, JobOf(t, p));
      case AdmitClash(session, tool) => LockedKeeps(s, p, t, JobOf(t, p));
    }
  }

  lemma {:induction false} CommitKeeps(s: State, p: nat)
    requires Inv(s) && JobOf(s, p).AdmitReady?
    ensures Inv(Advance(s, p))
  {
    var job, t := JobOf(s, p), Advance(s, p);
    assert JobOk(s, job) && (HoldsLock(job) <==> s.lock == Some(p));
    AdmitKeepsConsistent(s.tools, job.session, job.tool);
    LockedKeeps(s, p, t, Idle);
  }

  lemma {:induction false} RemoveKeeps(s: State, p: nat)
    requires Inv(s)
    requires var job := JobOf(s, p); job.RemoveWaiting? || job.RemoveTaken?
    ensures Inv(Advance(s, p))
  {
    var job, t := JobOf(s, p), Advance(s, p);
    assert JobOk(s, job) && (HoldsLock(job) <==> s.lock == Some(p));
    if t != s {
      match job
      case RemoveWaiting(session, id) =>
        if RemoveFromSession(s.tools, session, id).Ok? {
          RemoveKeepsConsistent(s.tools, id);
        }
        LockedKeeps(s, p, t, JobOf(t, p));
      case RemoveTaken(invoke) =>
        if !ContainsInvoke(s.tools, invoke) {
          LastIsUnused(s.registry, s.tools, invoke);
        }
        LockedKeeps(s, p, t, JobOf(t, p));
    }
  }

  /** Live admissions that share a handler share the whole reference, contract included. */
  lemma {:induction false} LastIsUnused(registry: Registry, tools: Tools, r: Ref)
    requires Agree(registry, tools) && Genuine(registry, r) && !ContainsInvoke(tools, r)
    ensures Unused(registry, tools, r)
  {
    forall id | id in tools.byId && KeyOf(tools.byId[id].tool.invoke) == KeyOf(r)
      ensures r.generation in registry.retired
    {
      var tool := tools.byId[id].tool;
      assert Covered(registry, tool) && tool.invoke != r;
    }
  }

  lemma {:induction false} UnregisterKeeps(s: State, p: nat)
    requires Inv(s) && JobOf(s, p).RemoveLast?
    ensures Inv(Advance(s, p))
  {
    var job, t := JobOf(s, p), Advance(s, p);
    assert JobOk(s, job) && (HoldsLock(job) <==> s.lock == Some(p));
    UnregisterAgrees(s.registry, s.tools, job.invoke);
    LockedKeeps(s, p, t, Idle);
  }

  /** Taking away a handler that no live admission uses. */
  lemma {:induction false} UnregisterAgrees(registry: Registry, tools: Tools, r: Ref)
    requires Agree(registry, tools) && Clean(registry) && Unused(registry, tools, r)
    ensures Agree(Unregister(registry, r), tools) && Clean(Unregister(registry, r))
  {
    forall id | id in tools.byId
      ensures Covered(Unregister(registry, r), tools.byId[id].tool)
    {
      assert Covered(registry, tools.byId[id].tool);
    }
  }

  lemma {:induction false} RetireKeeps(s: State, p: nat)
    requires Inv(s)
    requires var job := JobOf(s, p); job.RetireStarting? || job.RetireWaiting?
    ensures Inv(Advance(s, p))
  {
    var job, t := JobOf(s, p), Advance(s, p);
    assert JobOk(s, job) && (HoldsLock(job) <==> s.lock == Some(p));
    if t != s {
      match job
      case RetireStarting(generation) =>
        RetireWidens(s.registry, generation);
        UnlockedKeeps(s, p, t.registry, RetireWaiting(generation));
      case RetireWaiting(generation) =>
        RetireKeepsConsistent(s.tools, generation);
        LockedKeeps(s, p, t, Idle);
    }
  }

  lemma {:induction false} LiftKeeps(s: State, p: nat)
    requires Inv(s)
    requires var job := JobOf(s, p); job.LiftWaiting? || job.LiftClash?
    ensures Inv(Advance(s, p))
  {
    var job, t := JobOf(s, p), Advance(s, p);
    assert JobOk(s, job) && (HoldsLock(job) <==> s.lock == Some(p));
    if job.LiftWaiting? && Register(s.registry, job.invoke, job.schema).Ok? {
      RegisterWidens(s.registry, job.invoke, job.schema);
    }
    UnlockedKeeps(s, p, t.registry, JobOf(t, p));
  }

  lemma {:induction false} ProvidersKeep(s: State, registry: Registry)
    requires Inv(s) && Widens(s.registry, registry) && Clean(registry)
    ensures Inv(State(registry, s.tools, s.lock, s.jobs, s.finished))
  {
    var t := State(registry, s.tools, s.lock, s.jobs, s.finished);
    WidenAgrees(s.registry, registry, s.tools);
    forall q: nat
      ensures JobOk(t, JobOf(t, q)) && (HoldsLock(JobOf(t, q)) <==> t.lock == Some(q))
    {
      assert HoldsLock(JobOf(s, q)) <==> s.lock == Some(q);
      assert JobOf(t, q) == JobOf(s, q);
      WidenKeeps(s, t, JobOf(s, q));
    }
  }

  lemma {:induction false} StepKeeps(s: State, action: Action)
    requires Inv(s)
    ensures Inv(Step(s, action))
  {
    match action
    case Begin(p, job) =>
      if JobOf(s, p).Idle? && IsRequest(job) {
        UnlockedKeeps(s, p, s.registry, job);
      }
    case Go(p) =>
      match JobOf(s, p) {
        case Idle =>
        case AdmitWaiting(_, _) => AdmitKeeps(s, p);
        case AdmitLocked(_, _) => AdmitKeeps(s, p);
        case AdmitClash(_, _) => AdmitKeeps(s, p);
        case AdmitReady(_, _) => CommitKeeps(s, p);
        case RemoveWaiting(_, _) => RemoveKeeps(s, p);
        case RemoveTaken(_) => RemoveKeeps(s, p);
        case RemoveLast(_) => UnregisterKeeps(s, p);
        case RetireStarting(_) => RetireKeeps(s, p);
        case RetireWaiting(_) => RetireKeeps(s, p);
        case LiftWaiting(_, _) => LiftKeeps(s, p);
        case LiftClash(_, _) => LiftKeeps(s, p);
      }
    case Provide(r, schema) =>
      if Register(s.registry, r, schema).Ok? {
        RegisterWidens(s.registry, r, schema);
        ProvidersKeep(s, Register(s.registry, r, schema).value);
      }
    case Withdraw(r) =>
      if r.generation.owner.Provider? {
        ProvidersKeep(s, Unregister(s.registry, r));
      }
    case RetireProvider(generation) =>
      RetireWidens(s.registry, generation);
      ProvidersKeep(s, RetireHandlers(s.registry, generation));
  }

  lemma {:induction false} RunKeeps(s: State, actions: seq<Action>)
    requires Inv(s)
    ensures Inv(Run(s, actions))
    decreases |actions|
  {
    if actions != [] {
      StepKeeps(s, actions[0]);
      RunKeeps(Step(s, actions[0]), actions[1..]);
    }
  }

  lemma {:induction false} StartOk()
    ensures Inv(Start())
  {
  }

  // ---------------------------------------------------------------- what every run gives

  /** Finished retirements stay finished. */
  lemma {:induction false} FinishedGrows(s: State, actions: seq<Action>)
    ensures s.finished <= Run(s, actions).finished
    decreases |actions|
  {
    if actions != [] {
      FinishedGrows(Step(s, actions[0]), actions[1..]);
    }
  }

  lemma {:induction false} RunConcat(s: State, a: seq<Action>, b: seq<Action>)
    ensures Run(s, a + b) == Run(Run(s, a), b)
    decreases |a|
  {
    if a == [] {
      assert a + b == b;
    } else {
      assert (a + b)[1..] == a[1..] + b;
      RunConcat(Step(s, a[0]), a[1..], b);
    }
  }

  /** Once a retirement has run to its end, no later state has an admission or a handler of the generation. */
  lemma {:induction false} RetirementIsFinal(before: seq<Action>, after: seq<Action>, generation: Generation)
    requires generation in Run(Start(), before).finished
    ensures var s := Run(Start(), before + after);
            && (forall id :: id in s.tools.byId ==> GenerationOf(s.tools.byId[id]) != generation)
            && (forall key :: key in s.registry.entries ==> key.generation != generation)
            && (forall r: Ref, schema :: r.generation == generation ==> Register(s.registry, r, schema).Err?)
  {
    StartOk();
    RunConcat(Start(), before, after);
    RunKeeps(Start(), before + after);
    FinishedGrows(Run(Start(), before), after);
  }

  /** In every reachable state each live admission's handler is registered with exactly its callable schema. */
  lemma {:induction false} AdmissionsAreServed(actions: seq<Action>, place: Place)
    ensures var s := Run(Start(), actions);
            var admission := Admitted(s.tools, place);
            admission.Some? && GenerationOf(admission.value) !in s.registry.retired ==>
              SchemaOf(s.registry, admission.value.tool.invoke) == Ok(CallableSchema(admission.value.tool))
  {
    StartOk();
    RunKeeps(Start(), actions);
    var s := Run(Start(), actions);
    if place in s.tools.byPlace {
      assert Covered(s.registry, s.tools.byId[s.tools.byPlace[place]].tool);
    }
  }

  lemma {:induction false} StepKeepsSchema(s: State, action: Action, r: Ref)
    requires SchemaOf(s.registry, r).Ok?
    ensures SchemaOf(Step(s, action).registry, r) == SchemaOf(s.registry, r) || SchemaOf(Step(s, action).registry, r).Err?
  {
  }

  /** A registered schema is never replaced: to change, the handler must first be gone. */
  lemma {:induction false} SchemaIsNotReplaced(s: State, actions: seq<Action>, r: Ref)
    requires SchemaOf(s.registry, r).Ok?
    ensures || SchemaOf(Run(s, actions).registry, r) == SchemaOf(s.registry, r)
            || exists i :: 0 <= i <= |actions| && SchemaOf(Run(s, actions[..i]).registry, r).Err?
    decreases |actions|
  {
    if actions != [] {
      var s1 := Step(s, actions[0]);
      StepKeepsSchema(s, actions[0], r);
      assert actions[..1] == [actions[0]] && [actions[0]][1..] == [];
      assert Run(s, actions[..1]) == Run(s1, []) == s1;
      if SchemaOf(s1.registry, r).Ok? {
        SchemaIsNotReplaced(s1, actions[1..], r);
        if i :| 0 <= i <= |actions| - 1 && SchemaOf(Run(s1, actions[1..][..i]).registry, r).Err? {
          assert actions[..i + 1][1..] == actions[1..][..i];
          assert Run(s, actions[..i + 1]) == Run(s1, actions[1..][..i]);
        }
      }
    }
  }

  /**
   * The window of an invocation: it looks the admission up and lets the lock go, anything happens, and then the
   * registry looks the handler up. If the registry still has it, it has it at the schema that the input was checked
   * against, unless the handler was gone in between.
   */
  lemma {:induction false} InvocationWindow(before: seq<Action>, between: seq<Action>, place: Place)
    requires Admitted(Run(Start(), before).tools, place).Some?
    ensures var s := Run(Start(), before);
            var tool := Admitted(s.tools, place).value.tool;
            var found := SchemaOf(Run(s, between).registry, tool.invoke);
            || found == Ok(CallableSchema(tool))
            || exists i :: 0 <= i <= |between| && SchemaOf(Run(s, between[..i]).registry, tool.invoke).Err?
  {
    var s := Run(Start(), before);
    var tool := Admitted(s.tools, place).value.tool;
    AdmissionsAreServed(before, place);
    assert between[..0] == [] && Run(s, between[..0]) == s;
    if SchemaOf(s.registry, tool.invoke).Ok? {
      SchemaIsNotReplaced(s, between, tool.invoke);
    }
  }

  /** An admission that got as far as registering its handler is always admitted: nothing is left behind. */
  lemma {:induction false} RegisteredIsAdmitted(actions: seq<Action>, p: nat)
    ensures var s := Run(Start(), actions);
            var job := JobOf(s, p);
            job.AdmitReady? ==>
              && Admit(s.tools, job.session, job.tool).Ok?
              && Admitted(Advance(s, p).tools, Place(job.session, job.tool.callable))
                 == Some(Admission(job.session, job.tool))
  {
    StartOk();
    RunKeeps(Start(), actions);
    var s := Run(Start(), actions);
    assert JobOk(s, JobOf(s, p));
  }

  /** A step takes a client's live handler away only when the last admission that uses it has been removed. */
  lemma {:induction false} HandlerOutlivesAdmissions(actions: seq<Action>, action: Action, key: Key)
    requires var s := Run(Start(), actions);
             key in s.registry.entries && key.generation.owner.Client?
             && key !in Step(s, action).registry.entries
             && key.generation !in Step(s, action).registry.retired
    ensures var s := Run(Start(), actions);
            && action.Go? && JobOf(s, action.p).RemoveLast? && KeyOf(JobOf(s, action.p).invoke) == key
            && (forall id :: id in s.tools.byId ==> KeyOf(s.tools.byId[id].tool.invoke) != key)
  {
    StartOk();
    RunKeeps(Start(), actions);
    var s := Run(Start(), actions);
    if action.Go? {
      assert JobOk(s, JobOf(s, action.p));
    }
  }

  /** A handle names one admission for good: gone, it never comes back, for this or for any other tool. */
  lemma {:induction false} HandlesAreNotReused(s: State, actions: seq<Action>, id: AdmissionId)
    requires id.n <= s.tools.next
    ensures id in Run(s, actions).tools.byId ==>
              id in s.tools.byId && Run(s, actions).tools.byId[id] == s.tools.byId[id]
    decreases |actions|
  {
    if actions != [] {
      HandlesAreNotReused(Step(s, actions[0]), actions[1..], id);
    }
  }
}
