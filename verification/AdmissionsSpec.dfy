/** The capability registry and the client tool admissions, as values. */
module AdmissionsSpec {
  import opened Wrappers
  import opened Schema

  datatype Owner = Client(name: string) | Provider(name: string)

  /** An owner with one of its generations. */
  datatype Generation = Generation(owner: Owner, id: string)

  datatype Ref = Ref(contract: string, generation: Generation, id: string)

  /** The registry does not look at a reference's contract. */
  datatype Key = Key(generation: Generation, id: string)

  function KeyOf(r: Ref): Key {
    Key(r.generation, r.id)
  }

  datatype Refusal = WrongSchema | Stale | Duplicate | Unknown

  // ---------------------------------------------------------------- the registry

  datatype Registry = Registry(entries: map<Key, Type>, retired: set<Generation>)

  function Register(registry: Registry, r: Ref, schema: Type): Result<Registry, Refusal> {
    if !schema.Callable? || r.contract != schema.contract then Err(WrongSchema)
    else if r.generation in registry.retired then Err(Stale)
    else if KeyOf(r) in registry.entries then Err(Duplicate)
    else Ok(Registry(registry.entries[KeyOf(r) := schema], registry.retired))
  }

  function RetireHandlers(registry: Registry, generation: Generation): Registry {
    Registry(map key | key in registry.entries && key.generation != generation :: registry.entries[key],
             registry.retired + {generation})
  }

  function Unregister(registry: Registry, r: Ref): Registry {
    if r.generation in registry.retired then registry else Registry(registry.entries - {KeyOf(r)}, registry.retired)
  }

  function SchemaOf(registry: Registry, r: Ref): Result<Type, Refusal> {
    if r.generation in registry.retired then Err(Stale)
    else if KeyOf(r) in registry.entries then Ok(registry.entries[KeyOf(r)])
    else Err(Unknown)
  }

  // ---------------------------------------------------------------- the admissions

  /** What of a tool definition admission and invocation depend on. */
  datatype Tool = Tool(callable: string, input: Type, output: Type, invoke: Ref)

  datatype Admission = Admission(session: string, tool: Tool)

  /** The printed id ends in a number that no other admission gets. */
  datatype AdmissionId = AdmissionId(generation: string, n: nat)

  datatype Place = Place(session: string, callable: string)

  /** Admissions by id, with an index by session and callable and one by owner generation. */
  datatype Tools = Tools(
    next: nat, byId: map<AdmissionId, Admission>, byPlace: map<Place, AdmissionId>,
    byGeneration: map<Generation, set<AdmissionId>>)

  function PlaceOf(admission: Admission): Place {
    Place(admission.session, admission.tool.callable)
  }

  function GenerationOf(admission: Admission): Generation {
    admission.tool.invoke.generation
  }

  function CallableSchema(tool: Tool): Type {
    Callable(tool.invoke.contract, tool.input, tool.output)
  }

  function IdsOf(tools: Tools, generation: Generation): set<AdmissionId> {
    if generation in tools.byGeneration then tools.byGeneration[generation] else {}
  }

  /** Both indexes describe the admissions exactly, and used numbers are not reused. */
  ghost predicate Consistent(tools: Tools) {
    && (forall id :: id in tools.byId ==> id.n <= tools.next)
    && PlacesOk(tools)
    && GenerationsOk(tools)
  }

  ghost predicate PlacesOk(tools: Tools) {
    && (forall id :: id in tools.byId ==>
          PlaceOf(tools.byId[id]) in tools.byPlace && tools.byPlace[PlaceOf(tools.byId[id])] == id)
    && (forall place :: place in tools.byPlace ==>
          tools.byPlace[place] in tools.byId && PlaceOf(tools.byId[tools.byPlace[place]]) == place)
  }

  ghost predicate GenerationsOk(tools: Tools) {
    && (forall generation, id :: generation in tools.byGeneration && id in tools.byGeneration[generation] ==>
          id in tools.byId && GenerationOf(tools.byId[id]) == generation)
    && (forall id :: id in tools.byId ==>
          GenerationOf(tools.byId[id]) in tools.byGeneration && id in tools.byGeneration[GenerationOf(tools.byId[id])])
    && (forall generation :: generation in tools.byGeneration ==> tools.byGeneration[generation] != {})
  }

  function Admitted(tools: Tools, place: Place): Option<Admission> {
    if place in tools.byPlace && tools.byPlace[place] in tools.byId then Some(tools.byId[tools.byPlace[place]]) else None
  }

  function Admit(tools: Tools, session: string, tool: Tool): Result<Tools, Refusal> {
    var place, generation := Place(session, tool.callable), tool.invoke.generation;
    if place in tools.byPlace then Err(Duplicate)
    else
      var id := NextId(tools, tool);
      Ok(Tools(tools.next + 1, tools.byId[id := Admission(session, tool)], tools.byPlace[place := id],
               tools.byGeneration[generation := IdsOf(tools, generation) + {id}]))
  }

  function NextId(tools: Tools, tool: Tool): AdmissionId {
    AdmissionId(tool.invoke.generation.id, tools.next + 1)
  }

  /** Without the admission, in no index. */
  function Remove(tools: Tools, id: AdmissionId): Tools
    requires id in tools.byId
  {
    var admission := tools.byId[id];
    var others := IdsOf(tools, GenerationOf(admission)) - {id};
    Tools(tools.next, tools.byId - {id}, tools.byPlace - {PlaceOf(admission)},
          if others == {} then tools.byGeneration - {GenerationOf(admission)}
          else tools.byGeneration[GenerationOf(admission) := others])
  }

  function RemoveFromSession(tools: Tools, session: string, id: AdmissionId): Result<(Admission, Tools), Refusal> {
    if id !in tools.byId || tools.byId[id].session != session then Err(Stale)
    else Ok((tools.byId[id], Remove(tools, id)))
  }

  /** Exactly the admissions of other generations. */
  function RetireTools(tools: Tools, generation: Generation): Tools {
    Tools(tools.next,
          map id | id in tools.byId && GenerationOf(tools.byId[id]) != generation :: tools.byId[id],
          map place | place in tools.byPlace
                      && (tools.byPlace[place] in tools.byId
                          ==> GenerationOf(tools.byId[tools.byPlace[place]]) != generation)
            :: tools.byPlace[place],
          tools.byGeneration - {generation})
  }

  predicate ContainsInvoke(tools: Tools, r: Ref) {
    exists id :: id in tools.byId && tools.byId[id].tool.invoke == r
  }

  // ---------------------------------------------------------------- what the operations keep

  lemma {:induction false} AdmitKeepsConsistent(tools: Tools, session: string, tool: Tool)
    requires Consistent(tools) && Admit(tools, session, tool).Ok?
    ensures Consistent(Admit(tools, session, tool).value)
  {
    NextIdIsNew(tools, tool);
    AdmitKeepsPlaces(tools, session, tool);
    AdmitKeepsGenerations(tools, session, tool);
  }

  lemma {:induction false} AdmitKeepsPlaces(tools: Tools, session: string, tool: Tool)
    requires PlacesOk(tools) && Admit(tools, session, tool).Ok? && NextId(tools, tool) !in tools.byId
    ensures PlacesOk(Admit(tools, session, tool).value)
  {
  }

  lemma {:induction false} AdmitKeepsGenerations(tools: Tools, session: string, tool: Tool)
    requires GenerationsOk(tools) && Admit(tools, session, tool).Ok? && NextId(tools, tool) !in tools.byId
    ensures GenerationsOk(Admit(tools, session, tool).value)
  {
  }

  lemma {:induction false} RemoveKeepsConsistent(tools: Tools, id: AdmissionId)
    requires Consistent(tools) && id in tools.byId
    ensures Consistent(Remove(tools, id))
  {
    RemoveKeepsPlaces(tools, id);
    RemoveKeepsGenerations(tools, id);
  }

  lemma {:induction false} RemoveKeepsPlaces(tools: Tools, id: AdmissionId)
    requires PlacesOk(tools) && id in tools.byId
    ensures PlacesOk(Remove(tools, id))
  {
  }

  lemma {:induction false} RemoveKeepsGenerations(tools: Tools, id: AdmissionId)
    requires GenerationsOk(tools) && id in tools.byId
    ensures GenerationsOk(Remove(tools, id))
  {
  }

  lemma {:induction false} RetireKeepsConsistent(tools: Tools, generation: Generation)
    requires Consistent(tools)
    ensures Consistent(RetireTools(tools, generation))
  {
  }

  /** A session holds at most one admission of a callable, and the lookup finds exactly it. */
  lemma {:induction false} AdmittedIsTheOne(tools: Tools, id: AdmissionId, place: Place)
    requires Consistent(tools)
    ensures id in tools.byId && PlaceOf(tools.byId[id]) == place ==> Admitted(tools, place) == Some(tools.byId[id])
    ensures Admitted(tools, place) == None ==> forall other :: other in tools.byId ==> PlaceOf(tools.byId[other]) != place
  {
  }

  /** A handle never names a later admission: ids are not reused. */
  lemma {:induction false} NextIdIsNew(tools: Tools, tool: Tool)
    requires Consistent(tools)
    ensures NextId(tools, tool) !in tools.byId
  {
  }
}
