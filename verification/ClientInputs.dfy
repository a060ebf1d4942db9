/** Registering the client's callables found in an application input, each at the schema where it stands. */
module ClientInputs {
  import opened Wrappers
  import opened Schema
  import opened AdmissionsSpec
  import opened Admissions
  import Values = LuaValuesSpec

  /** How a reference in a value names its owner, and the order in which a map is traversed. */
  datatype Wire = Wire(ref: Values.Ref -> Ref, order: map<string, Values.Value> -> seq<string>)

  datatype Lift = Lift(r: Ref, schema: Type)

  /** The client's callables in visiting order, up to a missing field or an unknown variant if there is one. */
  datatype Visited = Visited(lifts: seq<Lift>, broken: bool)

  function Then(a: Visited, b: Visited): Visited {
    if a.broken then a else Visited(a.lifts + b.lifts, b.broken)
  }

  const Nothing: Visited := Visited([], false)

  function Visit(wire: Wire, schema: Type, value: Values.Value): Visited
    decreases schema, 2
  {
    match schema
    case Callable(_, _, _) =>
      if value.VCallable? && wire.ref(value.callable).generation.owner.Client?
      then Visited([Lift(wire.ref(value.callable), schema)], false) else Nothing
    case Optional(item) => if value.VSome? then Visit(wire, item, value.value) else Nothing
    case Array(item, _) => if value.VList? then VisitItems(wire, item, value.values) else Nothing
    case List(item) => if value.VList? then VisitItems(wire, item, value.values) else Nothing
    case Map(item) => if value.VMap? then VisitEntries(wire, item, value.entries, wire.order(value.entries)) else Nothing
    case Table(fields) => if value.VTable? then VisitFields(wire, fields, value.fields) else Nothing
    case Variant(variants) =>
      if value.VVariant? then VisitPayload(wire, variants, value.tag, value.payload) else Nothing
    case _ => Nothing
  }

  function VisitItems(wire: Wire, item: Type, values: seq<Values.Value>): Visited
    decreases item, 3, |values|
  {
    if values == [] then Nothing else Then(Visit(wire, item, values[0]), VisitItems(wire, item, values[1..]))
  }

  function VisitEntries(wire: Wire, item: Type, entries: map<string, Values.Value>, keys: seq<string>): Visited
    decreases item, 3, |keys|
  {
    if keys == [] then Nothing
    else
      Then(if keys[0] in entries then Visit(wire, item, entries[keys[0]]) else Nothing,
           VisitEntries(wire, item, entries, keys[1..]))
  }

  function VisitFields(wire: Wire, fields: Fields, values: map<string, Values.Value>): Visited
    decreases fields, 0
  {
    match fields
    case End => Nothing
    case Field(key, schema, rest) =>
      if key !in values then Visited([], true)
      else Then(Visit(wire, schema, values[key]), VisitFields(wire, rest, values))
  }

  function VisitPayload(wire: Wire, variants: Fields, tag: string, payload: Values.Value): Visited
    decreases variants, 0
  {
    match variants
    case End => Visited([], true)
    case Field(key, schema, rest) =>
      if key == tag then Visit(wire, schema, payload) else VisitPayload(wire, rest, tag, payload)
  }

  /** A value that conforms is visited to its end. */
  lemma {:induction false} ConformingIsNotBroken(wire: Wire, schema: Type, value: Values.Value)
    requires Values.Parses(schema, value)
    ensures !Visit(wire, schema, value).broken
    decreases schema, 2
  {
    match schema
    case Optional(item) =>
      if value.VSome? {
        ConformingIsNotBroken(wire, item, value.value);
      }
    case Array(item, _) => ItemsAreNotBroken(wire, item, value.values);
    case List(item) => ItemsAreNotBroken(wire, item, value.values);
    case Map(item) => EntriesAreNotBroken(wire, item, value.entries, wire.order(value.entries));
    case Table(fields) =>
      assert Values.ParsesFields(fields, value.fields);
      FieldsAreNotBroken(wire, fields, value.fields);
    case Variant(variants) => PayloadIsNotBroken(wire, variants, value.tag, value.payload);
    case _ =>
  }

  lemma {:induction false} ItemsAreNotBroken(wire: Wire, item: Type, values: seq<Values.Value>)
    requires forall i :: 0 <= i < |values| ==> Values.Parses(item, values[i])
    ensures !VisitItems(wire, item, values).broken
    decreases item, 3, |values|
  {
    if values != [] {
      ConformingIsNotBroken(wire, item, values[0]);
      ItemsAreNotBroken(wire, item, values[1..]);
    }
  }

  lemma {:induction false} EntriesAreNotBroken(
    wire: Wire, item: Type, entries: map<string, Values.Value>, keys: seq<string>)
    requires forall k :: k in entries ==> Values.Parses(item, entries[k])
    ensures !VisitEntries(wire, item, entries, keys).broken
    decreases item, 3, |keys|
  {
    if keys != [] {
      if keys[0] in entries {
        ConformingIsNotBroken(wire, item, entries[keys[0]]);
      }
      EntriesAreNotBroken(wire, item, entries, keys[1..]);
    }
  }

  lemma {:induction false} FieldsAreNotBroken(wire: Wire, fields: Fields, values: map<string, Values.Value>)
    requires Values.ParsesEach(fields, values)
    ensures !VisitFields(wire, fields, values).broken
    decreases fields, 0
  {
    match fields
    case End =>
    case Field(key, schema, rest) =>
      ConformingIsNotBroken(wire, schema, values[key]);
      FieldsAreNotBroken(wire, rest, values);
  }

  lemma {:induction false} PayloadIsNotBroken(wire: Wire, variants: Fields, tag: string, payload: Values.Value)
    requires Values.ParsesVariant(variants, tag, payload)
    ensures !VisitPayload(wire, variants, tag, payload).broken
    decreases variants, 0
  {
    match variants
    case End =>
    case Field(key, schema, rest) =>
      if key == tag {
        ConformingIsNotBroken(wire, schema, payload);
      } else {
        PayloadIsNotBroken(wire, rest, tag, payload);
      }
  }

  // ---------------------------------------------------------------- registering them

  /** The reference belongs to the connected client and is registered, now or before, at this schema. */
  predicate Admissible(client: Generation, registry: Registry, lift: Lift) {
    lift.r.generation == client
    && (Register(registry, lift.r, lift.schema).Ok?
        || (Register(registry, lift.r, lift.schema) == Err(Duplicate) && SchemaOf(registry, lift.r) == Ok(lift.schema)))
  }

  function Admitting(client: Generation, registry: Registry, lift: Lift): Registry {
    if lift.r.generation == client && Register(registry, lift.r, lift.schema).Ok?
    then Register(registry, lift.r, lift.schema).value else registry
  }

  datatype Outcome = Outcome(registry: Registry, ok: bool)

  /** One after the other up to the first that fails. */
  function AdmitAll(client: Generation, registry: Registry, lifts: seq<Lift>): Outcome
    decreases |lifts|
  {
    if lifts == [] then Outcome(registry, true)
    else if !Admissible(client, registry, lifts[0]) then Outcome(registry, false)
    else AdmitAll(client, Admitting(client, registry, lifts[0]), lifts[1..])
  }

  function AdmitVisited(client: Generation, registry: Registry, visited: Visited): Outcome {
    var outcome := AdmitAll(client, registry, visited.lifts);
    Outcome(outcome.registry, outcome.ok && !visited.broken)
  }

  lemma {:induction false} AdmitConcat(client: Generation, registry: Registry, a: seq<Lift>, b: seq<Lift>)
    ensures var first := AdmitAll(client, registry, a);
            AdmitAll(client, registry, a + b) == if first.ok then AdmitAll(client, first.registry, b) else first
    decreases |a|
  {
    if a == [] {
      assert a + b == b;
    } else {
      assert (a + b)[1..] == a[1..] + b;
      AdmitConcat(client, Admitting(client, registry, a[0]), a[1..], b);
    }
  }

  lemma {:induction false} AdmitThen(client: Generation, registry: Registry, a: Visited, b: Visited)
    ensures var first := AdmitVisited(client, registry, a);
            AdmitVisited(client, registry, Then(a, b)) == if first.ok then AdmitVisited(client, first.registry, b) else first
  {
    AdmitConcat(client, registry, a.lifts, b.lifts);
  }

  /** What was registered stays, and when all went well every visited callable is served at its own schema. */
  lemma {:induction false} AdmittedAreServed(client: Generation, registry: Registry, lifts: seq<Lift>)
    ensures var outcome := AdmitAll(client, registry, lifts);
            && outcome.registry.retired == registry.retired
            && (forall key :: key in registry.entries ==>
                  key in outcome.registry.entries && outcome.registry.entries[key] == registry.entries[key])
            && (outcome.ok ==> forall i :: 0 <= i < |lifts| ==>
                  SchemaOf(outcome.registry, lifts[i].r) == Ok(lifts[i].schema))
    decreases |lifts|
  {
    if lifts != [] && Admissible(client, registry, lifts[0]) {
      AdmittedAreServed(client, Admitting(client, registry, lifts[0]), lifts[1..]);
    }
  }

  /** The walk over the input, registering as it goes. */
  method AdmitClientCallables(service: SdkApplicationService, wire: Wire, schema: Type, value: Values.Value)
    returns (ok: bool)
    modifies service.capabilities
    ensures Outcome(service.capabilities.View(), ok)
         == AdmitVisited(service.client, old(service.capabilities.View()), Visit(wire, schema, value))
    decreases schema, 2
  {
    ok := true;
    match schema {
      case Callable(_, _, _) =>
        if value.VCallable? && wire.ref(value.callable).generation.owner.Client? {
          ghost var registry := service.capabilities.View();
          ghost var lift := Lift(wire.ref(value.callable), schema);
          var failure := service.AdmitCurrentClientCallable(wire.ref(value.callable), schema);
          AdmitOne(service.client, registry, lift);
          ok := failure.None?;
        }
      case Optional(item) =>
        if value.VSome? {
          ok := AdmitClientCallables(service, wire, item, value.value);
        }
      case Array(item, _) =>
        if value.VList? {
          ok := AdmitItems(service, wire, item, value.values);
        }
      case List(item) =>
        if value.VList? {
          ok := AdmitItems(service, wire, item, value.values);
        }
      case Map(item) =>
        if value.VMap? {
          ok := AdmitEntries(service, wire, item, value.entries, wire.order(value.entries));
        }
      case Table(fields) =>
        if value.VTable? {
          ok := AdmitFields(service, wire, fields, value.fields);
        }
      case Variant(variants) =>
        if value.VVariant? {
          ok := AdmitPayload(service, wire, variants, value.tag, value.payload);
        }
      case _ =>
    }
  }

  lemma {:induction false} AdmitOne(client: Generation, registry: Registry, lift: Lift)
    ensures AdmitAll(client, registry, [lift])
         == if Admissible(client, registry, lift) then Outcome(Admitting(client, registry, lift), true)
            else Outcome(registry, false)
  {
    assert [lift][1..] == [];
  }

  method AdmitItems(service: SdkApplicationService, wire: Wire, item: Type, values: seq<Values.Value>)
    returns (ok: bool)
    modifies service.capabilities
    ensures Outcome(service.capabilities.View(), ok)
         == AdmitVisited(service.client, old(service.capabilities.View()), VisitItems(wire, item, values))
    decreases item, 3
  {
    ghost var whole := AdmitVisited(service.client, service.capabilities.View(), VisitItems(wire, item, values));
    assert values[0..] == values;
    var i := 0;
    while i < |values|
      invariant i <= |values|
      invariant AdmitVisited(service.client, service.capabilities.View(), VisitItems(wire, item, values[i..])) == whole
    {
      ghost var registry := service.capabilities.View();
      assert values[i..][1..] == values[i + 1..];
      AdmitThen(service.client, registry, Visit(wire, item, values[i]), VisitItems(wire, item, values[i + 1..]));
      ok := AdmitClientCallables(service, wire, item, values[i]);
      if !ok {
        return;
      }
      i := i + 1;
    }
    return true;
  }

  method AdmitEntries(
    service: SdkApplicationService, wire: Wire, item: Type, entries: map<string, Values.Value>, keys: seq<string>)
    returns (ok: bool)
    modifies service.capabilities
    ensures Outcome(service.capabilities.View(), ok)
         == AdmitVisited(service.client, old(service.capabilities.View()), VisitEntries(wire, item, entries, keys))
    decreases item, 3
  {
    ghost var whole := AdmitVisited(service.client, service.capabilities.View(), VisitEntries(wire, item, entries, keys));
    assert keys[0..] == keys;
    var i := 0;
    while i < |keys|
      invariant i <= |keys|
      invariant AdmitVisited(service.client, service.capabilities.View(), VisitEntries(wire, item, entries, keys[i..]))
             == whole
    {
      ghost var registry := service.capabilities.View();
      assert keys[i..][1..] == keys[i + 1..];
      ghost var first := if keys[i] in entries then Visit(wire, item, entries[keys[i]]) else Nothing;
      AdmitThen(service.client, registry, first, VisitEntries(wire, item, entries, keys[i + 1..]));
      if keys[i] in entries {
        ok := AdmitClientCallables(service, wire, item, entries[keys[i]]);
        if !ok {
          return;
        }
      }
      i := i + 1;
    }
    return true;
  }

  method AdmitFields(service: SdkApplicationService, wire: Wire, fields: Fields, values: map<string, Values.Value>)
    returns (ok: bool)
    modifies service.capabilities
    ensures Outcome(service.capabilities.View(), ok)
         == AdmitVisited(service.client, old(service.capabilities.View()), VisitFields(wire, fields, values))
    decreases fields, 1
  {
    ghost var whole := AdmitVisited(service.client, service.capabilities.View(), VisitFields(wire, fields, values));
    var left := fields;
    while left.Field?
      invariant left == fields || left < fields
      invariant AdmitVisited(service.client, service.capabilities.View(), VisitFields(wire, left, values)) == whole
      decreases left
    {
      if left.key !in values {
        return false;
      }
      ghost var registry := service.capabilities.View();
      AdmitThen(service.client, registry, Visit(wire, left.schema, values[left.key]), VisitFields(wire, left.rest, values));
      ok := AdmitClientCallables(service, wire, left.schema, values[left.key]);
      if !ok {
        return;
      }
      left := left.rest;
    }
    return true;
  }

  method AdmitPayload(service: SdkApplicationService, wire: Wire, variants: Fields, tag: string, payload: Values.Value)
    returns (ok: bool)
    modifies service.capabilities
    ensures Outcome(service.capabilities.View(), ok)
         == AdmitVisited(service.client, old(service.capabilities.View()), VisitPayload(wire, variants, tag, payload))
    decreases variants, 0
  {
    match variants {
      case End => return false;
      case Field(key, schema, rest) =>
        if key == tag {
          ok := AdmitClientCallables(service, wire, schema, payload);
        } else {
          ok := AdmitPayload(service, wire, rest, tag, payload);
        }
    }
  }
}
