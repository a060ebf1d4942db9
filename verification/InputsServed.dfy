/** Which callables of an application input the server comes to serve, and when the whole input is accepted. */
module InputsServed {
  import opened Wrappers
  import opened Schema
  import opened AdmissionsSpec
  import opened ClientInputs
  import Values = LuaValuesSpec

  // ---------------------------------------------------------------- where the client's callables stand

  /** Somewhere in the value the client's callable `lift.r` stands at the schema `lift.schema`. */
  ghost predicate StandsIn(wire: Wire, schema: Type, value: Values.Value, lift: Lift)
    decreases schema, 2
  {
    match schema
    case Callable(_, _, _) =>
      && value.VCallable? && lift == Lift(wire.ref(value.callable), schema) && lift.r.generation.owner.Client?
    case Optional(item) => value.VSome? && StandsIn(wire, item, value.value, lift)
    case Array(item, _) => value.VList? && StandsInItem(wire, item, value.values, lift)
    case List(item) => value.VList? && StandsInItem(wire, item, value.values, lift)
    case Map(item) => value.VMap? && exists k :: k in value.entries && StandsIn(wire, item, value.entries[k], lift)
    case Table(fields) => value.VTable? && StandsInField(wire, fields, value.fields, lift)
    case Variant(variants) => value.VVariant? && StandsInPayload(wire, variants, value.tag, value.payload, lift)
    case _ => false
  }

  ghost predicate StandsInItem(wire: Wire, item: Type, values: seq<Values.Value>, lift: Lift)
    decreases item, 3
  {
    exists i :: 0 <= i < |values| && StandsIn(wire, item, values[i], lift)
  }

  ghost predicate StandsInField(wire: Wire, fields: Fields, values: map<string, Values.Value>, lift: Lift)
    decreases fields, 0
  {
    match fields
    case End => false
    case Field(key, schema, rest) =>
      || (key in values && StandsIn(wire, schema, values[key], lift))
      || StandsInField(wire, rest, values, lift)
  }

  ghost predicate StandsInPayload(wire: Wire, variants: Fields, tag: string, payload: Values.Value, lift: Lift)
    decreases variants, 0
  {
    match variants
    case End => false
    case Field(key, schema, rest) =>
      if key == tag then StandsIn(wire, schema, payload, lift) else StandsInPayload(wire, rest, tag, payload, lift)
  }

  /** The traversal of a map comes to all its keys and to nothing else. */
  ghost predicate Traverses(wire: Wire) {
    forall entries: map<string, Values.Value>, k :: k in wire.order(entries) <==> k in entries
  }

  /** The walk over a conforming input visits exactly the client's callables that stand in it. */
  lemma {:induction false} VisitedIff(wire: Wire, schema: Type, value: Values.Value, lift: Lift)
    requires Values.Parses(schema, value) && Traverses(wire)
    ensures lift in Visit(wire, schema, value).lifts <==> StandsIn(wire, schema, value, lift)
    decreases schema, 2
  {
    match schema
    case Optional(item) =>
      if value.VSome? {
        VisitedIff(wire, item, value.value, lift);
      }
    case Array(item, _) => ItemVisitedIff(wire, item, value.values, lift);
    case List(item) => ItemVisitedIff(wire, item, value.values, lift);
    case Map(item) => MapVisitedIff(wire, item, value.entries, lift);
    case Table(fields) =>
      assert Values.ParsesFields(fields, value.fields);
      FieldVisitedIff(wire, fields, value.fields, lift);
    case Variant(variants) => PayloadVisitedIff(wire, variants, value.tag, value.payload, lift);
    case _ =>
  }

  lemma {:induction false} ItemVisitedIff(wire: Wire, item: Type, values: seq<Values.Value>, lift: Lift)
    requires Traverses(wire) && forall i :: 0 <= i < |values| ==> Values.Parses(item, values[i])
    ensures lift in VisitItems(wire, item, values).lifts <==> StandsInItem(wire, item, values, lift)
    decreases item, 3, |values|
  {
    if values != [] {
      ConformingIsNotBroken(wire, item, values[0]);
      VisitedIff(wire, item, values[0], lift);
      ItemVisitedIff(wire, item, values[1..], lift);
      FirstOrLater(wire, item, values, lift);
    }
  }

  lemma {:induction false} FirstOrLater(wire: Wire, item: Type, values: seq<Values.Value>, lift: Lift)
    requires values != []
    ensures StandsInItem(wire, item, values, lift) <==>
            StandsIn(wire, item, values[0], lift) || StandsInItem(wire, item, values[1..], lift)
  {
    assert forall i :: 0 < i < |values| ==> values[i] == values[1..][i - 1];
    assert forall i :: 0 <= i < |values| - 1 ==> values[1..][i] == values[i + 1];
  }

  /** A callable stands under one of the keys. */
  ghost predicate StandsUnder(wire: Wire, item: Type, entries: map<string, Values.Value>, keys: seq<string>, lift: Lift) {
    exists k :: k in keys && k in entries && StandsIn(wire, item, entries[k], lift)
  }

  lemma {:induction false} MapVisitedIff(wire: Wire, item: Type, entries: map<string, Values.Value>, lift: Lift)
    requires Traverses(wire) && forall k :: k in entries ==> Values.Parses(item, entries[k])
    ensures lift in VisitEntries(wire, item, entries, wire.order(entries)).lifts <==>
            exists k :: k in entries && StandsIn(wire, item, entries[k], lift)
    decreases item, 4
  {
    EntryVisitedIff(wire, item, entries, wire.order(entries), lift);
    assert forall k :: k in wire.order(entries) <==> k in entries;
  }

  lemma {:induction false} EntryVisitedIff(
    wire: Wire, item: Type, entries: map<string, Values.Value>, keys: seq<string>, lift: Lift)
    requires Traverses(wire) && forall k :: k in entries ==> Values.Parses(item, entries[k])
    ensures lift in VisitEntries(wire, item, entries, keys).lifts <==> StandsUnder(wire, item, entries, keys, lift)
    decreases item, 3, |keys|
  {
    if keys != [] {
      if keys[0] in entries {
        ConformingIsNotBroken(wire, item, entries[keys[0]]);
        VisitedIff(wire, item, entries[keys[0]], lift);
      }
      EntryVisitedIff(wire, item, entries, keys[1..], lift);
    }
  }

  lemma {:induction false} FieldVisitedIff(wire: Wire, fields: Fields, values: map<string, Values.Value>, lift: Lift)
    requires Traverses(wire) && Values.ParsesEach(fields, values)
    ensures lift in VisitFields(wire, fields, values).lifts <==> StandsInField(wire, fields, values, lift)
    decreases fields, 0
  {
    match fields
    case End =>
    case Field(key, schema, rest) =>
      ConformingIsNotBroken(wire, schema, values[key]);
      VisitedIff(wire, schema, values[key], lift);
      FieldVisitedIff(wire, rest, values, lift);
  }

  lemma {:induction false} PayloadVisitedIff(wire: Wire, variants: Fields, tag: string, payload: Values.Value, lift: Lift)
    requires Traverses(wire) && Values.ParsesVariant(variants, tag, payload)
    ensures lift in VisitPayload(wire, variants, tag, payload).lifts <==>
            StandsInPayload(wire, variants, tag, payload, lift)
    decreases variants, 0
  {
    match variants
    case End =>
    case Field(key, schema, rest) =>
      if key == tag {
        VisitedIff(wire, schema, payload, lift);
      } else {
        PayloadVisitedIff(wire, rest, tag, payload, lift);
      }
  }

  // ---------------------------------------------------------------- when they are all accepted

  /** The connected client's own callable, live, and so far registered with no other schema. */
  ghost predicate CanServe(client: Generation, registry: Registry, lift: Lift) {
    && lift.r.generation == client && client !in registry.retired
    && lift.schema.Callable? && lift.r.contract == lift.schema.contract
    && (KeyOf(lift.r) in registry.entries ==> registry.entries[KeyOf(lift.r)] == lift.schema)
  }

  ghost predicate Agree(a: Lift, b: Lift) {
    KeyOf(a.r) == KeyOf(b.r) ==> a.schema == b.schema
  }

  /** All can be served, and no two stand under the same handler at different schemas. */
  ghost predicate Fits(client: Generation, registry: Registry, lifts: seq<Lift>) {
    && (forall a :: a in lifts ==> CanServe(client, registry, a))
    && (forall a, b :: a in lifts && b in lifts ==> Agree(a, b))
  }

  lemma {:induction false} AdmissibleIff(client: Generation, registry: Registry, lift: Lift)
    ensures Admissible(client, registry, lift) <==> CanServe(client, registry, lift)
    ensures CanServe(client, registry, lift) ==>
              Admitting(client, registry, lift) == Registry(registry.entries[KeyOf(lift.r) := lift.schema], registry.retired)
  {
  }

  /** Once the first is registered the others fit exactly if they agree with it too. */
  lemma {:induction false} FitsAfter(client: Generation, registry: Registry, lifts: seq<Lift>)
    requires lifts != [] && CanServe(client, registry, lifts[0])
    ensures Fits(client, registry, lifts) <==>
            Fits(client, Registry(registry.entries[KeyOf(lifts[0].r) := lifts[0].schema], registry.retired), lifts[1..])
  {
    var (first, rest) := (lifts[0], lifts[1..]);
    var after := Registry(registry.entries[KeyOf(first.r) := first.schema], registry.retired);
    assert forall a :: a in lifts <==> a == first || a in rest;
    forall a
      ensures CanServe(client, after, a) <==> CanServe(client, registry, a) && Agree(a, first)
    {
    }
    if Fits(client, after, rest) {
      forall a, b | a in lifts && b in lifts
        ensures Agree(a, b)
      {
      }
    }
  }

  lemma {:induction false} AllAdmittedIff(client: Generation, registry: Registry, lifts: seq<Lift>)
    ensures AdmitAll(client, registry, lifts).ok <==> Fits(client, registry, lifts)
    decreases |lifts|
  {
    if lifts != [] {
      AdmissibleIff(client, registry, lifts[0]);
      if CanServe(client, registry, lifts[0]) {
        FitsAfter(client, registry, lifts);
        AllAdmittedIff(client, Admitting(client, registry, lifts[0]), lifts[1..]);
      }
    }
  }

  ghost predicate IsLifted(lifts: seq<Lift>, key: Key, schema: Type) {
    exists a :: a in lifts && KeyOf(a.r) == key && a.schema == schema
  }

  /** Only visited callables are registered. */
  lemma {:induction false} OnlyVisited(client: Generation, registry: Registry, lifts: seq<Lift>, key: Key)
    requires key in AdmitAll(client, registry, lifts).registry.entries && key !in registry.entries
    ensures IsLifted(lifts, key, AdmitAll(client, registry, lifts).registry.entries[key])
    decreases |lifts|
  {
    AdmissibleIff(client, registry, lifts[0]);
    var after := Admitting(client, registry, lifts[0]);
    AdmittedAreServed(client, after, lifts[1..]);
    if key in after.entries {
      assert KeyOf(lifts[0].r) == key;
    } else {
      OnlyVisited(client, after, lifts[1..], key);
      var a :| a in lifts[1..] && KeyOf(a.r) == key && a.schema == AdmitAll(client, registry, lifts).registry.entries[key];
      assert a in lifts;
    }
  }

  /** A callable with this key stands in the value at this schema. */
  ghost predicate KeyStands(wire: Wire, schema: Type, value: Values.Value, key: Key, at: Type) {
    exists a :: StandsIn(wire, schema, value, a) && KeyOf(a.r) == key && a.schema == at
  }

  lemma {:induction false} OnlyStanding(
    client: Generation, registry: Registry, wire: Wire, schema: Type, value: Values.Value, key: Key)
    requires Values.Parses(schema, value) && Traverses(wire) && key !in registry.entries
    requires key in AdmitAll(client, registry, Visit(wire, schema, value).lifts).registry.entries
    ensures KeyStands(wire, schema, value, key,
                      AdmitAll(client, registry, Visit(wire, schema, value).lifts).registry.entries[key])
  {
    var lifts := Visit(wire, schema, value).lifts;
    OnlyVisited(client, registry, lifts, key);
    var a :| a in lifts && KeyOf(a.r) == key && a.schema == AdmitAll(client, registry, lifts).registry.entries[key];
    VisitedIff(wire, schema, value, a);
  }

  /** The input's callables all fit. */
  ghost predicate InputFits(client: Generation, registry: Registry, wire: Wire, schema: Type, value: Values.Value) {
    && (forall a :: StandsIn(wire, schema, value, a) ==> CanServe(client, registry, a))
    && (forall a, b :: StandsIn(wire, schema, value, a) && StandsIn(wire, schema, value, b) ==> Agree(a, b))
  }

  /**
   * A conforming input is accepted exactly if every callable of a client that stands in it is the connected client's
   * own, live and registered with no other schema, and none stands at two schemas. Then each is served at the schema
   * where it stands. What is new in the registry, accepted or not, stands in the input.
   */
  lemma {:induction false} InputAcceptedIff(
    client: Generation, registry: Registry, wire: Wire, schema: Type, value: Values.Value)
    requires Values.Parses(schema, value) && Traverses(wire)
    ensures var outcome := AdmitVisited(client, registry, Visit(wire, schema, value));
            && (outcome.ok <==> InputFits(client, registry, wire, schema, value))
            && (outcome.ok ==> forall a :: StandsIn(wire, schema, value, a) ==>
                                 SchemaOf(outcome.registry, a.r) == Ok(a.schema))
            && outcome.registry.retired == registry.retired
            && (forall key :: key in registry.entries ==>
                  key in outcome.registry.entries && outcome.registry.entries[key] == registry.entries[key])
            && (forall key :: key in outcome.registry.entries && key !in registry.entries ==>
                  KeyStands(wire, schema, value, key, outcome.registry.entries[key]))
  {
    var lifts := Visit(wire, schema, value).lifts;
    var outcome := AdmitAll(client, registry, lifts);
    ConformingIsNotBroken(wire, schema, value);
    AllAdmittedIff(client, registry, lifts);
    AdmittedAreServed(client, registry, lifts);
    forall a
      ensures a in lifts <==> StandsIn(wire, schema, value, a)
    {
      VisitedIff(wire, schema, value, a);
    }
    forall key | key in outcome.registry.entries && key !in registry.entries
      ensures KeyStands(wire, schema, value, key, outcome.registry.entries[key])
    {
      OnlyStanding(client, registry, wire, schema, value, key);
    }
  }
}
