/** Exactly which descriptors the emitter accepts: its fresh names never clash, so only four checks can fail. */
module EmitterSuccess {
  import opened Wrappers
  import opened Schema
  import opened Text
  import opened EmitterSpec

  // ---------------------------------------------------------------- fresh names

  predicate EndsInDigit(s: string) {
    s != "" && IsDigit(s[|s| - 1])
  }

  lemma {:induction false} GeneratedInjective(kind: Kind, n: nat, kind': Kind, n': nat)
    requires Generated(kind, n) == Generated(kind', n')
    ensures kind == kind' && n == n'
  {
    var p, p' := Prefix(kind), Prefix(kind');
    assert Generated(kind, n)[0] == p[0] && Generated(kind', n')[0] == p'[0];
    assert kind == kind';
    assert Decimal(n) == Generated(kind, n)[|p|..] == Generated(kind', n')[|p|..] == Decimal(n');
    DecimalInjective(n, n');
  }

  lemma {:induction false} GeneratedEnds(kind: Kind, n: nat)
    ensures EndsInDigit(Generated(kind, n))
  {
    var d := Decimal(n);
    assert Generated(kind, n)[|Generated(kind, n)| - 1] == d[|d| - 1];
  }

  lemma {:induction false} SymbolEnds(id: string, role: Role)
    requires Symbol(id, role).Ok?
    ensures !EndsInDigit(Symbol(id, role).value)
  {
    var name, suffix := Symbol(id, role).value, Suffix(role);
    assert name[|name| - 1] == suffix[|suffix| - 1];
    assert !IsDigit(suffix[|suffix| - 1]);
  }

  /** No name the counter can still produce is reserved. */
  ghost predicate Fresh(e: Output) {
    forall kind, n: nat :: e.next <= n ==> Generated(kind, n) !in e.names
  }

  /** The reserved names that do not come from the counter. */
  function Symbols(e: Output): set<string> {
    set n | n in e.names && !EndsInDigit(n)
  }

  lemma {:induction false} TakeFresh(e: Output, kind: Kind)
    requires Fresh(e)
    ensures Generated(kind, e.next) !in e.names
    ensures var e' := e.(next := e.next + 1, names := e.names + {Generated(kind, e.next)});
            Fresh(e') && Symbols(e') == Symbols(e)
  {
    GeneratedEnds(kind, e.next);
    var e' := e.(next := e.next + 1, names := e.names + {Generated(kind, e.next)});
    forall k, n: nat | e'.next <= n ensures Generated(k, n) !in e'.names {
      if Generated(k, n) == Generated(kind, e.next) {
        GeneratedInjective(k, n, kind, e.next);
      }
    }
  }

  // ---------------------------------------------------------------- one schema

  /** A schema the emitter can name: no Never anywhere, and every key a Rust identifier. */
  predicate Emittable(schema: Type) {
    match schema
    case Never => false
    case Optional(item) => Emittable(item)
    case Array(item, _) => Emittable(item)
    case List(item) => Emittable(item)
    case Map(item) => Emittable(item)
    case Table(fields) => EmittableFields(fields)
    case Variant(variants) => EmittableFields(variants)
    case Callable(_, input, output) => Emittable(input) && Emittable(output)
    case _ => true
  }

  predicate EmittableFields(fields: Fields) {
    match fields
    case End => true
    case Field(key, schema, rest) => IsIdentifier(key) && Emittable(schema) && EmittableFields(rest)
  }

  lemma {:induction false} NestedOk(e: Output, schema: Type)
    requires Fresh(e)
    ensures Nested(e, schema).Ok? <==> Emittable(schema)
    ensures Nested(e, schema).Ok? ==> Fresh(Nested(e, schema).value.0) && Symbols(Nested(e, schema).value.0) == Symbols(e)
    decreases schema, 1
  {
    match schema
    case Optional(item) => NestedOk(e, item);
    case List(item) => NestedOk(e, item);
    case Map(item) => NestedOk(e, item);
    case Array(item, _) => NestedOk(e, item);
    case Table(_) => StructuralOk(e, schema);
    case Variant(_) => StructuralOk(e, schema);
    case Callable(_, input, output) =>
      NestedOk(e, input);
      if Nested(e, input).Ok? {
        var e1 := Nested(e, input).value.0;
        NestedOk(e1, output);
        if Nested(e1, output).Ok? {
          TakeFresh(Nested(e1, output).value.0, CallableKind);
        }
      }
    case Object(_) => TakeFresh(e, ObjectKind);
    case _ =>
  }

  lemma {:induction false} StructuralOk(e: Output, schema: Type)
    requires Fresh(e) && (schema.Table? || schema.Variant?)
    ensures NestedDefine(e, schema).Ok? <==> Emittable(schema)
    ensures NestedDefine(e, schema).Ok? ==>
              Fresh(NestedDefine(e, schema).value.0) && Symbols(NestedDefine(e, schema).value.0) == Symbols(e)
    decreases schema, 0, 1
  {
    var name := Generated(Structural, e.next);
    TakeFresh(e, Structural);
    MembersOk(e.(next := e.next + 1, names := e.names + {name}),
              if schema.Table? then schema.fields else schema.variants, schema.Variant?);
  }

  lemma {:induction false} MembersOk(e: Output, fields: Fields, variant: bool)
    requires Fresh(e)
    ensures EmitMembers(e, fields, variant).Ok? <==> EmittableFields(fields)
    ensures EmitMembers(e, fields, variant).Ok? ==>
              Fresh(EmitMembers(e, fields, variant).value.0)
              && Symbols(EmitMembers(e, fields, variant).value.0) == Symbols(e)
    decreases fields
  {
    if fields.Field? && IsIdentifier(fields.key) {
      if variant && fields.schema.Unit? {
        MembersOk(e, fields.rest, variant);
      } else {
        NestedOk(e, fields.schema);
        if Nested(e, fields.schema).Ok? {
          MembersOk(Nested(e, fields.schema).value.0, fields.rest, variant);
        }
      }
    }
  }

  // ---------------------------------------------------------------- the whole descriptor

  function NameOf(id: string, role: Role): string {
    if Symbol(id, role).Ok? then Symbol(id, role).value else ""
  }

  /** The names are new and pairwise different. */
  predicate AllNew(used: set<string>, names: seq<string>)
    decreases |names|
  {
    names == [] || (names[0] !in used && AllNew(used + {names[0]}, names[1..]))
  }

  function Members(names: seq<string>): set<string> {
    set n | n in names
  }

  lemma {:induction false} AllNewConcat(used: set<string>, a: seq<string>, b: seq<string>)
    ensures AllNew(used, a + b) <==> AllNew(used, a) && AllNew(used + Members(a), b)
    decreases |a|
  {
    if a == [] {
      assert a + b == b && used + Members(a) == used;
    } else {
      assert (a + b)[1..] == a[1..] + b;
      assert used + {a[0]} + Members(a[1..]) == used + Members(a);
      AllNewConcat(used + {a[0]}, a[1..], b);
    }
  }

  lemma {:induction false} AllNewMeans(used: set<string>, names: seq<string>)
    ensures AllNew(used, names) <==>
              (forall i :: 0 <= i < |names| ==> names[i] !in used) &&
              (forall i, j :: 0 <= i < j < |names| ==> names[i] != names[j])
    decreases |names|
  {
    if names != [] {
      var rest := names[1..];
      AllNewMeans(used + {names[0]}, rest);
      assert forall i :: 0 < i < |names| ==> names[i] == rest[i - 1];
      assert forall i :: 0 <= i < |rest| ==> rest[i] == names[i + 1];
    }
  }

  /** What one stage of `rust` did: it succeeded exactly if `ok` and its names were new, and then reserved them. */
  ghost predicate Stage(e: Output, r: Result<Output, Error>, ok: bool, names: seq<string>) {
    && (r.Ok? <==> ok && AllNew(Symbols(e), names))
    && (r.Ok? ==> Fresh(r.value) && Symbols(r.value) == Symbols(e) + Members(names))
  }

  lemma {:induction false} ReserveSymbol(e: Output, id: string, role: Role)
    requires Fresh(e) && Symbol(id, role).Ok?
    ensures Stage(e, Reserve(e, Symbol(id, role).value), true, [NameOf(id, role)])
  {
    var name := Symbol(id, role).value;
    SymbolEnds(id, role);
    assert [name][1..] == [];
    forall kind, n: nat | e.next <= n ensures Generated(kind, n) !in e.names + {name} {
      GeneratedEnds(kind, n);
    }
  }

  lemma {:induction false} PushStage(e: Output, r: Result<Output, Error>, ok: bool, names: seq<string>, d: Decl)
    requires Stage(e, r, ok, names) && r.Ok?
    ensures Stage(e, Ok(Push(r.value, d)), ok, names)
  {
    var e1, e2 := r.value, Push(r.value, d);
    assert e2.names == e1.names && e2.next == e1.next;
    assert Symbols(e2) == Symbols(e1);
  }

  predicate TypeOk(t: TypeEntry) {
    Symbol(t.id, TypeRole).Ok? && (t.schema.Table? || t.schema.Variant?) && Emittable(t.schema)
  }

  lemma {:induction false} TypeStage(e: Output, t: TypeEntry)
    requires Fresh(e)
    ensures Stage(e, DefineType(e, t), TypeOk(t), [NameOf(t.id, TypeRole)])
  {
    if Symbol(t.id, TypeRole).Ok? {
      var name := Symbol(t.id, TypeRole).value;
      ReserveSymbol(e, t.id, TypeRole);
      if name !in e.names && (t.schema.Table? || t.schema.Variant?) {
        var e1 := Reserve(e, name).value;
        MembersOk(e1, if t.schema.Table? then t.schema.fields else t.schema.variants, t.schema.Variant?);
      }
      SymbolEnds(t.id, TypeRole);
      assert name in e.names <==> name in Symbols(e);
    }
  }

  function NamesOfTypes(ts: seq<TypeEntry>): seq<string> {
    if ts == [] then [] else [NameOf(ts[0].id, TypeRole)] + NamesOfTypes(ts[1..])
  }

  /** Two stages in a row are one stage. */
  lemma {:induction false} StageTwice(e: Output, r: Result<Output, Error>, ok: bool, a: seq<string>,
                                      r': Result<Output, Error>, ok': bool, b: seq<string>)
    requires Stage(e, r, ok, a)
    requires if r.Ok? then Stage(r.value, r', ok', b) else r'.Err?
    ensures Stage(e, r', ok && ok', a + b)
  {
    AllNewConcat(Symbols(e), a, b);
    assert Members(a + b) == Members(a) + Members(b);
  }

  lemma {:induction false} TypesStage(e: Output, ts: seq<TypeEntry>)
    requires Fresh(e)
    ensures Stage(e, DefineTypes(e, ts), forall t | t in ts :: TypeOk(t), NamesOfTypes(ts))
    decreases |ts|
  {
    if ts == [] {
      assert Symbols(e) + Members([]) == Symbols(e);
    } else {
      TypeStage(e, ts[0]);
      if DefineType(e, ts[0]).Ok? {
        TypesStage(DefineType(e, ts[0]).value, ts[1..]);
      }
      StageTwice(e, DefineType(e, ts[0]), TypeOk(ts[0]), [NameOf(ts[0].id, TypeRole)],
                 DefineTypes(e, ts), forall t | t in ts[1..] :: TypeOk(t), NamesOfTypes(ts[1..]));
      assert (forall t | t in ts :: TypeOk(t)) <==> TypeOk(ts[0]) && forall t | t in ts[1..] :: TypeOk(t);
    }
  }

  predicate OperationOk(d: Descriptor, o: Operation) {
    && HasType(d, o.input) && HasType(d, o.output) && HasType(d, o.error) && HasCapability(d, o.capability)
    && Symbol(o.id, OperationRole).Ok?
  }

  /** Every type id of the descriptor has a valid name; holds once the type stage succeeded. */
  predicate TypesNamed(d: Descriptor) {
    forall t | t in d.types :: Symbol(t.id, TypeRole).Ok?
  }

  lemma {:induction false} OperationStage(e: Output, d: Descriptor, o: Operation)
    requires Fresh(e) && TypesNamed(d)
    ensures Stage(e, EmitOperation(e, d, o), OperationOk(d, o), [NameOf(o.id, OperationRole)])
  {
    if OperationOk(d, o) {
      ReserveSymbol(e, o.id, OperationRole);
    }
  }

  function NamesOfOperations(os: seq<Operation>): seq<string> {
    if os == [] then [] else [NameOf(os[0].id, OperationRole)] + NamesOfOperations(os[1..])
  }

  lemma {:induction false} OperationsStage(e: Output, d: Descriptor, os: seq<Operation>)
    requires Fresh(e) && TypesNamed(d)
    ensures Stage(e, EmitOperations(e, d, os), forall o | o in os :: OperationOk(d, o), NamesOfOperations(os))
    decreases |os|
  {
    if os == [] {
      assert Symbols(e) + Members([]) == Symbols(e);
    } else {
      OperationStage(e, d, os[0]);
      if EmitOperation(e, d, os[0]).Ok? {
        OperationsStage(EmitOperation(e, d, os[0]).value, d, os[1..]);
      }
      StageTwice(e, EmitOperation(e, d, os[0]), OperationOk(d, os[0]), [NameOf(os[0].id, OperationRole)],
                 EmitOperations(e, d, os), forall o | o in os[1..] :: OperationOk(d, o), NamesOfOperations(os[1..]));
      assert (forall o | o in os :: OperationOk(d, o)) <==>
             OperationOk(d, os[0]) && forall o | o in os[1..] :: OperationOk(d, o);
    }
  }

  lemma {:induction false} RoleStage(e: Output, d: Descriptor, id: string, role: Role, payload: string)
    requires Fresh(e) && Symbol(payload, TypeRole).Ok?
    ensures Stage(e, EmitRole(e, id, role, payload), Symbol(id, role).Ok?, [NameOf(id, role)])
  {
    if Symbol(id, role).Ok? {
      ReserveSymbol(e, id, role);
    }
  }

  predicate EventOk(d: Descriptor, v: EventEntry) {
    HasType(d, v.payload) && HasCapability(d, v.capability) && Symbol(v.id, EventRole).Ok?
  }

  function NamesOfEvents(vs: seq<EventEntry>): seq<string> {
    if vs == [] then [] else [NameOf(vs[0].id, EventRole)] + NamesOfEvents(vs[1..])
  }

  lemma {:induction false} EventsStage(e: Output, d: Descriptor, vs: seq<EventEntry>)
    requires Fresh(e) && TypesNamed(d)
    ensures Stage(e, EmitEvents(e, d, vs), forall v | v in vs :: EventOk(d, v), NamesOfEvents(vs))
    decreases |vs|
  {
    if vs == [] {
      assert Symbols(e) + Members([]) == Symbols(e);
    } else {
      if HasType(d, vs[0].payload) && HasCapability(d, vs[0].capability) {
        RoleStage(e, d, vs[0].id, EventRole, vs[0].payload);
      }
      if EmitEvent(e, d, vs[0]).Ok? {
        EventsStage(EmitEvent(e, d, vs[0]).value, d, vs[1..]);
      }
      StageTwice(e, EmitEvent(e, d, vs[0]), EventOk(d, vs[0]), [NameOf(vs[0].id, EventRole)],
                 EmitEvents(e, d, vs), forall v | v in vs[1..] :: EventOk(d, v), NamesOfEvents(vs[1..]));
      assert (forall v | v in vs :: EventOk(d, v)) <==> EventOk(d, vs[0]) && forall v | v in vs[1..] :: EventOk(d, v);
    }
  }

  predicate CallbackOk(d: Descriptor, c: Callback) {
    && HasType(d, c.request) && HasType(d, c.response) && HasCapability(d, c.capability)
    && Symbol(c.id, RequestRole).Ok? && Symbol(c.id, ResponseRole).Ok?
  }

  function CallbackNames(c: Callback): seq<string> {
    [NameOf(c.id, RequestRole)] + [NameOf(c.id, ResponseRole)]
  }

  function NamesOfCallbacks(cs: seq<Callback>): seq<string> {
    if cs == [] then [] else CallbackNames(cs[0]) + NamesOfCallbacks(cs[1..])
  }

  lemma {:induction false} CallbackStage(e: Output, d: Descriptor, c: Callback)
    requires Fresh(e) && TypesNamed(d)
    ensures Stage(e, EmitCallback(e, d, c), CallbackOk(d, c), CallbackNames(c))
  {
    if HasType(d, c.request) && HasType(d, c.response) && HasCapability(d, c.capability) {
      RoleStage(e, d, c.id, RequestRole, c.request);
      var r := EmitRole(e, c.id, RequestRole, c.request);
      if r.Ok? {
        RoleStage(r.value, d, c.id, ResponseRole, c.response);
      }
      StageTwice(e, r, Symbol(c.id, RequestRole).Ok?, [NameOf(c.id, RequestRole)],
                 EmitCallback(e, d, c), Symbol(c.id, ResponseRole).Ok?, [NameOf(c.id, ResponseRole)]);
    }
  }

  lemma {:induction false} CallbacksStage(e: Output, d: Descriptor, cs: seq<Callback>)
    requires Fresh(e) && TypesNamed(d)
    ensures Stage(e, EmitCallbacks(e, d, cs), forall c | c in cs :: CallbackOk(d, c), NamesOfCallbacks(cs))
    decreases |cs|
  {
    if cs == [] {
      assert Symbols(e) + Members([]) == Symbols(e);
    } else {
      CallbackStage(e, d, cs[0]);
      if EmitCallback(e, d, cs[0]).Ok? {
        CallbacksStage(EmitCallback(e, d, cs[0]).value, d, cs[1..]);
      }
      StageTwice(e, EmitCallback(e, d, cs[0]), CallbackOk(d, cs[0]), CallbackNames(cs[0]),
                 EmitCallbacks(e, d, cs), forall c | c in cs[1..] :: CallbackOk(d, c), NamesOfCallbacks(cs[1..]));
      assert (forall c | c in cs :: CallbackOk(d, c)) <==>
             CallbackOk(d, cs[0]) && forall c | c in cs[1..] :: CallbackOk(d, c);
    }
  }

  predicate CapabilityOk(d: Descriptor, c: Capability) {
    (forall id | id in c.dependencies :: HasCapability(d, id)) && Symbol(c.id, CapabilityRole).Ok?
  }

  lemma {:induction false} MissingMeans(d: Descriptor, ids: seq<string>)
    ensures FirstMissing(d, ids).None? <==> forall id | id in ids :: HasCapability(d, id)
    decreases |ids|
  {
    if ids != [] {
      MissingMeans(d, ids[1..]);
      assert forall id :: id in ids <==> id == ids[0] || id in ids[1..];
    }
  }

  function NamesOfCapabilities(cs: seq<Capability>): seq<string> {
    if cs == [] then [] else [NameOf(cs[0].id, CapabilityRole)] + NamesOfCapabilities(cs[1..])
  }

  lemma {:induction false} CapabilitiesStage(e: Output, d: Descriptor, cs: seq<Capability>)
    requires Fresh(e)
    ensures Stage(e, EmitCapabilities(e, d, cs), forall c | c in cs :: CapabilityOk(d, c), NamesOfCapabilities(cs))
    decreases |cs|
  {
    if cs == [] {
      assert Symbols(e) + Members([]) == Symbols(e);
    } else {
      MissingMeans(d, cs[0].dependencies);
      if CapabilityOk(d, cs[0]) {
        ReserveSymbol(e, cs[0].id, CapabilityRole);
      }
      if EmitCapability(e, d, cs[0]).Ok? {
        CapabilitiesStage(EmitCapability(e, d, cs[0]).value, d, cs[1..]);
      }
      StageTwice(e, EmitCapability(e, d, cs[0]), CapabilityOk(d, cs[0]), [NameOf(cs[0].id, CapabilityRole)],
                 EmitCapabilities(e, d, cs), forall c | c in cs[1..] :: CapabilityOk(d, c),
                 NamesOfCapabilities(cs[1..]));
      assert (forall c | c in cs :: CapabilityOk(d, c)) <==>
             CapabilityOk(d, cs[0]) && forall c | c in cs[1..] :: CapabilityOk(d, c);
    }
  }

  function EndpointNames(d: Descriptor): seq<string> {
    NamesOfCallbacks(d.callbacks) + NamesOfCapabilities(d.capabilities)
  }

  function ItemNames(d: Descriptor): seq<string> {
    NamesOfOperations(d.operations) + (NamesOfEvents(d.events) + EndpointNames(d))
  }

  /** The Rust names made from the descriptor's ids, in the order they are reserved. */
  function AllNames(d: Descriptor): seq<string> {
    NamesOfTypes(d.types) + ItemNames(d)
  }

  predicate AllDifferent(names: seq<string>) {
    forall i, j :: 0 <= i < j < |names| ==> names[i] != names[j]
  }

  predicate EndpointsOk(d: Descriptor) {
    && (forall c | c in d.callbacks :: CallbackOk(d, c))
    && (forall c | c in d.capabilities :: CapabilityOk(d, c))
  }

  predicate ItemsOk(d: Descriptor) {
    && (forall o | o in d.operations :: OperationOk(d, o))
    && (forall v | v in d.events :: EventOk(d, v))
    && EndpointsOk(d)
  }

  /** What a caller can check: ids make names, schemas can be named, references resolve, names differ. */
  predicate Generatable(d: Descriptor) {
    && (forall t | t in d.types :: TypeOk(t))
    && ItemsOk(d)
    && AllDifferent(AllNames(d))
  }

  lemma {:induction false} TypeNamesOk(ts: seq<TypeEntry>)
    requires forall t | t in ts :: Symbol(t.id, TypeRole).Ok?
    ensures TypeNames(ts).Ok?
    decreases |ts|
  {
    if ts != [] {
      TypeNamesOk(ts[1..]);
    }
  }

  /** The type stage with its framing lines. */
  lemma {:induction false} FirstStage(d: Descriptor)
    ensures Fresh(EmptyOutput) && Stage(EmptyOutput, EmitTypes(d), forall t | t in d.types :: TypeOk(t), NamesOfTypes(d.types))
  {
    var e0 := Push(EmptyOutput, InterfaceId(d.id));
    assert Symbols(e0) == Symbols(EmptyOutput);
    TypesStage(e0, d.types);
    var r := DefineTypes(e0, d.types);
    assert Stage(EmptyOutput, r, forall t | t in d.types :: TypeOk(t), NamesOfTypes(d.types));
    if r.Ok? {
      TypeNamesOk(d.types);
      PushStage(EmptyOutput, r, forall t | t in d.types :: TypeOk(t), NamesOfTypes(d.types),
                TypeSchemas(TypeNames(d.types).value));
    }
  }

  lemma {:induction false} EndpointsStage(e: Output, d: Descriptor)
    requires Fresh(e) && TypesNamed(d)
    ensures Stage(e, EmitCallbacksOn(e, d), EndpointsOk(d), EndpointNames(d))
  {
    var r := EmitCallbacks(e, d, d.callbacks);
    CallbacksStage(e, d, d.callbacks);
    if r.Ok? {
      CapabilitiesStage(r.value, d, d.capabilities);
    }
    StageTwice(e, r, forall c | c in d.callbacks :: CallbackOk(d, c), NamesOfCallbacks(d.callbacks),
               EmitCallbacksOn(e, d), forall c | c in d.capabilities :: CapabilityOk(d, c),
               NamesOfCapabilities(d.capabilities));
  }

  lemma {:induction false} EventsOnStage(e: Output, d: Descriptor)
    requires Fresh(e) && TypesNamed(d)
    ensures Stage(e, EmitEventsOn(e, d), (forall v | v in d.events :: EventOk(d, v)) && EndpointsOk(d),
                  NamesOfEvents(d.events) + EndpointNames(d))
  {
    var r := EmitEvents(e, d, d.events);
    EventsStage(e, d, d.events);
    if r.Ok? {
      EndpointsStage(r.value, d);
    }
    StageTwice(e, r, forall v | v in d.events :: EventOk(d, v), NamesOfEvents(d.events),
               EmitEventsOn(e, d), EndpointsOk(d), EndpointNames(d));
  }

  lemma {:induction false} ItemsStage(e: Output, d: Descriptor)
    requires Fresh(e) && TypesNamed(d)
    ensures Stage(e, EmitItems(e, d), ItemsOk(d), ItemNames(d))
  {
    var r := EmitOperations(e, d, d.operations);
    OperationsStage(e, d, d.operations);
    if r.Ok? {
      EventsOnStage(r.value, d);
    }
    StageTwice(e, r, forall o | o in d.operations :: OperationOk(d, o), NamesOfOperations(d.operations),
               EmitItems(e, d), (forall v | v in d.events :: EventOk(d, v)) && EndpointsOk(d),
               NamesOfEvents(d.events) + EndpointNames(d));
  }

  /** Generation succeeds exactly for these descriptors; in particular fresh names never clash with anything. */
  lemma {:induction false} RustSucceedsIff(d: Descriptor)
    ensures Rust(d).Ok? <==> Generatable(d)
  {
    FirstStage(d);
    var r := EmitTypes(d);
    var ok := forall t | t in d.types :: TypeOk(t);
    if r.Ok? {
      ItemsStage(r.value, d);
    }
    StageTwice(EmptyOutput, r, ok, NamesOfTypes(d.types), RustOutput(d), ItemsOk(d), ItemNames(d));
    AllNewMeans({}, AllNames(d));
    assert Symbols(EmptyOutput) == {};
  }
}
