/** The id constants of events and callbacks: their names are not reserved, so they can clash. */
module EmitterConstants {
  import opened Wrappers
  import opened Schema
  import opened Text
  import opened EmitterSpec
  import opened EmitterSuccess

  /** The names of the constants, in order. */
  function Constants(defs: seq<Decl>): seq<string>
    decreases |defs|
  {
    if defs == [] then []
    else
      var last := defs[|defs| - 1];
      Constants(defs[..|defs| - 1]) + if last.IdConstant? then [last.name] else []
  }

  lemma {:induction false} ConstantsPush(e: Output, d: Decl)
    ensures Constants(Push(e, d).definitions)
         == Constants(e.definitions) + if d.IdConstant? then [d.name] else []
  {
    assert (e.definitions + [d])[..|e.definitions|] == e.definitions;
  }

  // ---------------------------------------------------------------- types emit no constants

  lemma {:induction false} NestedHasNone(e: Output, schema: Type)
    requires Nested(e, schema).Ok?
    ensures Constants(Nested(e, schema).value.0.definitions) == Constants(e.definitions)
    decreases schema, 1
  {
    match schema
    case Optional(item) => NestedHasNone(e, item);
    case List(item) => NestedHasNone(e, item);
    case Map(item) => NestedHasNone(e, item);
    case Array(item, _) => NestedHasNone(e, item);
    case Table(_) => DefineHasNone(e.(next := e.next + 1), Generated(Structural, e.next), schema);
    case Variant(_) => DefineHasNone(e.(next := e.next + 1), Generated(Structural, e.next), schema);
    case Callable(contract, input, output) =>
      NestedHasNone(e, input);
      var (e1, inputType) := Nested(e, input).value;
      NestedHasNone(e1, output);
      var (e2, outputType) := Nested(e1, output).value;
      var name := Generated(CallableKind, e2.next);
      ConstantsPush(e2.(next := e2.next + 1, names := e2.names + {name}),
                    CallableStruct(name, contract, inputType, outputType));
    case Object(contract) =>
      var name := Generated(ObjectKind, e.next);
      ConstantsPush(e.(next := e.next + 1, names := e.names + {name}), ObjectStruct(name, contract));
    case _ =>
  }

  lemma {:induction false} DefineHasNone(e: Output, name: string, schema: Type)
    requires Define(e, name, schema).Ok?
    ensures Constants(Define(e, name, schema).value.definitions) == Constants(e.definitions)
    decreases schema, 0
  {
    var fields := if schema.Table? then schema.fields else schema.variants;
    var e1 := Reserve(e, name).value;
    MembersHaveNone(e1, fields, schema.Variant?);
    var (e2, members) := EmitMembers(e1, fields, schema.Variant?).value;
    ConstantsPush(e2, if schema.Table? then Struct(name, members) else Enum(name, members));
  }

  lemma {:induction false} MembersHaveNone(e: Output, fields: Fields, variant: bool)
    requires EmitMembers(e, fields, variant).Ok?
    ensures Constants(EmitMembers(e, fields, variant).value.0.definitions) == Constants(e.definitions)
    decreases fields
  {
    if fields.Field? {
      if variant && fields.schema.Unit? {
        MembersHaveNone(e, fields.rest, variant);
      } else {
        NestedHasNone(e, fields.schema);
        MembersHaveNone(Nested(e, fields.schema).value.0, fields.rest, variant);
      }
    }
  }

  lemma {:induction false} TypesHaveNone(e: Output, types: seq<TypeEntry>)
    requires DefineTypes(e, types).Ok?
    ensures Constants(DefineTypes(e, types).value.definitions) == Constants(e.definitions)
    decreases |types|
  {
    if types != [] {
      var name := Symbol(types[0].id, TypeRole).value;
      DefineHasNone(e, name, types[0].schema);
      ConstantsPush(Define(e, name, types[0].schema).value, ContractImpl(name, types[0].id));
      TypesHaveNone(DefineType(e, types[0]).value, types[1..]);
    }
  }

  lemma {:induction false} OperationsHaveNone(e: Output, d: Descriptor, operations: seq<Operation>)
    requires EmitOperations(e, d, operations).Ok?
    ensures Constants(EmitOperations(e, d, operations).value.definitions) == Constants(e.definitions)
    decreases |operations|
  {
    if operations != [] {
      var o := operations[0];
      var name := Symbol(o.id, OperationRole).value;
      ConstantsPush(Reserve(e, name).value,
                    OperationStruct(name, o.id, o.capability, Symbol(o.input, TypeRole).value, Symbol(o.output, TypeRole).value));
      OperationsHaveNone(EmitOperation(e, d, o).value, d, operations[1..]);
    }
  }

  lemma {:induction false} CapabilitiesHaveNone(e: Output, d: Descriptor, capabilities: seq<Capability>)
    requires EmitCapabilities(e, d, capabilities).Ok?
    ensures Constants(EmitCapabilities(e, d, capabilities).value.definitions) == Constants(e.definitions)
    decreases |capabilities|
  {
    if capabilities != [] {
      var name := Symbol(capabilities[0].id, CapabilityRole).value;
      ConstantsPush(Reserve(e, name).value, CapabilityStruct(name, capabilities[0].id));
      CapabilitiesHaveNone(EmitCapability(e, d, capabilities[0]).value, d, capabilities[1..]);
    }
  }

  // ---------------------------------------------------------------- events and callbacks emit theirs

  /** The upper-cased name of an id in a role. */
  function RoleConstant(id: string, role: Role): seq<string> {
    match Symbol(id, role)
    case Ok(name) => [UpperAll(name)]
    case Err(_) => []
  }

  function EventConstants(events: seq<EventEntry>): seq<string> {
    if events == [] then [] else RoleConstant(events[0].id, EventRole) + EventConstants(events[1..])
  }

  function CallbackConstants(callbacks: seq<Callback>): seq<string> {
    if callbacks == [] then []
    else
      RoleConstant(callbacks[0].id, RequestRole) + RoleConstant(callbacks[0].id, ResponseRole)
      + CallbackConstants(callbacks[1..])
  }

  lemma {:induction false} RoleHasOne(e: Output, id: string, role: Role, payload: string)
    requires EmitRole(e, id, role, payload).Ok?
    ensures Constants(EmitRole(e, id, role, payload).value.definitions)
         == Constants(e.definitions) + RoleConstant(id, role)
  {
    var name := Symbol(id, role).value;
    var e1 := Reserve(e, name).value;
    var alias := Alias(name, Symbol(payload, TypeRole).value);
    ConstantsPush(e1, alias);
    ConstantsPush(Push(e1, alias), IdConstant(UpperAll(name), id));
  }

  lemma {:induction false} EventsHave(e: Output, d: Descriptor, events: seq<EventEntry>)
    requires EmitEvents(e, d, events).Ok?
    ensures Constants(EmitEvents(e, d, events).value.definitions) == Constants(e.definitions) + EventConstants(events)
    decreases |events|
  {
    if events != [] {
      RoleHasOne(e, events[0].id, EventRole, events[0].payload);
      EventsHave(EmitEvent(e, d, events[0]).value, d, events[1..]);
    }
  }

  lemma {:induction false} CallbacksHave(e: Output, d: Descriptor, callbacks: seq<Callback>)
    requires EmitCallbacks(e, d, callbacks).Ok?
    ensures Constants(EmitCallbacks(e, d, callbacks).value.definitions)
         == Constants(e.definitions) + CallbackConstants(callbacks)
    decreases |callbacks|
  {
    if callbacks != [] {
      var c := callbacks[0];
      RoleHasOne(e, c.id, RequestRole, c.request);
      var e1 := EmitRole(e, c.id, RequestRole, c.request).value;
      RoleHasOne(e1, c.id, ResponseRole, c.response);
      CallbacksHave(EmitCallback(e, d, c).value, d, callbacks[1..]);
    }
  }

  lemma {:induction false} TypeStageHasNone(d: Descriptor)
    requires EmitTypes(d).Ok?
    ensures Constants(EmitTypes(d).value.definitions) == []
  {
    var e0 := Push(EmptyOutput, InterfaceId(d.id));
    ConstantsPush(EmptyOutput, InterfaceId(d.id));
    TypesHaveNone(e0, d.types);
    ConstantsPush(DefineTypes(e0, d.types).value, TypeSchemas(TypeNames(d.types).value));
  }

  lemma {:induction false} CallbackStageHas(e: Output, d: Descriptor)
    requires EmitCallbacksOn(e, d).Ok?
    ensures Constants(EmitCallbacksOn(e, d).value.definitions) == Constants(e.definitions) + CallbackConstants(d.callbacks)
  {
    CallbacksHave(e, d, d.callbacks);
    CapabilitiesHaveNone(EmitCallbacks(e, d, d.callbacks).value, d, d.capabilities);
  }

  lemma {:induction false} EventStageHas(e: Output, d: Descriptor)
    requires EmitEventsOn(e, d).Ok?
    ensures Constants(EmitEventsOn(e, d).value.definitions)
         == Constants(e.definitions) + (EventConstants(d.events) + CallbackConstants(d.callbacks))
  {
    EventsHave(e, d, d.events);
    var e1 := EmitEvents(e, d, d.events).value;
    assert EmitEventsOn(e, d) == EmitCallbacksOn(e1, d);
    CallbackStageHas(e1, d);
    Regroup(Constants(e.definitions), EventConstants(d.events), CallbackConstants(d.callbacks));
  }

  lemma {:induction false} Regroup(a: seq<string>, b: seq<string>, c: seq<string>)
    ensures a + b + c == a + (b + c)
  {
  }

  lemma {:induction false} ItemStageHas(e: Output, d: Descriptor)
    requires EmitItems(e, d).Ok?
    ensures Constants(EmitItems(e, d).value.definitions)
         == Constants(e.definitions) + (EventConstants(d.events) + CallbackConstants(d.callbacks))
  {
    OperationsHaveNone(e, d, d.operations);
    EventStageHas(EmitOperations(e, d, d.operations).value, d);
  }

  /** The emitted constants are exactly those of the events and then the callbacks, in order. */
  lemma {:induction false} RustConstants(d: Descriptor)
    requires Rust(d).Ok?
    ensures Constants(Rust(d).value) == EventConstants(d.events) + CallbackConstants(d.callbacks)
  {
    TypeStageHasNone(d);
    ItemStageHas(EmitTypes(d).value, d);
  }

  predicate NoRepeats(names: seq<string>) {
    forall i, j :: 0 <= i < j < |names| ==> names[i] != names[j]
  }

  // ---------------------------------------------------------------- what a constant keeps of its id

  lemma {:induction false} UpperCons(c: char, rest: string)
    ensures UpperAll([c] + rest) == [Upper(c)] + UpperAll(rest)
  {
    assert ([c] + rest)[1..] == rest;
  }

  lemma {:induction false} UpperConcat(a: string, b: string)
    ensures UpperAll(a + b) == UpperAll(a) + UpperAll(b)
    decreases |a|
  {
    if a == "" {
      assert a + b == b;
    } else {
      assert (a + b)[1..] == a[1..] + b;
      UpperConcat(a[1..], b);
    }
  }

  lemma {:induction false} UpperAt(text: string)
    ensures |UpperAll(text)| == |text| && forall i :: 0 <= i < |text| ==> UpperAll(text)[i] == Upper(text[i])
    decreases |text|
  {
    if text != "" {
      UpperAt(text[1..]);
    }
  }

  /** An id without its separators and without letter case. */
  function Folded(id: string): string {
    if id == "" then ""
    else if IsSeparator(id[0]) then Folded(id[1..])
    else [Upper(id[0])] + Folded(id[1..])
  }

  lemma {:induction false} CamelFolds(id: string, start: bool)
    requires Camel(id, start).Some?
    ensures UpperAll(Camel(id, start).value) == Folded(id)
    decreases |id|
  {
    if id != "" {
      CamelFolds(id[1..], IsSeparator(id[0]));
      if !IsSeparator(id[0]) {
        UpperCons(if start then Upper(id[0]) else id[0], Camel(id[1..], false).value);
      }
    }
  }

  /** The constant of an id in a role. */
  function ConstantOf(id: string, role: Role): string {
    Folded(id) + UpperAll(Suffix(role))
  }

  lemma {:induction false} RoleConstantIs(id: string, role: Role)
    requires Symbol(id, role).Ok?
    ensures RoleConstant(id, role) == [ConstantName(id, role)] && ConstantName(id, role) == ConstantOf(id, role)
  {
    CamelFolds(id, true);
    UpperConcat(Camel(id, true).value, Suffix(role));
  }

  function ConstantName(id: string, role: Role): string {
    UpperAll(NameOf(id, role))
  }

  lemma {:induction false} RoleConstantOne(id: string, role: Role)
    requires Symbol(id, role).Ok?
    ensures RoleConstant(id, role) == [ConstantName(id, role)]
  {
  }

  /** In one role, two ids get the same constant exactly when they agree up to separators and letter case. */
  lemma {:induction false} SameConstantIff(a: string, b: string, role: Role)
    requires Symbol(a, role).Ok? && Symbol(b, role).Ok?
    ensures RoleConstant(a, role) == RoleConstant(b, role) <==> Folded(a) == Folded(b)
  {
    RoleConstantIs(a, role);
    RoleConstantIs(b, role);
    FoldedApart(a, b, role);
  }

  predicate EmitsConstant(role: Role) {
    role.EventRole? || role.RequestRole? || role.ResponseRole?
  }

  /** The last two letters tell the three roles apart: NT, ST, SE. */
  lemma {:induction false} RolesApart(a: string, b: string, role: Role, role': Role)
    requires EmitsConstant(role) && EmitsConstant(role') && role != role'
    ensures ConstantOf(a, role) != ConstantOf(b, role')
  {
    LastTwo(a, role);
    LastTwo(b, role');
  }

  function Ending(role: Role): (char, char) {
    match role
    case EventRole => ('N', 'T')
    case RequestRole => ('S', 'T')
    case _ => ('S', 'E')
  }

  lemma {:induction false} LastTwo(id: string, role: Role)
    requires EmitsConstant(role)
    ensures var text := ConstantOf(id, role);
            |text| >= 2 && (text[|text| - 2], text[|text| - 1]) == Ending(role)
  {
    UpperAt(Suffix(role));
  }

  // ---------------------------------------------------------------- when each constant is declared once

  lemma {:induction false} EventConstantsAt(d: Descriptor, events: seq<EventEntry>)
    requires forall v | v in events :: EventOk(d, v)
    ensures |EventConstants(events)| == |events|
    ensures forall i :: 0 <= i < |events| ==>
              EventConstants(events)[i] == ConstantName(events[i].id, EventRole) && Symbol(events[i].id, EventRole).Ok?
    decreases |events|
  {
    if events != [] {
      assert EventOk(d, events[0]);
      RoleConstantOne(events[0].id, EventRole);
      EventConstantsAt(d, events[1..]);
    }
  }

  lemma {:induction false} CallbackConstantsFirst(d: Descriptor, callbacks: seq<Callback>)
    requires callbacks != [] && CallbackOk(d, callbacks[0])
    ensures CallbackConstants(callbacks)
         == [ConstantName(callbacks[0].id, SideAt(0))] + [ConstantName(callbacks[0].id, SideAt(1))]
            + CallbackConstants(callbacks[1..])
  {
    var request, response := SideAt(0), SideAt(1);
    RoleConstantOne(callbacks[0].id, request);
    RoleConstantOne(callbacks[0].id, response);
  }

  /** The constants of a callback's two sides stand next to each other. */
  lemma {:induction false} CallbackConstantsAt(d: Descriptor, callbacks: seq<Callback>, k: nat)
    requires (forall c | c in callbacks :: CallbackOk(d, c)) && k < |callbacks|
    ensures var names := CallbackConstants(callbacks);
            && 2 * k + 1 < |names|
            && names[2 * k] == ConstantName(callbacks[k].id, SideAt(0))
            && names[2 * k + 1] == ConstantName(callbacks[k].id, SideAt(1))
    decreases |callbacks|
  {
    assert CallbackOk(d, callbacks[0]);
    CallbackConstantsFirst(d, callbacks);
    var tail := CallbackConstants(callbacks[1..]);
    var a, b := ConstantName(callbacks[0].id, SideAt(0)), ConstantName(callbacks[0].id, SideAt(1));
    if k == 0 {
      PairThen(a, b, tail, 0);
    } else {
      CallbackConstantsAt(d, callbacks[1..], k - 1);
      PairThen(a, b, tail, 2 * k);
    }
  }

  lemma {:induction false} PairThen(a: string, b: string, tail: seq<string>, i: nat)
    requires i < |tail| + 1
    ensures var names := [a] + [b] + tail;
            if i == 0 then names[i] == a && names[i + 1] == b
            else (i == 1 || names[i] == tail[i - 2]) && names[i + 1] == tail[i - 1]
  {
  }

  lemma {:induction false} CallbackConstantAt(d: Descriptor, callbacks: seq<Callback>, i: nat)
    requires (forall c | c in callbacks :: CallbackOk(d, c)) && i < 2 * |callbacks|
    ensures i < |CallbackConstants(callbacks)|
    ensures CallbackConstants(callbacks)[i] == ConstantName(callbacks[i / 2].id, SideAt(i))
  {
    var k := i / 2;
    CallbackConstantsAt(d, callbacks, k);
    EitherSide(CallbackConstants(callbacks), ConstantName(callbacks[k].id, SideAt(0)),
               ConstantName(callbacks[k].id, SideAt(1)), k, i);
    SideOf(i);
  }

  lemma {:induction false} SideOf(i: nat)
    ensures SideAt(i) == if i == 2 * (i / 2) then SideAt(0) else SideAt(1)
  {
  }

  lemma {:induction false} EitherSide(names: seq<string>, a: string, b: string, k: nat, i: nat)
    requires i == 2 * k || i == 2 * k + 1
    requires 2 * k + 1 < |names| && names[2 * k] == a && names[2 * k + 1] == b
    ensures names[i] == if i == 2 * k then a else b
  {
  }

  lemma {:induction false} CallbackConstantsCount(d: Descriptor, callbacks: seq<Callback>)
    requires forall c | c in callbacks :: CallbackOk(d, c)
    ensures |CallbackConstants(callbacks)| == 2 * |callbacks|
    decreases |callbacks|
  {
    if callbacks != [] {
      assert CallbackOk(d, callbacks[0]);
      CallbackConstantsFirst(d, callbacks);
      CallbackConstantsCount(d, callbacks[1..]);
    }
  }

  function SideAt(i: nat): Role {
    if i % 2 == 0 then RequestRole else ResponseRole
  }

  /** No two event ids agree up to separators and letter case. */
  predicate EventsApart(events: seq<EventEntry>) {
    forall i, j :: 0 <= i < j < |events| ==> Folded(events[i].id) != Folded(events[j].id)
  }

  predicate CallbacksApart(callbacks: seq<Callback>) {
    forall i, j :: 0 <= i < j < |callbacks| ==> Folded(callbacks[i].id) != Folded(callbacks[j].id)
  }

  lemma {:induction false} FoldedApart(a: string, b: string, role: Role)
    ensures ConstantOf(a, role) == ConstantOf(b, role) <==> Folded(a) == Folded(b)
  {
    var x, y, z := Folded(a), Folded(b), UpperAll(Suffix(role));
    if x + z == y + z {
      assert |x| == |y|;
      assert (x + z)[..|x|] == x && (y + z)[..|x|] == y;
    }
  }

  lemma {:induction false} EventsOnceIff(d: Descriptor, events: seq<EventEntry>)
    requires forall v | v in events :: EventOk(d, v)
    ensures NoRepeats(EventConstants(events)) <==> EventsApart(events)
  {
    EventConstantsAt(d, events);
    forall i, j | 0 <= i < j < |events|
      ensures EventConstants(events)[i] == EventConstants(events)[j] <==> Folded(events[i].id) == Folded(events[j].id)
    {
      NamesAgreeIff(events[i].id, events[j].id, EventRole, EventRole);
    }
  }

  lemma {:induction false} SideOk(d: Descriptor, callbacks: seq<Callback>, i: nat)
    requires (forall c | c in callbacks :: CallbackOk(d, c)) && i < 2 * |callbacks|
    ensures Symbol(callbacks[i / 2].id, SideAt(i)).Ok? && EmitsConstant(SideAt(i))
  {
    assert CallbackOk(d, callbacks[i / 2]);
  }

  /** Two constants of callbacks are equal exactly when they are of the same side and their ids agree. */
  lemma {:induction false} CallbackPair(d: Descriptor, callbacks: seq<Callback>, i: nat, j: nat)
    requires (forall c | c in callbacks :: CallbackOk(d, c)) && i < 2 * |callbacks| && j < 2 * |callbacks|
    ensures |CallbackConstants(callbacks)| == 2 * |callbacks|
    ensures CallbackConstants(callbacks)[i] == CallbackConstants(callbacks)[j] <==>
              SideAt(i) == SideAt(j) && Folded(callbacks[i / 2].id) == Folded(callbacks[j / 2].id)
  {
    CallbackConstantsCount(d, callbacks);
    CallbackConstantAt(d, callbacks, i);
    CallbackConstantAt(d, callbacks, j);
    SideOk(d, callbacks, i);
    SideOk(d, callbacks, j);
    NamesAgreeIff(callbacks[i / 2].id, callbacks[j / 2].id, SideAt(i), SideAt(j));
  }

  lemma {:induction false} NamesAgreeIff(a: string, b: string, role: Role, role': Role)
    requires Symbol(a, role).Ok? && Symbol(b, role').Ok? && EmitsConstant(role) && EmitsConstant(role')
    ensures ConstantName(a, role) == ConstantName(b, role') <==> role == role' && Folded(a) == Folded(b)
  {
    RoleConstantIs(a, role);
    RoleConstantIs(b, role');
    if role == role' {
      FoldedApart(a, b, role);
    } else {
      RolesApart(a, b, role, role');
    }
  }

  lemma {:induction false} CallbacksOnce(d: Descriptor, callbacks: seq<Callback>)
    requires (forall c | c in callbacks :: CallbackOk(d, c)) && CallbacksApart(callbacks)
    ensures NoRepeats(CallbackConstants(callbacks))
  {
    var names := CallbackConstants(callbacks);
    CallbackConstantsCount(d, callbacks);
    forall i, j | 0 <= i < j < |names| ensures names[i] != names[j] {
      CallbackPair(d, callbacks, i, j);
      HalvesApart(i, j);
    }
  }

  lemma {:induction false} HalvesApart(i: nat, j: nat)
    requires i < j
    ensures SideAt(i) == SideAt(j) ==> i / 2 < j / 2
  {
  }

  lemma {:induction false} CallbackTwice(d: Descriptor, callbacks: seq<Callback>, i: nat, j: nat)
    requires forall c | c in callbacks :: CallbackOk(d, c)
    requires i < j < |callbacks| && Folded(callbacks[i].id) == Folded(callbacks[j].id)
    ensures !NoRepeats(CallbackConstants(callbacks))
  {
    CallbackPair(d, callbacks, 2 * i, 2 * j);
    assert 2 * i / 2 == i && 2 * j / 2 == j;
    var names := CallbackConstants(callbacks);
    assert names[2 * i] == names[2 * j];
  }

  lemma {:induction false} CallbacksOnceIff(d: Descriptor, callbacks: seq<Callback>)
    requires forall c | c in callbacks :: CallbackOk(d, c)
    ensures NoRepeats(CallbackConstants(callbacks)) <==> CallbacksApart(callbacks)
  {
    if CallbacksApart(callbacks) {
      CallbacksOnce(d, callbacks);
    } else {
      var i, j :| 0 <= i < j < |callbacks| && Folded(callbacks[i].id) == Folded(callbacks[j].id);
      CallbackTwice(d, callbacks, i, j);
    }
  }

  lemma {:induction false} EventsAndCallbacksApart(d: Descriptor)
    requires (forall v | v in d.events :: EventOk(d, v)) && (forall c | c in d.callbacks :: CallbackOk(d, c))
    ensures forall i, j :: 0 <= i < |EventConstants(d.events)| && 0 <= j < |CallbackConstants(d.callbacks)| ==>
              EventConstants(d.events)[i] != CallbackConstants(d.callbacks)[j]
  {
    EventConstantsAt(d, d.events);
    CallbackConstantsCount(d, d.callbacks);
    forall i, j | 0 <= i < |d.events| && 0 <= j < 2 * |d.callbacks|
      ensures EventConstants(d.events)[i] != CallbackConstants(d.callbacks)[j]
    {
      CallbackConstantAt(d, d.callbacks, j);
      SideOk(d, d.callbacks, j);
      NamesAgreeIff(d.events[i].id, d.callbacks[j / 2].id, EventRole, SideAt(j));
    }
  }

  lemma {:induction false} NoRepeatsConcat(a: seq<string>, b: seq<string>)
    requires forall i, j :: 0 <= i < |a| && 0 <= j < |b| ==> a[i] != b[j]
    ensures NoRepeats(a + b) <==> NoRepeats(a) && NoRepeats(b)
  {
    var c := a + b;
    if NoRepeats(c) {
      forall i, j | 0 <= i < j < |a| ensures a[i] != a[j] {
        assert c[i] == a[i] && c[j] == a[j];
      }
      forall i, j | 0 <= i < j < |b| ensures b[i] != b[j] {
        assert c[|a| + i] == b[i] && c[|a| + j] == b[j];
      }
    }
  }

  /**
   * When generation succeeds, each id constant is declared once if and only if no two event ids, and no two callback
   * ids, agree up to separators and letter case. Nothing checks this: the names of the constants are not reserved.
   */
  lemma {:induction false} ConstantsDeclaredOnceIff(d: Descriptor)
    requires Rust(d).Ok?
    ensures NoRepeats(Constants(Rust(d).value)) <==> EventsApart(d.events) && CallbacksApart(d.callbacks)
  {
    RustSucceedsIff(d);
    RustConstants(d);
    EventsOnceIff(d, d.events);
    CallbacksOnceIff(d, d.callbacks);
    EventsAndCallbacksApart(d);
    NoRepeatsConcat(EventConstants(d.events), CallbackConstants(d.callbacks));
  }

  // ---------------------------------------------------------------- a descriptor whose constants clash

  lemma {:induction false} CamelCons(c: char, rest: string, start: bool)
    ensures Camel([c] + rest, start) ==
              if IsSeparator(c) then (if start then None else Camel(rest, true))
              else if Camel(rest, false).None? then None
              else Some([if start then Upper(c) else c] + Camel(rest, false).value)
  {
    assert ([c] + rest)[1..] == rest;
  }

  /** Where the separator stands shows only in which letter is upper case. */
  lemma {:induction false} CamelOfThree(x: char, y: char, z: char)
    requires !IsSeparator(x) && !IsSeparator(y) && !IsSeparator(z)
    ensures Camel([x] + (['.'] + ([y] + ([z] + ""))), true) == Some([Upper(x)] + ([Upper(y)] + ([z] + "")))
    ensures Camel([x] + ([y] + (['.'] + ([z] + ""))), true) == Some([Upper(x)] + ([y] + ([Upper(z)] + "")))
  {
    CamelCons(z, "", false);
    CamelCons(z, "", true);
    CamelCons(y, [z] + "", true);
    CamelCons('.', [y] + ([z] + ""), false);
    CamelCons(x, ['.'] + ([y] + ([z] + "")), true);
    CamelCons('.', [z] + "", false);
    CamelCons(y, ['.'] + ([z] + ""), false);
    CamelCons(x, [y] + (['.'] + ([z] + "")), true);
  }

  function FirstId(): string {
    ['a'] + (['.'] + (['b'] + (['c'] + "")))
  }

  function SecondId(): string {
    ['a'] + (['b'] + (['.'] + (['c'] + "")))
  }

  /** One type, one capability, and two events whose ids differ in where the separator stands. */
  function ClashingDescriptor(): Descriptor {
    Descriptor("i", [TypeEntry(['t'], Table(End))], [],
               [EventEntry(FirstId(), ['t'], ['c']), EventEntry(SecondId(), ['t'], ['c'])], [], [Capability(['c'], [])])
  }

  lemma {:induction false} LetterNames(c: char, role: Role)
    requires 'a' <= c <= 'z' && c != 's'
    ensures Symbol([c], role) == Ok([Upper(c)] + Suffix(role))
  {
    CamelCons(c, "", true);
    assert Camel("", false) == Some("");
    assert [c] + "" == [c];
    assert [Upper(c)] + "" == [Upper(c)];
    IdentifierOf([Upper(c)], role);
  }

  lemma {:induction false} SuffixParts(role: Role)
    ensures |Suffix(role)| >= 4 && forall i :: 0 <= i < |Suffix(role)| ==> IsLetter(Suffix(role)[i])
  {
  }

  lemma {:induction false} IdentifierOf(text: string, role: Role)
    requires text != "" && forall i :: 0 <= i < |text| ==> IsLetter(text[i])
    requires 'A' <= text[0] <= 'Z' && text[0] != 'S'
    ensures IsIdentifier(text + Suffix(role))
  {
    SuffixParts(role);
    assert (text + Suffix(role))[0] == text[0];
  }

  lemma {:induction false} ClashingNames()
    ensures Symbol(FirstId(), EventRole) == Ok(['A'] + (['B'] + (['c'] + "")) + Suffix(EventRole))
    ensures Symbol(SecondId(), EventRole) == Ok(['A'] + (['b'] + (['C'] + "")) + Suffix(EventRole))
  {
    CamelOfThree('a', 'b', 'c');
    assert Upper('a') == 'A' && Upper('b') == 'B' && Upper('c') == 'C';
    IdentifierOf(['A'] + (['B'] + (['c'] + "")), EventRole);
    IdentifierOf(['A'] + (['b'] + (['C'] + "")), EventRole);
  }

  lemma {:induction false} ClashingFolds()
    ensures Folded(FirstId()) == Folded(SecondId())
  {
    CamelOfThree('a', 'b', 'c');
    CamelFolds(FirstId(), true);
    CamelFolds(SecondId(), true);
    var x, y := Camel(FirstId(), true).value, Camel(SecondId(), true).value;
    UpperAt(x);
    UpperAt(y);
    assert UpperAll(x) == UpperAll(y);
  }

  lemma {:induction false} ClashingAllNames()
    ensures var d := ClashingDescriptor();
            AllNames(d) == [NameOf(['t'], TypeRole), NameOf(FirstId(), EventRole), NameOf(SecondId(), EventRole),
                            NameOf(['c'], CapabilityRole)]
  {
    var d := ClashingDescriptor();
    assert NamesOfTypes(d.types[1..]) == [];
    assert NamesOfEvents(d.events[1..][1..]) == [];
    assert NamesOfCapabilities(d.capabilities[1..]) == [];
    assert NamesOfEvents(d.events) == [NameOf(FirstId(), EventRole), NameOf(SecondId(), EventRole)];
  }

  lemma {:induction false} ClashingNamesDiffer()
    ensures AllDifferent(AllNames(ClashingDescriptor()))
  {
    ClashingNames();
    ClashingAllNames();
    LetterNames('t', TypeRole);
    LetterNames('c', CapabilityRole);
    FourDiffer(NameOf(['t'], TypeRole), NameOf(FirstId(), EventRole), NameOf(SecondId(), EventRole),
               NameOf(['c'], CapabilityRole));
  }

  lemma {:induction false} FourDiffer(a: string, b: string, c: string, d: string)
    requires |a| > 1 && |b| > 1 && |c| > 1 && |d| > 1
    requires a[0] == 'T' && b[0] == 'A' && c[0] == 'A' && d[0] == 'C' && b[1] != c[1]
    ensures AllDifferent([a, b, c, d])
  {
  }

  lemma {:induction false} ClashingPartsOk(d: Descriptor)
    requires d == ClashingDescriptor()
    ensures (forall t | t in d.types :: TypeOk(t)) && ItemsOk(d)
  {
    ClashingNames();
    LetterNames('t', TypeRole);
    LetterNames('c', CapabilityRole);
    assert d.types[0].id == ['t'] && HasType(d, ['t']);
    assert d.capabilities[0].id == ['c'] && HasCapability(d, ['c']);
    assert Emittable(Table(End));
  }

  lemma {:induction false} ClashingGenerates()
    ensures Rust(ClashingDescriptor()).Ok?
  {
    ClashingNamesDiffer();
    ClashingPartsOk(ClashingDescriptor());
    RustSucceedsIff(ClashingDescriptor());
  }

  /** Generation succeeds for the descriptor and the output declares one constant twice. */
  lemma {:induction false} ConstantDeclaredTwice()
    ensures Rust(ClashingDescriptor()).Ok? && !NoRepeats(Constants(Rust(ClashingDescriptor()).value))
  {
    ClashingGenerates();
    ClashingFolds();
    ConstantsDeclaredOnceIff(ClashingDescriptor());
  }
}
