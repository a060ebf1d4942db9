/** The emitted declarations mean what the descriptor says: reading them back gives its schemas. */
module EmitterMeaning {
  import opened Wrappers
  import opened Schema
  import opened EmitterSpec

  // ---------------------------------------------------------------- reading declarations back

  function Wrapped(t: Option<Type>, wrap: Type -> Type): Option<Type> {
    if t.None? then None else Some(wrap(t.value))
  }

  /** The schema a type expression denotes where only `defs` is in scope. */
  function Read(defs: seq<Decl>, ty: RustType): Option<Type>
    decreases |defs|, 0, ty
  {
    match ty
    case RValue => Some(Any)
    case RUnit => Some(Unit)
    case RBool => Some(Bool)
    case RI64 => Some(I64)
    case RU64 => Some(U64)
    case RF64 => Some(F64)
    case RString => Some(String)
    case RBytes => Some(Bytes)
    case ROption(item) => Wrapped(Read(defs, item), t => Optional(t))
    case RVec(item) => Wrapped(Read(defs, item), t => List(t))
    case RBTreeMap(item) => Wrapped(Read(defs, item), t => Map(t))
    case RArray(item, len) => Wrapped(Read(defs, item), t => Array(t, len))
    case RName(name) =>
      if defs == [] then None
      else
        var last := |defs| - 1;
        if DeclaredName(defs[last]) == Some(name) then ReadDecl(defs[..last], defs[last]) else Read(defs[..last], ty)
  }

  /** The schema of a declaration whose members may mention only the declarations `defs` before it. */
  function ReadDecl(defs: seq<Decl>, d: Decl): Option<Type>
    decreases |defs|, 2, NoMember
  {
    match d
    case Struct(_, members) =>
      (var fields := ReadMembers(defs, members, false); if fields.None? then None else Some(Table(fields.value)))
    case Enum(_, members) =>
      (var fields := ReadMembers(defs, members, true); if fields.None? then None else Some(Variant(fields.value)))
    case CallableStruct(_, contract, input, output) =>
      (var i, o := Read(defs, input), Read(defs, output);
       if i.None? || o.None? then None else Some(Callable(contract, i.value, o.value)))
    case ObjectStruct(_, contract) => Some(Object(contract))
    case Alias(_, target) => Read(defs, RName(target))
    case _ => None
  }

  function ReadMembers(defs: seq<Decl>, members: Members, variant: bool): Option<Fields>
    decreases |defs|, 1, members
  {
    match members
    case NoMember => Some(End)
    case Member(key, payload, rest) =>
      var schema := if payload.Some? then Read(defs, payload.value) else if variant then Some(Unit) else None;
      var fields := ReadMembers(defs, rest, variant);
      if schema.None? || fields.None? then None else Some(Field(key, schema.value, fields.value))
  }

  function Declared(defs: seq<Decl>): set<string> {
    if defs == [] then {}
    else
      var name := DeclaredName(defs[|defs| - 1]);
      Declared(defs[..|defs| - 1]) + if name.Some? then {name.value} else {}
  }

  /** No name is declared twice. */
  predicate DeclaredOnce(defs: seq<Decl>) {
    defs == [] ||
    (DeclaredOnce(defs[..|defs| - 1]) &&
     var name := DeclaredName(defs[|defs| - 1]);
     name.Some? ==> name.value !in Declared(defs[..|defs| - 1]))
  }

  // ---------------------------------------------------------------- later declarations change nothing

  lemma {:induction false} Snoc(defs: seq<Decl>, d: Decl)
    ensures Declared(defs + [d]) == Declared(defs) + (if DeclaredName(d).Some? then {DeclaredName(d).value} else {})
    ensures DeclaredOnce(defs + [d]) <==>
              DeclaredOnce(defs) && (DeclaredName(d).Some? ==> DeclaredName(d).value !in Declared(defs))
  {
    assert (defs + [d])[..|defs|] == defs;
  }

  lemma {:induction false} ReadKnown(defs: seq<Decl>, name: string)
    requires Read(defs, RName(name)).Some?
    ensures name in Declared(defs)
    decreases |defs|
  {
    var last := |defs| - 1;
    if DeclaredName(defs[last]) != Some(name) {
      ReadKnown(defs[..last], name);
    }
  }

  lemma {:induction false} ReadSnoc(defs: seq<Decl>, d: Decl, ty: RustType)
    requires Read(defs, ty).Some?
    requires DeclaredName(d).Some? ==> DeclaredName(d).value !in Declared(defs)
    ensures Read(defs + [d], ty) == Read(defs, ty)
    decreases ty
  {
    match ty
    case ROption(item) => ReadSnoc(defs, d, item);
    case RVec(item) => ReadSnoc(defs, d, item);
    case RBTreeMap(item) => ReadSnoc(defs, d, item);
    case RArray(item, _) => ReadSnoc(defs, d, item);
    case RName(name) =>
      ReadKnown(defs, name);
      assert (defs + [d])[..|defs|] == defs;
    case _ =>
  }

  lemma {:induction false} ReadStable(defs: seq<Decl>, more: seq<Decl>, ty: RustType)
    requires Read(defs, ty).Some? && DeclaredOnce(defs + more)
    ensures Read(defs + more, ty) == Read(defs, ty)
    decreases |more|
  {
    if more == [] {
      assert defs + more == defs;
    } else {
      var init, d := more[..|more| - 1], more[|more| - 1];
      assert defs + more == (defs + init) + [d];
      Snoc(defs + init, d);
      ReadStable(defs, init, ty);
      ReadSnoc(defs + init, d, ty);
    }
  }

  lemma {:induction false} ReadMembersSnoc(defs: seq<Decl>, d: Decl, members: Members, variant: bool)
    requires ReadMembers(defs, members, variant).Some?
    requires DeclaredName(d).Some? ==> DeclaredName(d).value !in Declared(defs)
    ensures ReadMembers(defs + [d], members, variant) == ReadMembers(defs, members, variant)
    decreases members
  {
    if members.Member? {
      if members.payload.Some? {
        ReadSnoc(defs, d, members.payload.value);
      }
      ReadMembersSnoc(defs, d, members.rest, variant);
    }
  }

  // ---------------------------------------------------------------- one emitter step

  predicate Sound(e: Output) {
    Declared(e.definitions) <= e.names && DeclaredOnce(e.definitions)
  }

  /** `e'` has `e`'s declarations and, after them, only declarations of names that `e` had not reserved. */
  predicate Grows(e: Output, e': Output) {
    && e.definitions <= e'.definitions
    && e.names <= e'.names
    && e.next <= e'.next
    && Declared(e'.definitions) * e.names <= Declared(e.definitions)
  }

  /** Moreover nothing that gives a type its contract id, or the table of schemas, was added. */
  predicate Extends(e: Output, e': Output) {
    && Grows(e, e')
    && forall i :: |e.definitions| <= i < |e'.definitions| ==>
         !e'.definitions[i].ContractImpl? && !e'.definitions[i].TypeSchemas?
  }

  lemma {:induction false} ExtendsTwice(e: Output, e': Output, e'': Output)
    requires Extends(e, e') && Extends(e', e'')
    ensures Extends(e, e'')
  {
  }

  lemma {:induction false} StillReads(e: Output, e': Output, ty: RustType)
    requires Read(e.definitions, ty).Some? && Grows(e, e') && Sound(e')
    ensures Read(e'.definitions, ty) == Read(e.definitions, ty)
  {
    var more := e'.definitions[|e.definitions|..];
    assert e'.definitions == e.definitions + more;
    ReadStable(e.definitions, more, ty);
  }

  /** Emitting the declaration of a name reserved and not yet declared. */
  lemma {:induction false} PushSound(e: Output, e1: Output, d: Decl)
    requires Sound(e1) && Extends(e, e1) && !d.ContractImpl? && !d.TypeSchemas?
    requires DeclaredName(d).Some? ==> DeclaredName(d).value in e1.names - Declared(e1.definitions) - e.names
    ensures Sound(Push(e1, d)) && Extends(e, Push(e1, d))
    ensures DeclaredName(d).Some? ==>
              Read(Push(e1, d).definitions, RName(DeclaredName(d).value)) == ReadDecl(e1.definitions, d)
  {
    Snoc(e1.definitions, d);
    assert (e1.definitions + [d])[..|e1.definitions|] == e1.definitions;
  }

  lemma {:induction false} NestedSound(e: Output, schema: Type)
    requires Sound(e) && Nested(e, schema).Ok?
    ensures var (e', ty) := Nested(e, schema).value;
            Sound(e') && Extends(e, e') && Read(e'.definitions, ty) == Some(schema)
    decreases schema, 1
  {
    match schema
    case Optional(_) => WrappedSound(e, schema);
    case List(_) => WrappedSound(e, schema);
    case Map(_) => WrappedSound(e, schema);
    case Array(_, _) => WrappedSound(e, schema);
    case Table(_) => StructuralSound(e, schema);
    case Variant(_) => StructuralSound(e, schema);
    case Callable(_, _, _) => CallableSound(e, schema);
    case Object(_) => ObjectSound(e, schema);
    case _ =>
  }

  lemma {:induction false} WrappedSound(e: Output, schema: Type)
    requires (schema.Optional? || schema.List? || schema.Map? || schema.Array?) && Sound(e) && Nested(e, schema).Ok?
    ensures var (e', ty) := Nested(e, schema).value;
            Sound(e') && Extends(e, e') && Read(e'.definitions, ty) == Some(schema)
    decreases schema, 0, 1
  {
    NestedSound(e, schema.item);
  }

  lemma {:induction false} StructuralSound(e: Output, schema: Type)
    requires (schema.Table? || schema.Variant?) && Sound(e) && NestedDefine(e, schema).Ok?
    ensures var (e', ty) := NestedDefine(e, schema).value;
            Sound(e') && Extends(e, e') && Read(e'.definitions, ty) == Some(schema)
    decreases schema, 0, 1
  {
    DefineSound(e.(next := e.next + 1), Generated(Structural, e.next), schema);
  }

  lemma {:induction false} ObjectSound(e: Output, schema: Type)
    requires schema.Object? && Sound(e) && Nested(e, schema).Ok?
    ensures var (e', ty) := Nested(e, schema).value;
            Sound(e') && Extends(e, e') && Read(e'.definitions, ty) == Some(schema)
  {
    var name := Generated(ObjectKind, e.next);
    var e1 := e.(next := e.next + 1, names := e.names + {name});
    PushSound(e, e1, ObjectStruct(name, schema.contract));
  }

  lemma {:induction false} CallableSound(e: Output, schema: Type)
    requires schema.Callable? && Sound(e) && Nested(e, schema).Ok?
    ensures var (e', ty) := Nested(e, schema).value;
            Sound(e') && Extends(e, e') && Read(e'.definitions, ty) == Some(schema)
    decreases schema, 0, 1
  {
    NestedSound(e, schema.input);
    var (e1, input) := Nested(e, schema.input).value;
    NestedSound(e1, schema.output);
    var (e2, output) := Nested(e1, schema.output).value;
    StillReads(e1, e2, input);
    ExtendsTwice(e, e1, e2);
    ReferenceSound(e, e2, schema, input, output);
  }

  /** The reference type of a callable whose input and output have been emitted. */
  lemma {:induction false} ReferenceSound(e: Output, e2: Output, schema: Type, input: RustType, output: RustType)
    requires schema.Callable? && Sound(e2) && Extends(e, e2) && Generated(CallableKind, e2.next) !in e2.names
    requires Read(e2.definitions, input) == Some(schema.input) && Read(e2.definitions, output) == Some(schema.output)
    ensures var name := Generated(CallableKind, e2.next);
            var e3 := e2.(next := e2.next + 1, names := e2.names + {name});
            var e' := Push(e3, CallableStruct(name, schema.contract, input, output));
            Sound(e') && Extends(e, e') && Read(e'.definitions, RName(name)) == Some(schema)
  {
    var name := Generated(CallableKind, e2.next);
    var e3 := e2.(next := e2.next + 1, names := e2.names + {name});
    PushSound(e, e3, CallableStruct(name, schema.contract, input, output));
  }

  /** `define` declares its name last, with exactly the schema it was given. */
  lemma {:induction false} DefineSound(e: Output, name: string, schema: Type)
    requires Sound(e) && Define(e, name, schema).Ok?
    ensures var e' := Define(e, name, schema).value;
            && Sound(e') && Extends(e, e') && name !in e.names && name in e'.names
            && Read(e'.definitions, RName(name)) == Some(schema)
    decreases schema, 0, 0
  {
    var e1 := Reserve(e, name).value;
    var fields := if schema.Table? then schema.fields else schema.variants;
    MembersSound(e1, fields, schema.Variant?);
    var (e2, members) := EmitMembers(e1, fields, schema.Variant?).value;
    assert name !in Declared(e2.definitions);
    PushSound(e, e2, if schema.Table? then Struct(name, members) else Enum(name, members));
  }

  lemma {:induction false} MembersSound(e: Output, fields: Fields, variant: bool)
    requires Sound(e) && EmitMembers(e, fields, variant).Ok?
    ensures var (e', members) := EmitMembers(e, fields, variant).value;
            Sound(e') && Extends(e, e') && ReadMembers(e'.definitions, members, variant) == Some(fields)
    decreases fields
  {
    if fields.Field? {
      var (e', members) := EmitMembers(e, fields, variant).value;
      if variant && fields.schema.Unit? {
        MembersSound(e, fields.rest, variant);
      } else {
        NestedSound(e, fields.schema);
        var (e1, ty) := Nested(e, fields.schema).value;
        MembersSound(e1, fields.rest, variant);
        OneMoreMember(e, e1, e', ty);
      }
    }
  }

  lemma {:induction false} OneMoreMember(e: Output, e1: Output, e': Output, ty: RustType)
    requires Extends(e, e1) && Extends(e1, e') && Sound(e') && Read(e1.definitions, ty).Some?
    ensures Extends(e, e') && Read(e'.definitions, ty) == Read(e1.definitions, ty)
  {
    StillReads(e1, e', ty);
    ExtendsTwice(e, e1, e');
  }

  // ---------------------------------------------------------------- the whole descriptor

  /** The contract id that the implementations in `defs` give to the type `name`. */
  function ContractIdOf(defs: seq<Decl>, name: string): Option<string> {
    if defs == [] then None
    else
      var d := defs[|defs| - 1];
      if d.ContractImpl? && d.name == name then Some(d.id) else ContractIdOf(defs[..|defs| - 1], name)
  }

  lemma {:induction false} ContractStable(defs: seq<Decl>, defs': seq<Decl>, name: string)
    requires defs <= defs'
    requires forall i :: |defs| <= i < |defs'| && defs'[i].ContractImpl? ==> defs'[i].name != name
    ensures ContractIdOf(defs', name) == ContractIdOf(defs, name)
    decreases |defs'|
  {
    if defs == defs' {
    } else {
      ContractStable(defs, defs'[..|defs'| - 1], name);
    }
  }

  /** The entry reads back: its name is declared with its schema and carries its id. */
  predicate EntryReads(defs: seq<Decl>, t: TypeEntry) {
    && Symbol(t.id, TypeRole).Ok?
    && Read(defs, RName(Symbol(t.id, TypeRole).value)) == Some(t.schema)
    && ContractIdOf(defs, Symbol(t.id, TypeRole).value) == Some(t.id)
  }

  /** Only reserved names carry a contract id. */
  ghost predicate ImplsReserved(e: Output) {
    forall n :: ContractIdOf(e.definitions, n).Some? ==> n in e.names
  }

  lemma {:induction false} TypeSound(e: Output, t: TypeEntry)
    requires Sound(e) && ImplsReserved(e) && DefineType(e, t).Ok?
    ensures var e' := DefineType(e, t).value;
            && Sound(e') && ImplsReserved(e') && Grows(e, e') && EntryReads(e'.definitions, t)
            && Symbol(t.id, TypeRole).value in e'.names
            && forall n | n in e.names :: ContractIdOf(e'.definitions, n) == ContractIdOf(e.definitions, n)
  {
    var name := Symbol(t.id, TypeRole).value;
    var e1 := Define(e, name, t.schema).value;
    var d := ContractImpl(name, t.id);
    var e' := Push(e1, d);
    DefineSound(e, name, t.schema);
    Snoc(e1.definitions, d);
    ReadSnoc(e1.definitions, d, RName(name));
    assert e'.definitions[..|e1.definitions|] == e1.definitions;
    forall n ensures ContractIdOf(e'.definitions, n) == if n == name then Some(t.id) else ContractIdOf(e.definitions, n) {
      ContractStable(e.definitions, e1.definitions, n);
    }
  }

  lemma {:induction false} EntryStable(e: Output, e': Output, t: TypeEntry)
    requires EntryReads(e.definitions, t) && Grows(e, e') && Sound(e')
    requires ContractIdOf(e'.definitions, Symbol(t.id, TypeRole).value) == Some(t.id)
    ensures EntryReads(e'.definitions, t)
  {
    StillReads(e, e', RName(Symbol(t.id, TypeRole).value));
  }

  lemma {:induction false} TypesSound(e: Output, types: seq<TypeEntry>)
    requires Sound(e) && ImplsReserved(e) && DefineTypes(e, types).Ok?
    ensures var e' := DefineTypes(e, types).value;
            && Sound(e') && ImplsReserved(e') && Grows(e, e')
            && (forall t | t in types :: EntryReads(e'.definitions, t))
            && forall n | n in e.names :: ContractIdOf(e'.definitions, n) == ContractIdOf(e.definitions, n)
    decreases |types|
  {
    if types != [] {
      var e1 := DefineType(e, types[0]).value;
      var e' := DefineTypes(e, types).value;
      TypeSound(e, types[0]);
      TypesSound(e1, types[1..]);
      EntryStable(e1, e', types[0]);
      forall t | t in types ensures EntryReads(e'.definitions, t) {
        assert t == types[0] || t in types[1..];
      }
    }
  }

  /** What `type_schemas()` of the emitted program returns: each listed name's id with that name's schema. */
  function ReadEntries(defs: seq<Decl>, names: seq<string>): Option<seq<TypeEntry>> {
    if names == [] then Some([])
    else
      var id, schema := ContractIdOf(defs, names[0]), Read(defs, RName(names[0]));
      var rest := ReadEntries(defs, names[1..]);
      if id.None? || schema.None? || rest.None? then None
      else Some([TypeEntry(id.value, schema.value)] + rest.value)
  }

  function ListedNames(defs: seq<Decl>): Option<seq<string>> {
    if defs == [] then None
    else if defs[|defs| - 1].TypeSchemas? then Some(defs[|defs| - 1].entries)
    else ListedNames(defs[..|defs| - 1])
  }

  function ReadTypeSchemas(defs: seq<Decl>): Option<seq<TypeEntry>> {
    var names := ListedNames(defs);
    if names.None? then None else ReadEntries(defs, names.value)
  }

  lemma {:induction false} ListedStable(defs: seq<Decl>, defs': seq<Decl>)
    requires defs <= defs' && forall i :: |defs| <= i < |defs'| ==> !defs'[i].TypeSchemas?
    ensures ListedNames(defs') == ListedNames(defs)
    decreases |defs'|
  {
    if defs == defs' {
    } else {
      ListedStable(defs, defs'[..|defs'| - 1]);
    }
  }

  lemma {:induction false} EntriesRead(defs: seq<Decl>, types: seq<TypeEntry>)
    requires forall t | t in types :: EntryReads(defs, t)
    ensures TypeNames(types).Ok? && ReadEntries(defs, TypeNames(types).value) == Some(types)
    decreases |types|
  {
    if types != [] {
      assert EntryReads(defs, types[0]);
      EntriesRead(defs, types[1..]);
      assert types == [types[0]] + types[1..];
      assert TypeNames(types).value[1..] == TypeNames(types[1..]).value;
    }
  }

  /** The state after the type declarations, kept by every later step. */
  predicate TypesRead(e: Output, d: Descriptor) {
    && Sound(e)
    && (forall t | t in d.types :: EntryReads(e.definitions, t))
    && TypeNames(d.types).Ok? && ListedNames(e.definitions) == Some(TypeNames(d.types).value)
  }

  lemma {:induction false} EmitTypesSound(d: Descriptor)
    requires EmitTypes(d).Ok?
    ensures TypesRead(EmitTypes(d).value, d)
  {
    FirstLine(d.id);
    TypesSound(Push(EmptyOutput, InterfaceId(d.id)), d.types);
    var e := DefineTypes(Push(EmptyOutput, InterfaceId(d.id)), d.types).value;
    var last := TypeSchemas(TypeNames(d.types).value);
    var e' := Push(e, last);
    Snoc(e.definitions, last);
    assert e'.definitions[..|e.definitions|] == e.definitions;
    forall t | t in d.types ensures EntryReads(e'.definitions, t) {
      EntryStable(e, e', t);
    }
  }

  /** The line with the interface id declares no name and no contract. */
  lemma {:induction false} FirstLine(id: string)
    ensures var e0 := Push(EmptyOutput, InterfaceId(id));
            && Sound(e0) && ImplsReserved(e0) && forall n :: ContractIdOf(e0.definitions, n) == None
  {
    var e0 := Push(EmptyOutput, InterfaceId(id));
    assert e0.definitions == [InterfaceId(id)] && e0.definitions[..0] == [];
    Snoc([], InterfaceId(id));
    assert forall n :: ContractIdOf([], n) == None;
  }

  lemma {:induction false} LaterKeepsTypes(e: Output, e': Output, d: Descriptor)
    requires TypesRead(e, d) && Extends(e, e') && Sound(e')
    ensures TypesRead(e', d)
  {
    ListedStable(e.definitions, e'.definitions);
    forall t | t in d.types ensures EntryReads(e'.definitions, t) {
      ContractStable(e.definitions, e'.definitions, Symbol(t.id, TypeRole).value);
      EntryStable(e, e', t);
    }
  }

  /** The item named for an id in some role stands for the schema of the type `payload`. */
  predicate RoleReads(defs: seq<Decl>, d: Descriptor, id: string, role: Role, payload: string) {
    && Symbol(id, role).Ok?
    && forall t | t in d.types && t.id == payload :: Read(defs, RName(Symbol(id, role).value)) == Some(t.schema)
  }

  /** The operation's marker is emitted with its id, its capability and names that read as its schemas. */
  predicate OperationReads(defs: seq<Decl>, d: Descriptor, o: Operation) {
    && Symbol(o.id, OperationRole).Ok? && Symbol(o.input, TypeRole).Ok? && Symbol(o.output, TypeRole).Ok?
    && OperationStruct(Symbol(o.id, OperationRole).value, o.id, o.capability, Symbol(o.input, TypeRole).value,
                       Symbol(o.output, TypeRole).value) in defs
    && RoleReads(defs, d, o.input, TypeRole, o.input)
    && RoleReads(defs, d, o.output, TypeRole, o.output)
  }

  lemma {:induction false} RoleStable(e: Output, e': Output, d: Descriptor, id: string, role: Role, payload: string)
    requires RoleReads(e.definitions, d, id, role, payload) && Grows(e, e') && Sound(e')
    ensures RoleReads(e'.definitions, d, id, role, payload)
  {
    forall t | t in d.types && t.id == payload
      ensures Read(e'.definitions, RName(Symbol(id, role).value)) == Some(t.schema)
    {
      StillReads(e, e', RName(Symbol(id, role).value));
    }
  }

  lemma {:induction false} AliasSound(e: Output, d: Descriptor, name: string, payload: string)
    requires TypesRead(e, d) && name !in e.names && Symbol(payload, TypeRole).Ok?
    ensures var e' := Push(e.(names := e.names + {name}), Alias(name, Symbol(payload, TypeRole).value));
            && TypesRead(e', d) && Extends(e, e')
            && forall t | t in d.types && t.id == payload :: Read(e'.definitions, RName(name)) == Some(t.schema)
  {
    var target := Symbol(payload, TypeRole).value;
    var e1 := e.(names := e.names + {name});
    PushSound(e, e1, Alias(name, target));
    LaterKeepsTypes(e, Push(e1, Alias(name, target)), d);
    forall t | t in d.types && t.id == payload
      ensures Read(Push(e1, Alias(name, target)).definitions, RName(name)) == Some(t.schema)
    {
      assert EntryReads(e.definitions, t);
    }
  }

  lemma {:induction false} RoleSound(e: Output, d: Descriptor, id: string, role: Role, payload: string)
    requires TypesRead(e, d) && EmitRole(e, id, role, payload).Ok?
    ensures var e' := EmitRole(e, id, role, payload).value;
            TypesRead(e', d) && Extends(e, e') && RoleReads(e'.definitions, d, id, role, payload)
  {
    var name := Symbol(id, role).value;
    AliasSound(e, d, name, payload);
    var e2 := Push(e.(names := e.names + {name}), Alias(name, Symbol(payload, TypeRole).value));
    var constant := IdConstant(UpperAll(name), id);
    var e' := Push(e2, constant);
    assert EmitRole(e, id, role, payload).value == e';
    PushSound(e, e2, constant);
    Snoc(e2.definitions, constant);
    LaterKeepsTypes(e2, e', d);
    RoleStable(e2, e', d, id, role, payload);
  }

  lemma {:induction false} OperationSound(e: Output, d: Descriptor, o: Operation)
    requires TypesRead(e, d) && EmitOperation(e, d, o).Ok?
    ensures var e' := EmitOperation(e, d, o).value;
            TypesRead(e', d) && Extends(e, e') && OperationReads(e'.definitions, d, o)
  {
    var name := Symbol(o.id, OperationRole).value;
    var e1 := Reserve(e, name).value;
    var e' := EmitOperation(e, d, o).value;
    PushSound(e, e1, e'.definitions[|e1.definitions|]);
    LaterKeepsTypes(e, e', d);
    forall t | t in d.types ensures EntryReads(e'.definitions, t) {
    }
  }

  lemma {:induction false} OperationStable(e: Output, e': Output, d: Descriptor, o: Operation)
    requires OperationReads(e.definitions, d, o) && Grows(e, e') && Sound(e')
    ensures OperationReads(e'.definitions, d, o)
  {
    RoleStable(e, e', d, o.input, TypeRole, o.input);
    RoleStable(e, e', d, o.output, TypeRole, o.output);
  }

  lemma {:induction false} OperationsSound(e: Output, d: Descriptor, os: seq<Operation>)
    requires TypesRead(e, d) && EmitOperations(e, d, os).Ok?
    ensures var e' := EmitOperations(e, d, os).value;
            TypesRead(e', d) && Extends(e, e') && forall o | o in os :: OperationReads(e'.definitions, d, o)
    decreases |os|
  {
    if os != [] {
      var e1, e' := EmitOperation(e, d, os[0]).value, EmitOperations(e, d, os).value;
      OperationSound(e, d, os[0]);
      OperationsSound(e1, d, os[1..]);
      ExtendsTwice(e, e1, e');
      OperationStable(e1, e', d, os[0]);
      assert forall o | o in os :: o == os[0] || o in os[1..];
    }
  }

  predicate EventReads(defs: seq<Decl>, d: Descriptor, event: EventEntry) {
    RoleReads(defs, d, event.id, EventRole, event.payload)
  }

  lemma {:induction false} EventsSound(e: Output, d: Descriptor, events: seq<EventEntry>)
    requires TypesRead(e, d) && EmitEvents(e, d, events).Ok?
    ensures var e' := EmitEvents(e, d, events).value;
            TypesRead(e', d) && Extends(e, e') && forall v | v in events :: EventReads(e'.definitions, d, v)
    decreases |events|
  {
    if events != [] {
      var v := events[0];
      var e1, e' := EmitEvent(e, d, v).value, EmitEvents(e, d, events).value;
      RoleSound(e, d, v.id, EventRole, v.payload);
      EventsSound(e1, d, events[1..]);
      ExtendsTwice(e, e1, e');
      RoleStable(e1, e', d, v.id, EventRole, v.payload);
      assert forall w | w in events :: w == v || w in events[1..];
    }
  }

  predicate CallbackReads(defs: seq<Decl>, d: Descriptor, c: Callback) {
    RoleReads(defs, d, c.id, RequestRole, c.request) && RoleReads(defs, d, c.id, ResponseRole, c.response)
  }

  lemma {:induction false} CallbackSound(e: Output, d: Descriptor, c: Callback)
    requires TypesRead(e, d) && EmitCallback(e, d, c).Ok?
    ensures var e' := EmitCallback(e, d, c).value;
            TypesRead(e', d) && Extends(e, e') && CallbackReads(e'.definitions, d, c)
  {
    var e1 := EmitRole(e, c.id, RequestRole, c.request).value;
    var e2 := EmitRole(e1, c.id, ResponseRole, c.response).value;
    RoleSound(e, d, c.id, RequestRole, c.request);
    RoleSound(e1, d, c.id, ResponseRole, c.response);
    ExtendsTwice(e, e1, e2);
    RoleStable(e1, e2, d, c.id, RequestRole, c.request);
  }

  lemma {:induction false} CallbacksSound(e: Output, d: Descriptor, cs: seq<Callback>)
    requires TypesRead(e, d) && EmitCallbacks(e, d, cs).Ok?
    ensures var e' := EmitCallbacks(e, d, cs).value;
            TypesRead(e', d) && Extends(e, e') && forall c | c in cs :: CallbackReads(e'.definitions, d, c)
    decreases |cs|
  {
    if cs != [] {
      var e1, e' := EmitCallback(e, d, cs[0]).value, EmitCallbacks(e, d, cs).value;
      CallbackSound(e, d, cs[0]);
      CallbacksSound(e1, d, cs[1..]);
      ExtendsTwice(e, e1, e');
      RoleStable(e1, e', d, cs[0].id, RequestRole, cs[0].request);
      RoleStable(e1, e', d, cs[0].id, ResponseRole, cs[0].response);
      assert forall c | c in cs :: c == cs[0] || c in cs[1..];
    }
  }

  lemma {:induction false} CapabilitiesSound(e: Output, d: Descriptor, cs: seq<Capability>)
    requires TypesRead(e, d) && EmitCapabilities(e, d, cs).Ok?
    ensures var e' := EmitCapabilities(e, d, cs).value;
            TypesRead(e', d) && Extends(e, e')
            && forall c | c in cs :: Symbol(c.id, CapabilityRole).Ok?
                 && CapabilityStruct(Symbol(c.id, CapabilityRole).value, c.id) in e'.definitions
    decreases |cs|
  {
    if cs != [] {
      var e1, e' := EmitCapability(e, d, cs[0]).value, EmitCapabilities(e, d, cs).value;
      var name := Symbol(cs[0].id, CapabilityRole).value;
      PushSound(e, Reserve(e, name).value, CapabilityStruct(name, cs[0].id));
      LaterKeepsTypes(e, e1, d);
      CapabilitiesSound(e1, d, cs[1..]);
      ExtendsTwice(e, e1, e');
      assert e1.definitions[|e.definitions|] in e'.definitions;
      assert forall c | c in cs :: c == cs[0] || c in cs[1..];
    }
  }

  /**
   * The emitter preserves meaning. Whenever generation succeeds, the emitted program's `type_schemas` is exactly
   * the descriptor's type table; no item name is declared twice; and each operation, event and callback item names
   * the schemas the descriptor gives it. `Read` sees only earlier declarations, so each name is also declared before
   * its first use.
   */
  lemma {:induction false} EmittedMeansDescriptor(d: Descriptor)
    requires Rust(d).Ok?
    ensures var out := Rust(d).value;
            && DeclaredOnce(out)
            && ReadTypeSchemas(out) == Some(d.types)
            && (forall t | t in d.types :: EntryReads(out, t))
            && (forall o | o in d.operations :: OperationReads(out, d, o))
            && (forall v | v in d.events :: EventReads(out, d, v))
            && (forall c | c in d.callbacks :: CallbackReads(out, d, c))
  {
    var e1 := EmitTypes(d).value;
    var e2 := EmitOperations(e1, d, d.operations).value;
    var e3 := EmitEvents(e2, d, d.events).value;
    var e4 := EmitCallbacks(e3, d, d.callbacks).value;
    var e5 := EmitCapabilities(e4, d, d.capabilities).value;
    EmitTypesSound(d);
    OperationsSound(e1, d, d.operations);
    EventsSound(e2, d, d.events);
    CallbacksSound(e3, d, d.callbacks);
    CapabilitiesSound(e4, d, d.capabilities);
    ExtendsTwice(e3, e4, e5);
    ExtendsTwice(e2, e3, e5);
    EntriesRead(e5.definitions, d.types);
    forall o | o in d.operations ensures OperationReads(e5.definitions, d, o) {
      OperationStable(e2, e5, d, o);
    }
    forall v | v in d.events ensures EventReads(e5.definitions, d, v) {
      RoleStable(e3, e5, d, v.id, EventRole, v.payload);
    }
    forall c | c in d.callbacks ensures CallbackReads(e5.definitions, d, c) {
      RoleStable(e4, e5, d, c.id, RequestRole, c.request);
      RoleStable(e4, e5, d, c.id, ResponseRole, c.response);
    }
  }
}
