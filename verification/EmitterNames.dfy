/** The names of the emitted items, spelled out: an id's letters without separators and the literal word of its role. */
module EmitterNames {
  import opened Wrappers
  import opened Schema
  import opened Text
  import opened EmitterSpec
  import opened EmitterSuccess
  import EmitterMeaning

  // ---------------------------------------------------------------- ids

  predicate Separates(c: char) {
    c == '.' || c == '-' || c == '/' || c == ':' || c == '@'
  }

  function Capital(c: char): char {
    if 'a' <= c <= 'z' then (c as int - 32) as char else c
  }

  /** The character at the end of `id` as it stands in a name; `first` says whether a segment begins with the text. */
  function LastShown(id: string, first: bool): string
    requires id != ""
  {
    var n := |id| - 1;
    if Separates(id[n]) then ""
    else if (n == 0 && first) || (n > 0 && Separates(id[n - 1])) then [Capital(id[n])]
    else [id[n]]
  }

  function Shown(id: string, first: bool): string {
    if id == "" then "" else Shown(id[..|id| - 1], first) + LastShown(id, first)
  }

  /** The characters of the id without its separators, the first of each segment as a capital. */
  function Squeezed(id: string): string {
    Shown(id, true)
  }

  lemma {:induction false} ShownFirst(c: char, rest: string, first: bool)
    ensures Shown([c] + rest, first) ==
              (if Separates(c) then "" else if first then [Capital(c)] else [c]) + Shown(rest, Separates(c))
    decreases |rest|
  {
    var text := [c] + rest;
    if rest == "" {
      assert text[..|text| - 1] == "" && Shown("", first) == "";
    } else {
      var fewer := rest[..|rest| - 1];
      assert text[..|text| - 1] == [c] + fewer;
      ShownFirst(c, fewer, first);
      assert text[|text| - 1] == rest[|rest| - 1];
      assert |rest| > 1 ==> text[|text| - 2] == rest[|rest| - 2];
    }
  }

  lemma {:induction false} CamelIsShown(id: string, first: bool)
    requires Camel(id, first).Some?
    ensures Camel(id, first).value == Shown(id, first)
    decreases |id|
  {
    if id != "" {
      assert id == [id[0]] + id[1..];
      ShownFirst(id[0], id[1..], first);
      CamelIsShown(id[1..], Separates(id[0]));
    }
  }

  lemma {:induction false} TypeName(id: string)
    requires Symbol(id, TypeRole).Ok?
    ensures Symbol(id, TypeRole).value == Squeezed(id) + "Type"
  {
    CamelIsShown(id, true);
  }

  lemma {:induction false} OperationName(id: string)
    requires Symbol(id, OperationRole).Ok?
    ensures Symbol(id, OperationRole).value == Squeezed(id) + "Operation"
  {
    CamelIsShown(id, true);
  }

  lemma {:induction false} EventName(id: string)
    requires Symbol(id, EventRole).Ok?
    ensures Symbol(id, EventRole).value == Squeezed(id) + "Event"
  {
    CamelIsShown(id, true);
  }

  lemma {:induction false} RequestName(id: string)
    requires Symbol(id, RequestRole).Ok?
    ensures Symbol(id, RequestRole).value == Squeezed(id) + "CallbackRequest"
  {
    CamelIsShown(id, true);
  }

  lemma {:induction false} ResponseName(id: string)
    requires Symbol(id, ResponseRole).Ok?
    ensures Symbol(id, ResponseRole).value == Squeezed(id) + "CallbackResponse"
  {
    CamelIsShown(id, true);
  }

  lemma {:induction false} CapabilityName(id: string)
    requires Symbol(id, CapabilityRole).Ok?
    ensures Symbol(id, CapabilityRole).value == Squeezed(id) + "Capability"
  {
    CamelIsShown(id, true);
  }

  // ---------------------------------------------------------------- which ids make names

  predicate NameChar(c: char) {
    'a' <= c <= 'z' || 'A' <= c <= 'Z' || '0' <= c <= '9' || c == '_'
  }

  /** Segments that are not empty, of letters, digits and underscores, the first not beginning with a digit. */
  predicate Nameable(id: string) {
    && id != ""
    && !Separates(id[0]) && !('0' <= id[0] <= '9')
    && !Separates(id[|id| - 1])
    && (forall i :: 0 < i < |id| ==> !(Separates(id[i - 1]) && Separates(id[i])))
    && AllPlain(id)
  }

  /** No segment is empty, where one begins with the text if `first`. */
  predicate FullSegments(id: string, first: bool) {
    if id == "" then !first
    else
      && !(first && Separates(id[0]))
      && !Separates(id[|id| - 1])
      && forall i :: 0 < i < |id| ==> !(Separates(id[i - 1]) && Separates(id[i]))
  }

  lemma {:induction false} CamelIff(id: string, first: bool)
    ensures Camel(id, first).Some? <==> FullSegments(id, first)
    decreases |id|
  {
    if id != "" && !(first && Separates(id[0])) {
      var rest := id[1..];
      CamelIff(rest, Separates(id[0]));
      assert rest != "" ==> rest[|rest| - 1] == id[|id| - 1];
      assert forall i :: 0 < i < |rest| ==> rest[i - 1] == id[i] && rest[i] == id[i + 1];
      if FullSegments(rest, Separates(id[0])) && rest != "" {
        forall i | 0 < i < |id|
          ensures !(Separates(id[i - 1]) && Separates(id[i]))
        {
          assert i > 1 ==> !(Separates(rest[i - 2]) && Separates(rest[i - 1]));
        }
      }
    }
  }

  predicate AllName(text: string) {
    forall i :: 0 <= i < |text| ==> NameChar(text[i])
  }

  predicate AllPlain(id: string) {
    forall i :: 0 <= i < |id| ==> NameChar(id[i]) || Separates(id[i])
  }

  lemma {:induction false} PlainSnoc(id: string)
    requires id != ""
    ensures AllPlain(id) <==> AllPlain(id[..|id| - 1]) && (NameChar(id[|id| - 1]) || Separates(id[|id| - 1]))
  {
    var before := id[..|id| - 1];
    assert forall i :: 0 <= i < |before| ==> before[i] == id[i];
  }

  lemma {:induction false} ShownChars(id: string, first: bool)
    ensures AllName(Shown(id, first)) <==> AllPlain(id)
    decreases |id|
  {
    if id != "" {
      var before, c, last := id[..|id| - 1], id[|id| - 1], LastShown(id, first);
      ShownChars(before, first);
      CharsConcat(Shown(before, first), last);
      PlainSnoc(id);
      CapitalIsName(c);
      OneName(c);
      OneName(Capital(c));
      assert Shown(id, first) == Shown(before, first) + last;
      assert if Separates(c) then last == "" else last == [c] || last == [Capital(c)];
    }
  }

  lemma {:induction false} OneName(c: char)
    ensures AllName([c]) <==> NameChar(c)
  {
    assert [c][0] == c;
  }

  lemma {:induction false} CapitalIsName(c: char)
    ensures NameChar(Capital(c)) <==> NameChar(c)
  {
  }

  lemma {:induction false} CharsConcat(a: string, b: string)
    ensures AllName(a + b) <==> AllName(a) && AllName(b)
  {
    var c := a + b;
    if AllName(c) {
      forall i | 0 <= i < |a| ensures NameChar(a[i]) {
        assert c[i] == a[i];
      }
      forall i | 0 <= i < |b| ensures NameChar(b[i]) {
        assert c[|a| + i] == b[i];
      }
    }
  }

  lemma {:induction false} ShownStart(id: string)
    requires id != "" && !Separates(id[0])
    ensures Squeezed(id) != "" && Squeezed(id)[0] == Capital(id[0])
  {
    assert id == [id[0]] + id[1..];
    ShownFirst(id[0], id[1..], true);
  }

  lemma {:induction false} SuffixIsWord(role: Role)
    ensures |Suffix(role)| >= 4 && AllName(Suffix(role)) && 'A' <= Suffix(role)[0] <= 'Z'
  {
  }

  lemma {:induction false} IdentifierIs(text: string, word: string)
    requires text != "" && |word| >= 4 && 'A' <= word[0] <= 'Z'
    ensures IsIdentifier(text + word) <==> !('0' <= text[0] <= '9') && AllName(text + word)
  {
    var name := text + word;
    assert name[0] == text[0] && name[|text|] == word[0];
    assert forall i :: 0 <= i < |name| ==> (IdentifierPart(name[i]) <==> NameChar(name[i]));
  }

  /** An id has a name in every role or in none: exactly the nameable ones have. */
  lemma {:induction false} SymbolIff(id: string, role: Role)
    ensures Symbol(id, role).Ok? <==> Nameable(id)
  {
    CamelIff(id, true);
    if Camel(id, true).Some? {
      CamelIsShown(id, true);
      SuffixIsWord(role);
      ShownStart(id);
      ShownChars(id, true);
      CharsConcat(Squeezed(id), Suffix(role));
      IdentifierIs(Squeezed(id), Suffix(role));
    }
  }

  // ---------------------------------------------------------------- the items of the output

  /** Every line but the declarations of structural, callable and object types. */
  predicate IsItem(d: Decl) {
    !d.Struct? && !d.Enum? && !d.CallableStruct? && !d.ObjectStruct?
  }

  function Items(defs: seq<Decl>): seq<Decl>
    decreases |defs|
  {
    if defs == [] then []
    else
      var last := defs[|defs| - 1];
      Items(defs[..|defs| - 1]) + if IsItem(last) then [last] else []
  }

  function TypeItems(types: seq<TypeEntry>): seq<Decl> {
    if types == [] then []
    else [ContractImpl(Squeezed(types[0].id) + "Type", types[0].id)] + TypeItems(types[1..])
  }

  function TypeWords(types: seq<TypeEntry>): seq<string> {
    if types == [] then [] else [Squeezed(types[0].id) + "Type"] + TypeWords(types[1..])
  }

  function OperationItems(os: seq<Operation>): seq<Decl> {
    if os == [] then [] else [OperationItem(os[0])] + OperationItems(os[1..])
  }

  function OperationItem(o: Operation): Decl {
    OperationStruct(Squeezed(o.id) + "Operation", o.id, o.capability, Squeezed(o.input) + "Type", Squeezed(o.output) + "Type")
  }

  /** An alias named for the id, and a constant with that name in capitals. */
  function RoleItems(id: string, word: string, payload: string): seq<Decl> {
    [Alias(Squeezed(id) + word, Squeezed(payload) + "Type")] + [IdConstant(UpperAll(Squeezed(id) + word), id)]
  }

  function EventItems(events: seq<EventEntry>): seq<Decl> {
    if events == [] then []
    else RoleItems(events[0].id, "Event", events[0].payload) + EventItems(events[1..])
  }

  function CallbackItems(callbacks: seq<Callback>): seq<Decl> {
    if callbacks == [] then []
    else
      RoleItems(callbacks[0].id, "CallbackRequest", callbacks[0].request)
      + RoleItems(callbacks[0].id, "CallbackResponse", callbacks[0].response)
      + CallbackItems(callbacks[1..])
  }

  function CapabilityItems(cs: seq<Capability>): seq<Decl> {
    if cs == [] then [] else [CapabilityStruct(Squeezed(cs[0].id) + "Capability", cs[0].id)] + CapabilityItems(cs[1..])
  }

  /** What the output has besides the declarations of types, in order. */
  function ExpectedItems(d: Descriptor): seq<Decl> {
    [InterfaceId(d.id)] + TypeItems(d.types) + [TypeSchemas(TypeWords(d.types))] + OperationItems(d.operations)
    + EventItems(d.events) + CallbackItems(d.callbacks) + CapabilityItems(d.capabilities)
  }

  /** A type's declaration is named for one of `words`, or by a literal word and a number. */
  ghost predicate Spelled(d: Decl, words: seq<string>) {
    match d
    case Struct(name, _) => name in words || Numbered(name, "Structural")
    case Enum(name, _) => name in words || Numbered(name, "Structural")
    case CallableStruct(name, _, _, _) => Numbered(name, "Callable")
    case ObjectStruct(name, _) => Numbered(name, "Object")
    case _ => true
  }

  ghost predicate Numbered(name: string, word: string) {
    exists n: nat :: name == word + Decimal(n)
  }

  ghost predicate AllSpelled(defs: seq<Decl>, words: seq<string>) {
    forall i :: 0 <= i < |defs| ==> Spelled(defs[i], words)
  }

  /** The items so far and what is spelled so far. */
  ghost predicate Listed(e: Output, items: seq<Decl>, words: seq<string>) {
    Items(e.definitions) == items && AllSpelled(e.definitions, words)
  }

  lemma {:induction false} ListedPush(e: Output, items: seq<Decl>, words: seq<string>, d: Decl)
    requires Listed(e, items, words) && Spelled(d, words)
    ensures Listed(Push(e, d), items + (if IsItem(d) then [d] else []), words)
  {
    assert (e.definitions + [d])[..|e.definitions|] == e.definitions;
  }

  lemma {:induction false} TypePush(e: Output, items: seq<Decl>, words: seq<string>, d: Decl)
    requires Listed(e, items, words) && Spelled(d, words) && !IsItem(d)
    ensures Listed(Push(e, d), items, words)
  {
    ListedPush(e, items, words, d);
    assert items + [] == items;
  }

  lemma {:induction false} NumberedIs(kind: Kind, n: nat)
    ensures Numbered(Generated(kind, n), if kind.Structural? then "Structural"
                                         else if kind.CallableKind? then "Callable" else "Object")
  {
    match kind
    case Structural => assert Generated(kind, n) == "Structural" + Decimal(n);
    case CallableKind => assert Generated(kind, n) == "Callable" + Decimal(n);
    case ObjectKind => assert Generated(kind, n) == "Object" + Decimal(n);
  }

  lemma {:induction false} NestedListed(e: Output, schema: Type, items: seq<Decl>, words: seq<string>)
    requires Listed(e, items, words) && Nested(e, schema).Ok?
    ensures Listed(Nested(e, schema).value.0, items, words)
    decreases schema, 1
  {
    match schema
    case Optional(item) => NestedListed(e, item, items, words);
    case List(item) => NestedListed(e, item, items, words);
    case Map(item) => NestedListed(e, item, items, words);
    case Array(item, _) => NestedListed(e, item, items, words);
    case Table(_) => StructuralListed(e, schema, items, words);
    case Variant(_) => StructuralListed(e, schema, items, words);
    case Callable(_, _, _) => CallableListed(e, schema, items, words);
    case Object(contract) =>
      var name := Generated(ObjectKind, e.next);
      NumberedIs(ObjectKind, e.next);
      TypePush(e.(next := e.next + 1, names := e.names + {name}), items, words, ObjectStruct(name, contract));
    case _ =>
  }

  lemma {:induction false} StructuralListed(e: Output, schema: Type, items: seq<Decl>, words: seq<string>)
    requires (schema.Table? || schema.Variant?) && Listed(e, items, words) && NestedDefine(e, schema).Ok?
    ensures Listed(NestedDefine(e, schema).value.0, items, words)
    decreases schema, 0, 1
  {
    NumberedIs(Structural, e.next);
    DefineListed(e.(next := e.next + 1), Generated(Structural, e.next), schema, items, words);
  }

  lemma {:induction false} CallableListed(e: Output, schema: Type, items: seq<Decl>, words: seq<string>)
    requires schema.Callable? && Listed(e, items, words) && Nested(e, schema).Ok?
    ensures Listed(Nested(e, schema).value.0, items, words)
    decreases schema, 0, 1
  {
    NestedListed(e, schema.input, items, words);
    var (e1, input) := Nested(e, schema.input).value;
    NestedListed(e1, schema.output, items, words);
    var (e2, output) := Nested(e1, schema.output).value;
    var name := Generated(CallableKind, e2.next);
    NumberedIs(CallableKind, e2.next);
    TypePush(e2.(next := e2.next + 1, names := e2.names + {name}), items, words,
             CallableStruct(name, schema.contract, input, output));
  }

  lemma {:induction false} DefineListed(e: Output, name: string, schema: Type, items: seq<Decl>, words: seq<string>)
    requires Listed(e, items, words) && Define(e, name, schema).Ok? && (name in words || Numbered(name, "Structural"))
    ensures Listed(Define(e, name, schema).value, items, words)
    decreases schema, 0, 0
  {
    var e1 := Reserve(e, name).value;
    var fields := if schema.Table? then schema.fields else schema.variants;
    MembersListed(e1, fields, schema.Variant?, items, words);
    var (e2, members) := EmitMembers(e1, fields, schema.Variant?).value;
    TypePush(e2, items, words, if schema.Table? then Struct(name, members) else Enum(name, members));
  }

  lemma {:induction false} MembersListed(e: Output, fields: Fields, variant: bool, items: seq<Decl>, words: seq<string>)
    requires Listed(e, items, words) && EmitMembers(e, fields, variant).Ok?
    ensures Listed(EmitMembers(e, fields, variant).value.0, items, words)
    decreases fields
  {
    if fields.Field? {
      if variant && fields.schema.Unit? {
        MembersListed(e, fields.rest, variant, items, words);
      } else {
        NestedListed(e, fields.schema, items, words);
        MembersListed(Nested(e, fields.schema).value.0, fields.rest, variant, items, words);
      }
    }
  }

  // ---------------------------------------------------------------- the stages

  lemma {:induction false} Regroup(a: seq<Decl>, b: seq<Decl>, c: seq<Decl>)
    ensures a + b + c == a + (b + c)
  {
  }

  lemma {:induction false} WordsHave(types: seq<TypeEntry>, t: TypeEntry)
    requires t in types
    ensures Squeezed(t.id) + "Type" in TypeWords(types)
    decreases |types|
  {
    if t != types[0] {
      WordsHave(types[1..], t);
    }
  }

  lemma {:induction false} TypesListed(e: Output, types: seq<TypeEntry>, items: seq<Decl>, words: seq<string>)
    requires Listed(e, items, words) && DefineTypes(e, types).Ok?
    requires forall t | t in types :: Squeezed(t.id) + "Type" in words
    ensures Listed(DefineTypes(e, types).value, items + TypeItems(types), words)
    decreases |types|
  {
    if types == [] {
      assert items + [] == items;
    } else {
      var name := Symbol(types[0].id, TypeRole).value;
      var d := ContractImpl(name, types[0].id);
      TypeName(types[0].id);
      assert types[0] in types;
      DefineListed(e, name, types[0].schema, items, words);
      ListedPush(Define(e, name, types[0].schema).value, items, words, d);
      TypesListed(DefineType(e, types[0]).value, types[1..], items + [d], words);
      Regroup(items, [d], TypeItems(types[1..]));
    }
  }

  lemma {:induction false} TypeNamesAre(types: seq<TypeEntry>)
    requires TypeNames(types).Ok?
    ensures TypeNames(types).value == TypeWords(types)
    decreases |types|
  {
    if types != [] {
      TypeName(types[0].id);
      TypeNamesAre(types[1..]);
    }
  }

  lemma {:induction false} OperationsListed(
    e: Output, d: Descriptor, os: seq<Operation>, items: seq<Decl>, words: seq<string>)
    requires Listed(e, items, words) && EmitOperations(e, d, os).Ok?
    ensures Listed(EmitOperations(e, d, os).value, items + OperationItems(os), words)
    decreases |os|
  {
    if os == [] {
      assert items + [] == items;
    } else {
      OneOperation(e, d, os[0], items, words);
      OperationsListed(EmitOperation(e, d, os[0]).value, d, os[1..], items + [OperationItem(os[0])], words);
      Regroup(items, [OperationItem(os[0])], OperationItems(os[1..]));
    }
  }

  lemma {:induction false} OneOperation(e: Output, d: Descriptor, o: Operation, items: seq<Decl>, words: seq<string>)
    requires Listed(e, items, words) && EmitOperation(e, d, o).Ok?
    ensures Listed(EmitOperation(e, d, o).value, items + [OperationItem(o)], words)
  {
    var name := Symbol(o.id, OperationRole).value;
    OperationName(o.id);
    TypeName(o.input);
    TypeName(o.output);
    ListedPush(Reserve(e, name).value, items, words,
               OperationStruct(name, o.id, o.capability, Symbol(o.input, TypeRole).value, Symbol(o.output, TypeRole).value));
  }

  /** One side of an event or callback, once its name is known. */
  lemma {:induction false} RoleListed(
    e: Output, id: string, role: Role, word: string, payload: string, items: seq<Decl>, words: seq<string>)
    requires Listed(e, items, words) && EmitRole(e, id, role, payload).Ok?
    requires Symbol(id, role).value == Squeezed(id) + word
    ensures Listed(EmitRole(e, id, role, payload).value, items + RoleItems(id, word, payload), words)
  {
    var name := Symbol(id, role).value;
    TypeName(payload);
    var e1 := Reserve(e, name).value;
    var alias, constant := Alias(name, Symbol(payload, TypeRole).value), IdConstant(UpperAll(name), id);
    ListedPush(e1, items, words, alias);
    ListedPush(Push(e1, alias), items + [alias], words, constant);
    Regroup(items, [alias], [constant]);
  }

  lemma {:induction false} EventsListed(
    e: Output, d: Descriptor, events: seq<EventEntry>, items: seq<Decl>, words: seq<string>)
    requires Listed(e, items, words) && EmitEvents(e, d, events).Ok?
    ensures Listed(EmitEvents(e, d, events).value, items + EventItems(events), words)
    decreases |events|
  {
    if events == [] {
      assert items + [] == items;
    } else {
      var v := events[0];
      EventName(v.id);
      RoleListed(e, v.id, EventRole, "Event", v.payload, items, words);
      var first := RoleItems(v.id, "Event", v.payload);
      EventsListed(EmitEvent(e, d, v).value, d, events[1..], items + first, words);
      Regroup(items, first, EventItems(events[1..]));
    }
  }

  lemma {:induction false} OneCallback(e: Output, d: Descriptor, c: Callback, items: seq<Decl>, words: seq<string>)
    requires Listed(e, items, words) && EmitCallback(e, d, c).Ok?
    ensures Listed(EmitCallback(e, d, c).value,
                   items + (RoleItems(c.id, "CallbackRequest", c.request) + RoleItems(c.id, "CallbackResponse", c.response)), words)
  {
    var request, response := RoleItems(c.id, "CallbackRequest", c.request), RoleItems(c.id, "CallbackResponse", c.response);
    RequestName(c.id);
    RoleListed(e, c.id, RequestRole, "CallbackRequest", c.request, items, words);
    var e1 := EmitRole(e, c.id, RequestRole, c.request).value;
    ResponseName(c.id);
    RoleListed(e1, c.id, ResponseRole, "CallbackResponse", c.response, items + request, words);
    Regroup(items, request, response);
  }

  lemma {:induction false} CallbacksListed(
    e: Output, d: Descriptor, callbacks: seq<Callback>, items: seq<Decl>, words: seq<string>)
    requires Listed(e, items, words) && EmitCallbacks(e, d, callbacks).Ok?
    ensures Listed(EmitCallbacks(e, d, callbacks).value, items + CallbackItems(callbacks), words)
    decreases |callbacks|
  {
    if callbacks == [] {
      assert items + [] == items;
    } else {
      var c := callbacks[0];
      OneCallback(e, d, c, items, words);
      var first := RoleItems(c.id, "CallbackRequest", c.request) + RoleItems(c.id, "CallbackResponse", c.response);
      CallbacksListed(EmitCallback(e, d, c).value, d, callbacks[1..], items + first, words);
      Regroup(items, first, CallbackItems(callbacks[1..]));
    }
  }

  lemma {:induction false} CapabilitiesListed(
    e: Output, d: Descriptor, cs: seq<Capability>, items: seq<Decl>, words: seq<string>)
    requires Listed(e, items, words) && EmitCapabilities(e, d, cs).Ok?
    ensures Listed(EmitCapabilities(e, d, cs).value, items + CapabilityItems(cs), words)
    decreases |cs|
  {
    if cs == [] {
      assert items + [] == items;
    } else {
      var name := Symbol(cs[0].id, CapabilityRole).value;
      var first := CapabilityStruct(name, cs[0].id);
      CapabilityName(cs[0].id);
      ListedPush(Reserve(e, name).value, items, words, first);
      CapabilitiesListed(EmitCapability(e, d, cs[0]).value, d, cs[1..], items + [first], words);
      Regroup(items, [first], CapabilityItems(cs[1..]));
    }
  }

  lemma {:induction false} TypeStageListed(d: Descriptor)
    requires EmitTypes(d).Ok?
    ensures Listed(EmitTypes(d).value, [InterfaceId(d.id)] + TypeItems(d.types) + [TypeSchemas(TypeWords(d.types))],
                   TypeWords(d.types))
  {
    var words, first := TypeWords(d.types), InterfaceId(d.id);
    var e0 := Push(EmptyOutput, first);
    assert [] + [first] == [first];
    ListedPush(EmptyOutput, [], words, first);
    forall t | t in d.types
      ensures Squeezed(t.id) + "Type" in words
    {
      WordsHave(d.types, t);
    }
    TypesListed(e0, d.types, [first], words);
    TypeNamesAre(d.types);
    ListedPush(DefineTypes(e0, d.types).value, [first] + TypeItems(d.types), words, TypeSchemas(words));
  }

  /**
   * The whole output, spelled out: besides the declarations of types it has exactly the expected items in order, each
   * named by the letters of its id and the word of its role; and each type declaration is named for a type of the
   * descriptor or by the word of its kind and a number.
   */
  lemma {:induction false} ItemsAreNamed(d: Descriptor)
    requires Rust(d).Ok?
    ensures Items(Rust(d).value) == ExpectedItems(d)
    ensures AllSpelled(Rust(d).value, TypeWords(d.types))
  {
    var words := TypeWords(d.types);
    var items1 := [InterfaceId(d.id)] + TypeItems(d.types) + [TypeSchemas(words)];
    var e1 := EmitTypes(d).value;
    TypeStageListed(d);
    OperationsListed(e1, d, d.operations, items1, words);
    var e2, items2 := EmitOperations(e1, d, d.operations).value, items1 + OperationItems(d.operations);
    EventsListed(e2, d, d.events, items2, words);
    var e3, items3 := EmitEvents(e2, d, d.events).value, items2 + EventItems(d.events);
    CallbacksListed(e3, d, d.callbacks, items3, words);
    var e4, items4 := EmitCallbacks(e3, d, d.callbacks).value, items3 + CallbackItems(d.callbacks);
    CapabilitiesListed(e4, d, d.capabilities, items4, words);
  }

  /** Each type of the descriptor is declared, with its schema, under the letters of its id and the word `Type`. */
  lemma {:induction false} TypesAreNamed(d: Descriptor, t: TypeEntry)
    requires Rust(d).Ok? && t in d.types
    ensures EmitterMeaning.Read(Rust(d).value, RName(Squeezed(t.id) + "Type")) == Some(t.schema)
  {
    EmitterMeaning.EmittedMeansDescriptor(d);
    RustSucceedsIff(d);
    assert TypeOk(t);
    TypeName(t.id);
    assert EmitterMeaning.EntryReads(Rust(d).value, t);
  }

  /** The ids and keys that generation takes are spelled as names. */
  lemma {:induction false} GeneratedIsNameable(d: Descriptor)
    requires Rust(d).Ok?
    ensures forall t | t in d.types :: Nameable(t.id)
    ensures forall o | o in d.operations :: Nameable(o.id)
    ensures forall v | v in d.events :: Nameable(v.id)
    ensures forall c | c in d.callbacks :: Nameable(c.id)
    ensures forall c | c in d.capabilities :: Nameable(c.id)
  {
    RustSucceedsIff(d);
    forall t | t in d.types ensures Nameable(t.id) {
      assert TypeOk(t);
      SymbolIff(t.id, TypeRole);
    }
    forall o | o in d.operations ensures Nameable(o.id) {
      assert OperationOk(d, o);
      SymbolIff(o.id, OperationRole);
    }
    forall v | v in d.events ensures Nameable(v.id) {
      assert EventOk(d, v);
      SymbolIff(v.id, EventRole);
    }
    forall c | c in d.callbacks ensures Nameable(c.id) {
      assert CallbackOk(d, c);
      SymbolIff(c.id, RequestRole);
    }
    forall c | c in d.capabilities ensures Nameable(c.id) {
      assert CapabilityOk(d, c);
      SymbolIff(c.id, CapabilityRole);
    }
  }
}
