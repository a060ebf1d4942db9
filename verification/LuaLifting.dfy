/** Which Lua function each callable of a decoded value stands for, and which lifted functions it holds. */
module LuaLifting {
  import opened Wrappers
  import opened Schema
  import opened LuaValuesSpec
  import opened LuaDecoders
  import Utf8

  // ---------------------------------------------------------------- the function at the same place

  /** No later key reads as the same text. */
  predicate IsLastKey(lua: Runtime, keys: seq<Key>, i: nat) {
    i < |keys| && forall j :: i < j < |keys| ==> KeyText(lua, keys[j]) != KeyText(lua, keys[i])
  }

  predicate IsKeyText(lua: Runtime, keys: seq<Key>, text: string) {
    exists i :: 0 <= i < |keys| && KeyText(lua, keys[i]) == Some(text)
  }

  /** The Lua values that scalar schemas take, and what they are read as. */
  predicate ReadsAs(schema: Type, source: Lua, value: Value) {
    match schema
    case Unit => source.LNil? && value.VUnit?
    case Bool => source.LBoolean? && value == VBool(source.flag)
    case I64 => source.LInteger? && value == VI64(source.n)
    case U64 => source.LInteger? && value.VU64? && value.u as int == source.n as int
    case F64 =>
      || (source.LInteger? && value == VF64(Finite(source.n as real)))
      || (source.LNumber? && source.x.Finite? && value == VF64(source.x))
    case String => source.LString? && value == VString(Utf8.Lossy(source.bytes))
    case Bytes => source.LString? && value == VBytes(source.bytes)
    case _ => false
  }

  /**
   * `value` is what stands in the Lua value `source`, part by part; a callable of it is registered, at the schema it
   * stands at, with exactly the Lua function that stands at its place.
   */
  predicate Stands(lua: Runtime, schema: Type, source: Lua, value: Value, locals: Locals)
    decreases schema, 2
  {
    match schema
    case Callable(contract, _, _) =>
      && source.LFunction? && value.VCallable? && value.callable.Local? && value.callable.contract == contract
      && value.callable.n <= locals.next && value.callable.n in locals.entries
      && locals.entries[value.callable.n].schema == schema && locals.entries[value.callable.n].f == source.f
    case Optional(item) =>
      if source.LNil? then value.VNone? else value.VSome? && Stands(lua, item, source, value.value, locals)
    case Array(item, _) =>
      source.LTable? && value.VList? && StandItems(lua, item, Sequence(source.rows, 1), value.values, locals)
    case List(item) =>
      source.LTable? && value.VList? && StandItems(lua, item, Sequence(source.rows, 1), value.values, locals)
    case Map(item) =>
      source.LTable? && value.VMap? && StandEntries(lua, item, source.rows, lua.order(source.rows), value.entries, locals)
    case Table(fields) =>
      source.LTable? && value.VTable? && StandFields(lua, source.rows, fields, value.fields, locals)
    case Variant(variants) =>
      && source.LTable? && value.VVariant? && ValueText(lua, Get(source.rows, NameKey("kind"))) == Some(value.tag)
      && StandsPayload(lua, variants, value.tag, source.rows, value.payload, locals)
    case Any => DecodeAny(lua, source) == Some(value)
    case _ => ReadsAs(schema, source, value)
  }

  predicate StandItems(lua: Runtime, item: Type, items: seq<Lua>, values: seq<Value>, locals: Locals)
    decreases item, 3
  {
    |values| == |items| && forall i :: 0 <= i < |items| ==> Stands(lua, item, items[i], values[i], locals)
  }

  /** Of keys with the same text the last one counts. */
  predicate StandEntries(
    lua: Runtime, item: Type, rows: Rows, keys: seq<Key>, entries: map<string, Value>, locals: Locals)
    decreases item, 4
  {
    && (forall text :: text in entries ==> IsKeyText(lua, keys, text))
    && (forall i :: 0 <= i < |keys| ==> StandsUnder(lua, item, rows, keys, i, entries, locals))
  }

  predicate StandsUnder(
    lua: Runtime, item: Type, rows: Rows, keys: seq<Key>, i: nat, entries: map<string, Value>, locals: Locals)
    requires i < |keys|
    decreases item, 3
  {
    && KeyText(lua, keys[i]).Some? && KeyText(lua, keys[i]).value in entries
    && (IsLastKey(lua, keys, i) ==> Stands(lua, item, Get(rows, keys[i]), entries[KeyText(lua, keys[i]).value], locals))
  }

  predicate StandFields(lua: Runtime, rows: Rows, fields: Fields, values: map<string, Value>, locals: Locals)
    decreases fields, 0
  {
    match fields
    case End => true
    case Field(key, schema, rest) =>
      && key in values && Stands(lua, schema, Get(rows, NameKey(key)), values[key], locals)
      && StandFields(lua, rows, rest, values, locals)
  }

  predicate StandsPayload(lua: Runtime, variants: Fields, tag: string, rows: Rows, payload: Value, locals: Locals)
    decreases variants, 0
  {
    match variants
    case End => false
    case Field(key, schema, rest) =>
      if key != tag then StandsPayload(lua, rest, tag, rows, payload, locals)
      else if schema.Unit? then payload.VUnit?
      else if schema.Table? then payload.VTable? && StandFields(lua, rows, schema.fields, payload.fields, locals)
      else Stands(lua, schema, Get(rows, NameKey("value")), payload, locals)
  }

  /** Functions lifted later leave those lifted before as they are. */
  lemma {:induction false} StillStands(lua: Runtime, schema: Type, source: Lua, value: Value, locals: Locals, later: Locals)
    requires Stands(lua, schema, source, value, locals) && Grows(locals, later)
    ensures Stands(lua, schema, source, value, later)
    decreases schema, 2
  {
    match schema
    case Optional(item) =>
      if !source.LNil? {
        StillStands(lua, item, source, value.value, locals, later);
      }
    case Array(item, _) => ItemsStillStand(lua, item, Sequence(source.rows, 1), value.values, locals, later);
    case List(item) => ItemsStillStand(lua, item, Sequence(source.rows, 1), value.values, locals, later);
    case Map(item) => EntriesStillStand(lua, item, source.rows, lua.order(source.rows), value.entries, locals, later);
    case Table(fields) => FieldsStillStand(lua, source.rows, fields, value.fields, locals, later);
    case Variant(variants) => PayloadStillStands(lua, variants, value.tag, source.rows, value.payload, locals, later);
    case _ =>
  }

  lemma {:induction false} ItemsStillStand(
    lua: Runtime, item: Type, items: seq<Lua>, values: seq<Value>, locals: Locals, later: Locals)
    requires StandItems(lua, item, items, values, locals) && Grows(locals, later)
    ensures StandItems(lua, item, items, values, later)
    decreases item, 3
  {
    forall i | 0 <= i < |items|
      ensures Stands(lua, item, items[i], values[i], later)
    {
      StillStands(lua, item, items[i], values[i], locals, later);
    }
  }

  lemma {:induction false} EntriesStillStand(
    lua: Runtime, item: Type, rows: Rows, keys: seq<Key>, entries: map<string, Value>, locals: Locals, later: Locals)
    requires StandEntries(lua, item, rows, keys, entries, locals) && Grows(locals, later)
    ensures StandEntries(lua, item, rows, keys, entries, later)
    decreases item, 4
  {
    forall i | 0 <= i < |keys|
      ensures StandsUnder(lua, item, rows, keys, i, entries, later)
    {
      assert StandsUnder(lua, item, rows, keys, i, entries, locals);
      if IsLastKey(lua, keys, i) {
        StillStands(lua, item, Get(rows, keys[i]), entries[KeyText(lua, keys[i]).value], locals, later);
      }
    }
  }

  lemma {:induction false} FieldsStillStand(
    lua: Runtime, rows: Rows, fields: Fields, values: map<string, Value>, locals: Locals, later: Locals)
    requires StandFields(lua, rows, fields, values, locals) && Grows(locals, later)
    ensures StandFields(lua, rows, fields, values, later)
    decreases fields, 0
  {
    match fields
    case End =>
    case Field(key, schema, rest) =>
      StillStands(lua, schema, Get(rows, NameKey(key)), values[key], locals, later);
      FieldsStillStand(lua, rows, rest, values, locals, later);
  }

  lemma {:induction false} PayloadStillStands(
    lua: Runtime, variants: Fields, tag: string, rows: Rows, payload: Value, locals: Locals, later: Locals)
    requires StandsPayload(lua, variants, tag, rows, payload, locals) && Grows(locals, later)
    ensures StandsPayload(lua, variants, tag, rows, payload, later)
    decreases variants, 0
  {
    match variants
    case End =>
    case Field(key, schema, rest) =>
      if key != tag {
        PayloadStillStands(lua, rest, tag, rows, payload, locals, later);
      } else if schema.Table? {
        FieldsStillStand(lua, rows, schema.fields, payload.fields, locals, later);
      } else if !schema.Unit? {
        StillStands(lua, schema, Get(rows, NameKey("value")), payload, locals, later);
      }
  }

  /**
   * What the lifting decoder returns stands part by part in the Lua value: in particular every callable is registered
   * with exactly the Lua function found at its place.
   */
  lemma {:induction false} HostStands(lua: Runtime, schema: Type, source: Lua, locals: Locals)
    requires WellFormed(schema) && Host(lua, schema, source, locals).0.Some?
    ensures Stands(lua, schema, source, Host(lua, schema, source, locals).0.value, Host(lua, schema, source, locals).1)
    decreases schema, 2
  {
    match schema
    case Optional(item) =>
      if !source.LNil? {
        HostStands(lua, item, source, locals);
      }
    case Array(item, len) => ItemsStand(lua, item, Sequence(source.rows, 1), locals);
    case List(item) => ItemsStand(lua, item, Sequence(source.rows, 1), locals);
    case Map(item) => EntriesStand(lua, item, source.rows, lua.order(source.rows), locals);
    case Table(fields) => FieldsStand(lua, source.rows, fields, locals);
    case Variant(variants) =>
      PayloadStands(lua, variants, ValueText(lua, Get(source.rows, NameKey("kind"))).value, source.rows, locals);
    case _ =>
  }

  lemma {:induction false} ItemsStand(lua: Runtime, item: Type, items: seq<Lua>, locals: Locals)
    requires WellFormed(item) && HostItems(lua, item, items, locals).0.Some?
    ensures StandItems(lua, item, items, HostItems(lua, item, items, locals).0.value, HostItems(lua, item, items, locals).1)
    decreases item, 3, |items|
  {
    if items != [] {
      var (first, next) := Host(lua, item, items[0], locals);
      var (rest, after) := HostItems(lua, item, items[1..], next);
      HostStands(lua, item, items[0], locals);
      ItemsStand(lua, item, items[1..], next);
      ItemsSound(lua, item, items[1..], next);
      StillStands(lua, item, items[0], first.value, next, after);
      OneItemMore(lua, item, items, first.value, rest.value, after);
    }
  }

  lemma {:induction false} OneItemMore(
    lua: Runtime, item: Type, items: seq<Lua>, first: Value, rest: seq<Value>, locals: Locals)
    requires items != [] && Stands(lua, item, items[0], first, locals) && StandItems(lua, item, items[1..], rest, locals)
    ensures StandItems(lua, item, items, [first] + rest, locals)
  {
    forall i | 0 <= i < |items|
      ensures Stands(lua, item, items[i], ([first] + rest)[i], locals)
    {
      assert i > 0 ==> items[i] == items[1..][i - 1];
    }
  }

  lemma {:induction false} EntriesStand(lua: Runtime, item: Type, rows: Rows, keys: seq<Key>, locals: Locals)
    requires WellFormed(item) && HostEntries(lua, item, rows, keys, locals).0.Some?
    ensures StandEntries(lua, item, rows, keys, HostEntries(lua, item, rows, keys, locals).0.value,
                         HostEntries(lua, item, rows, keys, locals).1)
    decreases item, 3, |keys|
  {
    if keys != [] {
      var fewer, last := keys[..|keys| - 1], keys[|keys| - 1];
      var (earlier, next) := HostEntries(lua, item, rows, fewer, locals);
      var (value, after) := Host(lua, item, Get(rows, last), next);
      EntriesStand(lua, item, rows, fewer, locals);
      HostStands(lua, item, Get(rows, last), next);
      HostSound(lua, item, Get(rows, last), next);
      EntriesStillStand(lua, item, rows, fewer, earlier.value, next, after);
      OneEntryMore(lua, item, rows, keys, earlier.value, value.value, after);
    }
  }

  lemma {:induction false} OneEntryMore(
    lua: Runtime, item: Type, rows: Rows, keys: seq<Key>, earlier: map<string, Value>, value: Value, locals: Locals)
    requires keys != [] && KeyText(lua, keys[|keys| - 1]).Some?
    requires StandEntries(lua, item, rows, keys[..|keys| - 1], earlier, locals)
    requires Stands(lua, item, Get(rows, keys[|keys| - 1]), value, locals)
    ensures StandEntries(lua, item, rows, keys, earlier[KeyText(lua, keys[|keys| - 1]).value := value], locals)
  {
    var n := |keys| - 1;
    var fewer, text := keys[..n], KeyText(lua, keys[n]).value;
    var entries := earlier[text := value];
    forall i | 0 <= i < |keys|
      ensures StandsUnder(lua, item, rows, keys, i, entries, locals)
    {
      if i < n {
        OtherKeyStands(lua, item, rows, keys, i, earlier, value, locals);
      }
    }
    forall t | t in entries
      ensures IsKeyText(lua, keys, t)
    {
      KeyTextStays(lua, keys, t);
    }
    assert StandEntries(lua, item, rows, keys, entries, locals);
  }

  lemma {:induction false} OtherKeyStands(lua: Runtime, item: Type, rows: Rows, keys: seq<Key>, i: nat,
                                          earlier: map<string, Value>, value: Value, locals: Locals)
    requires i < |keys| - 1 && KeyText(lua, keys[|keys| - 1]).Some?
    requires StandsUnder(lua, item, rows, keys[..|keys| - 1], i, earlier, locals)
    ensures StandsUnder(lua, item, rows, keys, i, earlier[KeyText(lua, keys[|keys| - 1]).value := value], locals)
  {
    var n := |keys| - 1;
    var fewer := keys[..n];
    if IsLastKey(lua, keys, i) {
      assert KeyText(lua, keys[n]) != KeyText(lua, keys[i]);
      forall j | i < j < n
        ensures KeyText(lua, fewer[j]) != KeyText(lua, fewer[i])
      {
        assert fewer[j] == keys[j];
      }
      assert IsLastKey(lua, fewer, i);
    }
  }

  lemma {:induction false} KeyTextStays(lua: Runtime, keys: seq<Key>, text: string)
    requires keys != []
    requires IsKeyText(lua, keys[..|keys| - 1], text) || KeyText(lua, keys[|keys| - 1]) == Some(text)
    ensures IsKeyText(lua, keys, text)
  {
    var n := |keys| - 1;
    if KeyText(lua, keys[n]) != Some(text) {
      var i :| 0 <= i < n && KeyText(lua, keys[..n][i]) == Some(text);
      assert KeyText(lua, keys[i]) == Some(text);
    }
  }

  lemma {:induction false} FieldsStand(lua: Runtime, rows: Rows, fields: Fields, locals: Locals)
    requires WellFormedFields(fields) && HostFields(lua, rows, fields, locals).0.Some?
    ensures StandFields(lua, rows, fields, HostFields(lua, rows, fields, locals).0.value,
                        HostFields(lua, rows, fields, locals).1)
    decreases fields, 0
  {
    match fields
    case End =>
    case Field(key, schema, rest) =>
      var (value, next) := Host(lua, schema, Get(rows, NameKey(key)), locals);
      var (others, after) := HostFields(lua, rows, rest, next);
      HostStands(lua, schema, Get(rows, NameKey(key)), locals);
      FieldsStand(lua, rows, rest, next);
      FieldsSound(lua, rows, rest, next);
      StillStands(lua, schema, Get(rows, NameKey(key)), value.value, next, after);
      OtherFieldStands(lua, rows, rest, others.value, key, value.value, after);
  }

  lemma {:induction false} OtherFieldStands(
    lua: Runtime, rows: Rows, fields: Fields, values: map<string, Value>, key: string, value: Value, locals: Locals)
    requires Find(fields, key).None? && StandFields(lua, rows, fields, values, locals)
    ensures StandFields(lua, rows, fields, values[key := value], locals)
    decreases fields
  {
    match fields
    case End =>
    case Field(_, _, rest) => OtherFieldStands(lua, rows, rest, values, key, value, locals);
  }

  lemma {:induction false} PayloadStands(lua: Runtime, variants: Fields, kind: string, rows: Rows, locals: Locals)
    requires WellFormedFields(variants) && HostPayload(lua, variants, kind, rows, locals).0.Some?
    ensures StandsPayload(lua, variants, kind, rows, HostPayload(lua, variants, kind, rows, locals).0.value,
                          HostPayload(lua, variants, kind, rows, locals).1)
    decreases variants, 0
  {
    match variants
    case End =>
    case Field(key, schema, rest) =>
      if key != kind {
        PayloadStands(lua, rest, kind, rows, locals);
      } else if schema.Table? {
        FieldsStand(lua, rows, schema.fields, locals);
      } else if !schema.Unit? {
        HostStands(lua, schema, Get(rows, NameKey("value")), locals);
      }
  }

  /** So it is with the plain decoder, which lifts nothing. */
  lemma {:induction false} DecodeStands(lua: Runtime, schema: Type, source: Lua, locals: Locals)
    requires WellFormed(schema) && Decode(lua, schema, source).Some?
    ensures Stands(lua, schema, source, Decode(lua, schema, source).value, locals)
  {
    HostExtendsDecode(lua, schema, source, locals);
    HostStands(lua, schema, source, locals);
  }

  // ---------------------------------------------------------------- what the result holds

  /** The numbers of the lifted functions in a value. */
  ghost function Ids(schema: Type, value: Value): set<nat>
    decreases schema, 2
  {
    match schema
    case Callable(_, _, _) => if value.VCallable? && value.callable.Local? then {value.callable.n} else {}
    case Optional(item) => if value.VSome? then Ids(item, value.value) else {}
    case Array(item, _) => if value.VList? then ItemIds(item, value.values) else {}
    case List(item) => if value.VList? then ItemIds(item, value.values) else {}
    case Map(item) => if value.VMap? then EntryIds(item, value.entries) else {}
    case Table(fields) => if value.VTable? then FieldIds(fields, value.fields) else {}
    case Variant(variants) => if value.VVariant? then PayloadIds(variants, value.tag, value.payload) else {}
    case _ => {}
  }

  ghost function ItemIds(item: Type, values: seq<Value>): set<nat>
    decreases item, 3, |values|
  {
    if values == [] then {} else Ids(item, values[0]) + ItemIds(item, values[1..])
  }

  ghost function EntryIds(item: Type, entries: map<string, Value>): set<nat>
    decreases item, 3
  {
    set text, n | text in entries && n in Ids(item, entries[text]) :: n
  }

  ghost function FieldIds(fields: Fields, values: map<string, Value>): set<nat>
    decreases fields, 0
  {
    match fields
    case End => {}
    case Field(key, schema, rest) =>
      (if key in values then Ids(schema, values[key]) else {}) + FieldIds(rest, values)
  }

  ghost function PayloadIds(variants: Fields, tag: string, payload: Value): set<nat>
    decreases variants, 0
  {
    match variants
    case End => {}
    case Field(key, schema, rest) => if key == tag then Ids(schema, payload) else PayloadIds(rest, tag, payload)
  }

  /** The numbers handed out between two states of the table. */
  ghost function Between(lo: nat, hi: nat): set<nat> {
    set n: nat | n <= hi && IsAbove(lo, n)
  }

  predicate IsAbove(lo: nat, n: nat) {
    lo < n
  }

  // ---------------------------------------------------------------- what the walk meets

  /** The walk over the Lua value comes to a callable. */
  predicate Meets(lua: Runtime, schema: Type, source: Lua)
    decreases schema, 2
  {
    match schema
    case Callable(_, _, _) => true
    case Optional(item) => !source.LNil? && Meets(lua, item, source)
    case Array(item, _) => source.LTable? && MeetsItem(lua, item, Sequence(source.rows, 1))
    case List(item) => source.LTable? && MeetsItem(lua, item, Sequence(source.rows, 1))
    case Map(item) => source.LTable? && MeetsEntry(lua, item, source.rows, lua.order(source.rows))
    case Table(fields) => source.LTable? && MeetsField(lua, source.rows, fields)
    case Variant(variants) =>
      source.LTable? &&
      (var kind := ValueText(lua, Get(source.rows, NameKey("kind")));
       kind.Some? && MeetsPayload(lua, variants, kind.value, source.rows))
    case _ => false
  }

  predicate MeetsItem(lua: Runtime, item: Type, items: seq<Lua>)
    decreases item, 3, |items|
  {
    items != [] && (Meets(lua, item, items[0]) || MeetsItem(lua, item, items[1..]))
  }

  predicate MeetsEntry(lua: Runtime, item: Type, rows: Rows, keys: seq<Key>)
    decreases item, 3, |keys|
  {
    keys != [] &&
    (MeetsEntry(lua, item, rows, keys[..|keys| - 1]) || Meets(lua, item, Get(rows, keys[|keys| - 1])))
  }

  /** The walk comes to a callable under a key that reads as `text`. */
  predicate MeetsUnder(lua: Runtime, item: Type, rows: Rows, keys: seq<Key>, text: string)
    decreases item, 3, |keys|
  {
    keys != [] &&
    (|| MeetsUnder(lua, item, rows, keys[..|keys| - 1], text)
     || (KeyText(lua, keys[|keys| - 1]) == Some(text) && Meets(lua, item, Get(rows, keys[|keys| - 1]))))
  }

  predicate MeetsField(lua: Runtime, rows: Rows, fields: Fields)
    decreases fields, 0
  {
    match fields
    case End => false
    case Field(key, schema, rest) => Meets(lua, schema, Get(rows, NameKey(key))) || MeetsField(lua, rows, rest)
  }

  predicate MeetsPayload(lua: Runtime, variants: Fields, kind: string, rows: Rows)
    decreases variants, 0
  {
    match variants
    case End => false
    case Field(key, schema, rest) =>
      if key != kind then MeetsPayload(lua, rest, kind, rows)
      else if schema.Unit? then false
      else if schema.Table? then MeetsField(lua, rows, schema.fields)
      else Meets(lua, schema, Get(rows, NameKey("value")))
  }

  /** Somewhere on the walk two keys of a map read as the same text and the walk meets a callable under the earlier. */
  predicate Wastes(lua: Runtime, schema: Type, source: Lua)
    decreases schema, 2
  {
    match schema
    case Optional(item) => !source.LNil? && Wastes(lua, item, source)
    case Array(item, _) => source.LTable? && WastesItem(lua, item, Sequence(source.rows, 1))
    case List(item) => source.LTable? && WastesItem(lua, item, Sequence(source.rows, 1))
    case Map(item) => source.LTable? && WastesEntry(lua, item, source.rows, lua.order(source.rows))
    case Table(fields) => source.LTable? && WastesField(lua, source.rows, fields)
    case Variant(variants) =>
      source.LTable? &&
      (var kind := ValueText(lua, Get(source.rows, NameKey("kind")));
       kind.Some? && WastesPayload(lua, variants, kind.value, source.rows))
    case _ => false
  }

  predicate WastesItem(lua: Runtime, item: Type, items: seq<Lua>)
    decreases item, 3, |items|
  {
    items != [] && (Wastes(lua, item, items[0]) || WastesItem(lua, item, items[1..]))
  }

  /** Something is wasted under a key, or a later key hides an earlier one under which the walk meets a callable. */
  predicate WastesEntry(lua: Runtime, item: Type, rows: Rows, keys: seq<Key>)
    decreases item, 3, |keys|
  {
    keys != [] &&
    (var (fewer, last) := (keys[..|keys| - 1], keys[|keys| - 1]);
     || WastesEntry(lua, item, rows, fewer) || Wastes(lua, item, Get(rows, last))
     || (KeyText(lua, last).Some? && MeetsUnder(lua, item, rows, fewer, KeyText(lua, last).value)))
  }

  predicate WastesField(lua: Runtime, rows: Rows, fields: Fields)
    decreases fields, 0
  {
    match fields
    case End => false
    case Field(key, schema, rest) => Wastes(lua, schema, Get(rows, NameKey(key))) || WastesField(lua, rows, rest)
  }

  predicate WastesPayload(lua: Runtime, variants: Fields, kind: string, rows: Rows)
    decreases variants, 0
  {
    match variants
    case End => false
    case Field(key, schema, rest) =>
      if key != kind then WastesPayload(lua, rest, kind, rows)
      else if schema.Unit? then false
      else if schema.Table? then WastesField(lua, rows, schema.fields)
      else Wastes(lua, schema, Get(rows, NameKey("value")))
  }

  // ---------------------------------------------------------------- nothing else is registered

  /** `ids` are among the numbers from lo to hi, all of them unless something is wasted; and some if something is met. */
  ghost predicate Tallies(ids: set<nat>, lo: nat, hi: nat, wastes: bool, meets: bool) {
    && lo <= hi && ids <= Between(lo, hi)
    && (ids == Between(lo, hi) <==> !wastes)
    && (lo < hi <==> meets)
  }

  lemma {:induction false} TallyNone(lo: nat)
    ensures Tallies({}, lo, lo, false, false)
  {
    assert Between(lo, lo) == {};
  }

  /** One part after the other. */
  lemma {:induction false} TallyBoth(
    a: set<nat>, b: set<nat>, lo: nat, mid: nat, hi: nat, wastes: bool, wastes': bool, meets: bool, meets': bool)
    requires Tallies(a, lo, mid, wastes, meets) && Tallies(b, mid, hi, wastes', meets')
    ensures Tallies(a + b, lo, hi, wastes || wastes', meets || meets')
  {
    forall n
      ensures n in Between(lo, hi) <==> n in Between(lo, mid) || n in Between(mid, hi)
    {
    }
    if a + b == Between(lo, hi) {
      forall n | n in Between(lo, mid) ensures n in a {
        assert n in a + b && n !in Between(mid, hi);
      }
      forall n | n in Between(mid, hi) ensures n in b {
        assert n in a + b && n !in Between(lo, mid);
      }
    }
  }

  lemma {:induction false} HostTallies(lua: Runtime, schema: Type, source: Lua, locals: Locals)
    requires WellFormed(schema) && Host(lua, schema, source, locals).0.Some?
    ensures Tallies(Ids(schema, Host(lua, schema, source, locals).0.value), locals.next,
                    Host(lua, schema, source, locals).1.next, Wastes(lua, schema, source), Meets(lua, schema, source))
    decreases schema, 2
  {
    match schema
    case Callable(_, _, _) => assert Between(locals.next, locals.next + 1) == {locals.next + 1};
    case Optional(item) =>
      if source.LNil? {
        TallyNone(locals.next);
      } else {
        HostTallies(lua, item, source, locals);
      }
    case Array(item, _) => ItemsTally(lua, item, Sequence(source.rows, 1), locals);
    case List(item) => ItemsTally(lua, item, Sequence(source.rows, 1), locals);
    case Map(item) => EntriesTally(lua, item, source.rows, lua.order(source.rows), locals);
    case Table(fields) => FieldsTally(lua, source.rows, fields, locals);
    case Variant(variants) =>
      PayloadTallies(lua, variants, ValueText(lua, Get(source.rows, NameKey("kind"))).value, source.rows, locals);
    case _ => TallyNone(locals.next);
  }

  lemma {:induction false} ItemsTally(lua: Runtime, item: Type, items: seq<Lua>, locals: Locals)
    requires WellFormed(item) && HostItems(lua, item, items, locals).0.Some?
    ensures Tallies(ItemIds(item, HostItems(lua, item, items, locals).0.value), locals.next,
                    HostItems(lua, item, items, locals).1.next, WastesItem(lua, item, items), MeetsItem(lua, item, items))
    decreases item, 3, |items|
  {
    if items == [] {
      TallyNone(locals.next);
    } else {
      var (first, next) := Host(lua, item, items[0], locals);
      var (rest, after) := HostItems(lua, item, items[1..], next);
      HostTallies(lua, item, items[0], locals);
      ItemsTally(lua, item, items[1..], next);
      TallyBoth(Ids(item, first.value), ItemIds(item, rest.value), locals.next, next.next, after.next,
                Wastes(lua, item, items[0]), WastesItem(lua, item, items[1..]),
                Meets(lua, item, items[0]), MeetsItem(lua, item, items[1..]));
      assert ([first.value] + rest.value)[1..] == rest.value;
    }
  }

  lemma {:induction false} FieldsTally(lua: Runtime, rows: Rows, fields: Fields, locals: Locals)
    requires WellFormedFields(fields) && HostFields(lua, rows, fields, locals).0.Some?
    ensures Tallies(FieldIds(fields, HostFields(lua, rows, fields, locals).0.value), locals.next,
                    HostFields(lua, rows, fields, locals).1.next, WastesField(lua, rows, fields), MeetsField(lua, rows, fields))
    decreases fields, 0
  {
    match fields
    case End => TallyNone(locals.next);
    case Field(key, schema, rest) =>
      var source := Get(rows, NameKey(key));
      var (value, next) := Host(lua, schema, source, locals);
      var (others, after) := HostFields(lua, rows, rest, next);
      HostTallies(lua, schema, source, locals);
      FieldsTally(lua, rows, rest, next);
      TallyBoth(Ids(schema, value.value), FieldIds(rest, others.value), locals.next, next.next, after.next,
                Wastes(lua, schema, source), WastesField(lua, rows, rest), Meets(lua, schema, source),
                MeetsField(lua, rows, rest));
      OtherFieldIds(rest, others.value, key, value.value);
  }

  lemma {:induction false} OtherFieldIds(fields: Fields, values: map<string, Value>, key: string, value: Value)
    requires Find(fields, key).None?
    ensures FieldIds(fields, values[key := value]) == FieldIds(fields, values)
    decreases fields
  {
    match fields
    case End =>
    case Field(_, _, rest) => OtherFieldIds(rest, values, key, value);
  }

  lemma {:induction false} PayloadTallies(lua: Runtime, variants: Fields, kind: string, rows: Rows, locals: Locals)
    requires WellFormedFields(variants) && HostPayload(lua, variants, kind, rows, locals).0.Some?
    ensures Tallies(PayloadIds(variants, kind, HostPayload(lua, variants, kind, rows, locals).0.value), locals.next,
                    HostPayload(lua, variants, kind, rows, locals).1.next, WastesPayload(lua, variants, kind, rows),
                    MeetsPayload(lua, variants, kind, rows))
    decreases variants, 0
  {
    match variants
    case End =>
    case Field(key, schema, rest) =>
      if key != kind {
        PayloadTallies(lua, rest, kind, rows, locals);
      } else if schema.Unit? {
        TallyNone(locals.next);
      } else if schema.Table? {
        FieldsTally(lua, rows, schema.fields, locals);
      } else {
        HostTallies(lua, schema, Get(rows, NameKey("value")), locals);
      }
  }

  // ---------------------------------------------------------------- maps, where a later key can hide an earlier one

  /** Different entries hold different functions. */
  ghost predicate Apart(item: Type, entries: map<string, Value>) {
    forall a, b :: a in entries && b in entries && a != b ==> Ids(item, entries[a]) !! Ids(item, entries[b])
  }

  /** What is known of the entries decoded so far. */
  ghost predicate EntriesKnown(
    lua: Runtime, item: Type, rows: Rows, keys: seq<Key>, entries: map<string, Value>, lo: nat, hi: nat)
  {
    && Tallies(EntryIds(item, entries), lo, hi, WastesEntry(lua, item, rows, keys), MeetsEntry(lua, item, rows, keys))
    && Apart(item, entries)
    && AreEntered(lua, keys, entries)
    && (!WastesEntry(lua, item, rows, keys) ==> HoldWhatIsMet(lua, item, rows, keys, entries))
  }

  /** What an entry hides that is written again. */
  ghost function Hidden(item: Type, entries: map<string, Value>, text: string): set<nat> {
    if text in entries then Ids(item, entries[text]) else {}
  }

  ghost predicate AreEntered(lua: Runtime, keys: seq<Key>, entries: map<string, Value>) {
    forall i :: 0 <= i < |keys| ==> KeyText(lua, keys[i]).Some? && KeyText(lua, keys[i]).value in entries
  }

  ghost predicate HoldWhatIsMet(lua: Runtime, item: Type, rows: Rows, keys: seq<Key>, entries: map<string, Value>) {
    forall text :: text in entries ==> (Ids(item, entries[text]) != {} <==> MeetsUnder(lua, item, rows, keys, text))
  }

  lemma {:induction false} EntriesTally(lua: Runtime, item: Type, rows: Rows, keys: seq<Key>, locals: Locals)
    requires WellFormed(item) && HostEntries(lua, item, rows, keys, locals).0.Some?
    ensures EntriesKnown(lua, item, rows, keys, HostEntries(lua, item, rows, keys, locals).0.value, locals.next,
                         HostEntries(lua, item, rows, keys, locals).1.next)
    decreases item, 3, |keys|
  {
    if keys == [] {
      TallyNone(locals.next);
      assert EntryIds(item, map[]) == {};
    } else {
      var fewer, last := keys[..|keys| - 1], keys[|keys| - 1];
      var (earlier, next) := HostEntries(lua, item, rows, fewer, locals);
      var (value, after) := Host(lua, item, Get(rows, last), next);
      EntriesTally(lua, item, rows, fewer, locals);
      HostTallies(lua, item, Get(rows, last), next);
      OneEntryKnown(lua, item, rows, keys, earlier.value, value.value, locals.next, next.next, after.next);
    }
  }

  /** The entries after one more key. */
  lemma {:induction false} OneEntryKnown(lua: Runtime, item: Type, rows: Rows, keys: seq<Key>, earlier: map<string, Value>,
                                         value: Value, lo: nat, mid: nat, hi: nat)
    requires keys != [] && KeyText(lua, keys[|keys| - 1]).Some?
    requires EntriesKnown(lua, item, rows, keys[..|keys| - 1], earlier, lo, mid)
    requires Tallies(Ids(item, value), mid, hi, Wastes(lua, item, Get(rows, keys[|keys| - 1])),
                     Meets(lua, item, Get(rows, keys[|keys| - 1])))
    ensures EntriesKnown(lua, item, rows, keys, earlier[KeyText(lua, keys[|keys| - 1]).value := value], lo, hi)
  {
    var n := |keys| - 1;
    var fewer, text := keys[..n], KeyText(lua, keys[n]).value;
    ReplacedApart(item, earlier, text, value, lo, mid, hi);
    OneEntryTallies(lua, item, rows, keys, earlier, value, lo, mid, hi);
    MetUnder(lua, item, rows, keys, earlier, value, mid, hi);
    assert AreEntered(lua, keys, earlier[text := value]) by {
      forall i | 0 <= i < n
        ensures KeyText(lua, keys[i]).Some? && KeyText(lua, keys[i]).value in earlier
      {
        assert fewer[i] == keys[i];
      }
    }
  }

  lemma {:induction false} OneEntryTallies(lua: Runtime, item: Type, rows: Rows, keys: seq<Key>, earlier: map<string, Value>,
                                           value: Value, lo: nat, mid: nat, hi: nat)
    requires keys != [] && KeyText(lua, keys[|keys| - 1]).Some? && Apart(item, earlier)
    requires AreEntered(lua, keys[..|keys| - 1], earlier)
    requires !WastesEntry(lua, item, rows, keys[..|keys| - 1]) ==>
               HoldWhatIsMet(lua, item, rows, keys[..|keys| - 1], earlier)
    requires Tallies(EntryIds(item, earlier), lo, mid, WastesEntry(lua, item, rows, keys[..|keys| - 1]),
                     MeetsEntry(lua, item, rows, keys[..|keys| - 1]))
    requires Tallies(Ids(item, value), mid, hi, Wastes(lua, item, Get(rows, keys[|keys| - 1])),
                     Meets(lua, item, Get(rows, keys[|keys| - 1])))
    ensures Tallies(EntryIds(item, earlier[KeyText(lua, keys[|keys| - 1]).value := value]), lo, hi,
                    WastesEntry(lua, item, rows, keys), MeetsEntry(lua, item, rows, keys))
  {
    var n := |keys| - 1;
    var fewer, last, text := keys[..n], keys[n], KeyText(lua, keys[n]).value;
    ReplacedIds(item, earlier, text, value);
    HiddenIff(lua, item, rows, fewer, earlier, text);
    TallyReplaced(EntryIds(item, earlier), Hidden(item, earlier, text), Ids(item, value), lo, mid, hi,
                  WastesEntry(lua, item, rows, fewer), MeetsUnder(lua, item, rows, fewer, text), Wastes(lua, item, Get(rows, last)),
                  MeetsEntry(lua, item, rows, fewer), Meets(lua, item, Get(rows, last)));
  }

  /** Some numbers are hidden and others come after. */
  lemma {:induction false} TallyReplaced(ids: set<nat>, hidden: set<nat>, added: set<nat>, lo: nat, mid: nat, hi: nat,
                                         wastes: bool, hides: bool, wastes': bool, meets: bool, meets': bool)
    requires Tallies(ids, lo, mid, wastes, meets) && Tallies(added, mid, hi, wastes', meets') && hidden <= ids
    requires wastes || hidden != {} <==> wastes || hides
    ensures Tallies((ids - hidden) + added, lo, hi, wastes || wastes' || hides, meets || meets')
  {
    TallyKept(ids, hidden, lo, mid, wastes, meets);
    TallyBoth(ids - hidden, added, lo, mid, hi, wastes || hides, wastes', meets, meets');
  }

  lemma {:induction false} ReplacedIds(item: Type, earlier: map<string, Value>, text: string, value: Value)
    requires Apart(item, earlier)
    ensures EntryIds(item, earlier[text := value]) ==
            (EntryIds(item, earlier) - Hidden(item, earlier, text)) + Ids(item, value)
  {
    forall n
      ensures n in EntryIds(item, earlier[text := value]) <==>
              n in (EntryIds(item, earlier) - Hidden(item, earlier, text)) + Ids(item, value)
    {
      ReplacedId(item, earlier, text, value, n);
    }
  }

  lemma {:induction false} ReplacedId(item: Type, earlier: map<string, Value>, text: string, value: Value, n: nat)
    requires Apart(item, earlier)
    ensures n in EntryIds(item, earlier[text := value]) <==>
            || n in Ids(item, value)
            || (n in EntryIds(item, earlier) && n !in Hidden(item, earlier, text))
  {
    KeptId(item, earlier, text, value, n);
    var entries := earlier[text := value];
    if n in Ids(item, value) {
      assert n in Ids(item, entries[text]);
    } else if n in EntryIds(item, entries) {
      var t :| t in entries && n in Ids(item, entries[t]);
      assert t != text && t in earlier && n in Ids(item, earlier[t]);
    }
  }

  lemma {:induction false} KeptId(item: Type, earlier: map<string, Value>, text: string, value: Value, n: nat)
    ensures n in EntryIds(item, earlier) && n !in Hidden(item, earlier, text) ==> n in EntryIds(item, earlier[text := value])
  {
    if n in EntryIds(item, earlier) && n !in Hidden(item, earlier, text) {
      var t :| t in earlier && n in Ids(item, earlier[t]);
      assert t != text && n in Ids(item, earlier[text := value][t]);
    }
  }

  lemma {:induction false} ReplacedApart(
    item: Type, earlier: map<string, Value>, text: string, value: Value, lo: nat, mid: nat, hi: nat)
    requires Apart(item, earlier) && EntryIds(item, earlier) <= Between(lo, mid) && Ids(item, value) <= Between(mid, hi)
    ensures Apart(item, earlier[text := value])
  {
    var entries := earlier[text := value];
    forall t | t in earlier
      ensures Ids(item, earlier[t]) !! Ids(item, value)
    {
      forall n | n in Ids(item, earlier[t]) ensures n !in Ids(item, value) {
        assert n in EntryIds(item, earlier);
      }
    }
  }

  lemma {:induction false} TallyKept(ids: set<nat>, hidden: set<nat>, lo: nat, hi: nat, wastes: bool, meets: bool)
    requires Tallies(ids, lo, hi, wastes, meets) && hidden <= ids
    ensures Tallies(ids - hidden, lo, hi, wastes || hidden != {}, meets)
  {
    if hidden != {} {
      var n :| n in hidden;
      assert n in Between(lo, hi) && n !in ids - hidden;
    } else {
      assert ids - hidden == ids;
    }
  }

  /** A value that will be hidden holds something exactly if the walk met a callable under its text. */
  lemma {:induction false} HiddenIff(
    lua: Runtime, item: Type, rows: Rows, fewer: seq<Key>, earlier: map<string, Value>, text: string)
    requires AreEntered(lua, fewer, earlier)
    requires !WastesEntry(lua, item, rows, fewer) ==> HoldWhatIsMet(lua, item, rows, fewer, earlier)
    ensures Hidden(item, earlier, text) <= EntryIds(item, earlier)
    ensures WastesEntry(lua, item, rows, fewer) || Hidden(item, earlier, text) != {} <==>
            WastesEntry(lua, item, rows, fewer) || MeetsUnder(lua, item, rows, fewer, text)
  {
    if MeetsUnder(lua, item, rows, fewer, text) {
      MetIsEntered(lua, item, rows, fewer, earlier, text);
    }
  }

  lemma {:induction false} MetIsEntered(
    lua: Runtime, item: Type, rows: Rows, keys: seq<Key>, entries: map<string, Value>, text: string)
    requires AreEntered(lua, keys, entries) && MeetsUnder(lua, item, rows, keys, text)
    ensures text in entries
    decreases |keys|
  {
    var n := |keys| - 1;
    if MeetsUnder(lua, item, rows, keys[..n], text) {
      forall i | 0 <= i < n
        ensures KeyText(lua, keys[..n][i]).Some? && KeyText(lua, keys[..n][i]).value in entries
      {
        assert keys[..n][i] == keys[i];
      }
      MetIsEntered(lua, item, rows, keys[..n], entries, text);
    }
  }

  lemma {:induction false} MetUnder(
    lua: Runtime, item: Type, rows: Rows, keys: seq<Key>, earlier: map<string, Value>, value: Value, mid: nat, hi: nat)
    requires keys != [] && KeyText(lua, keys[|keys| - 1]).Some?
    requires AreEntered(lua, keys[..|keys| - 1], earlier)
    requires !WastesEntry(lua, item, rows, keys[..|keys| - 1]) ==>
               HoldWhatIsMet(lua, item, rows, keys[..|keys| - 1], earlier)
    requires Tallies(Ids(item, value), mid, hi, Wastes(lua, item, Get(rows, keys[|keys| - 1])),
                     Meets(lua, item, Get(rows, keys[|keys| - 1])))
    ensures !WastesEntry(lua, item, rows, keys) ==>
              HoldWhatIsMet(lua, item, rows, keys, earlier[KeyText(lua, keys[|keys| - 1]).value := value])
  {
    var n := |keys| - 1;
    var entries := earlier[KeyText(lua, keys[n]).value := value];
    if !WastesEntry(lua, item, rows, keys) {
      forall t | t in entries
        ensures Ids(item, entries[t]) != {} <==> MeetsUnder(lua, item, rows, keys, t)
      {
        if Some(t) == KeyText(lua, keys[n]) {
          NonEmptyIff(Ids(item, value), mid, hi, Meets(lua, item, Get(rows, keys[n])));
        }
      }
    }
  }

  lemma {:induction false} NonEmptyIff(ids: set<nat>, lo: nat, hi: nat, meets: bool)
    requires Tallies(ids, lo, hi, false, meets)
    ensures ids != {} <==> meets
  {
    if lo < hi {
      assert hi in Between(lo, hi);
    } else {
      assert Between(lo, hi) == {};
    }
  }

  // ---------------------------------------------------------------- the table of lifted functions

  /** The entries are those before and one for each number handed out since. */
  predicate Extends(before: Locals, after: Locals) {
    && before.next <= after.next
    && (forall n :: n in before.entries ==> n in after.entries)
    && (forall n :: n in after.entries ==> n in before.entries || before.next < n <= after.next)
    && (forall n :: before.next < n <= after.next ==> n in after.entries)
  }

  lemma {:induction false} HostEnters(lua: Runtime, schema: Type, source: Lua, locals: Locals)
    ensures Extends(locals, Host(lua, schema, source, locals).1)
    decreases schema, 2
  {
    match schema
    case Optional(item) =>
      if !source.LNil? {
        HostEnters(lua, item, source, locals);
      }
    case Array(item, _) =>
      if source.LTable? {
        ItemsEnter(lua, item, Sequence(source.rows, 1), locals);
      }
    case List(item) =>
      if source.LTable? {
        ItemsEnter(lua, item, Sequence(source.rows, 1), locals);
      }
    case Map(item) =>
      if source.LTable? {
        EntriesEnter(lua, item, source.rows, lua.order(source.rows), locals);
      }
    case Table(fields) =>
      if source.LTable? {
        FieldsEnter(lua, source.rows, fields, locals);
      }
    case Variant(variants) =>
      if source.LTable? && ValueText(lua, Get(source.rows, NameKey("kind"))).Some? {
        PayloadEnters(lua, variants, ValueText(lua, Get(source.rows, NameKey("kind"))).value, source.rows, locals);
      }
    case _ =>
  }

  lemma {:induction false} ItemsEnter(lua: Runtime, item: Type, items: seq<Lua>, locals: Locals)
    ensures Extends(locals, HostItems(lua, item, items, locals).1)
    decreases item, 3, |items|
  {
    if items != [] {
      HostEnters(lua, item, items[0], locals);
      ItemsEnter(lua, item, items[1..], Host(lua, item, items[0], locals).1);
    }
  }

  lemma {:induction false} EntriesEnter(lua: Runtime, item: Type, rows: Rows, keys: seq<Key>, locals: Locals)
    ensures Extends(locals, HostEntries(lua, item, rows, keys, locals).1)
    decreases item, 3, |keys|
  {
    if keys != [] {
      EntriesEnter(lua, item, rows, keys[..|keys| - 1], locals);
      HostEnters(lua, item, Get(rows, keys[|keys| - 1]), HostEntries(lua, item, rows, keys[..|keys| - 1], locals).1);
    }
  }

  lemma {:induction false} FieldsEnter(lua: Runtime, rows: Rows, fields: Fields, locals: Locals)
    ensures Extends(locals, HostFields(lua, rows, fields, locals).1)
    decreases fields, 0
  {
    match fields
    case End =>
    case Field(key, schema, rest) =>
      HostEnters(lua, schema, Get(rows, NameKey(key)), locals);
      FieldsEnter(lua, rows, rest, Host(lua, schema, Get(rows, NameKey(key)), locals).1);
  }

  lemma {:induction false} PayloadEnters(lua: Runtime, variants: Fields, kind: string, rows: Rows, locals: Locals)
    ensures Extends(locals, HostPayload(lua, variants, kind, rows, locals).1)
    decreases variants, 0
  {
    match variants
    case End =>
    case Field(key, schema, rest) =>
      if key != kind {
        PayloadEnters(lua, rest, kind, rows, locals);
      } else if schema.Table? {
        FieldsEnter(lua, rows, schema.fields, locals);
      } else if !schema.Unit? {
        HostEnters(lua, schema, Get(rows, NameKey("value")), locals);
      }
  }

  /**
   * What a successful decoding registers: the entries are those before and one for each number handed out, and the
   * numbers handed out are exactly those of the callables in the result if and only if no map on the way has two keys
   * with the same text and a callable under the earlier one, whose function stays registered although nothing refers
   * to it.
   */
  lemma {:induction false} NothingElseIff(lua: Runtime, schema: Type, source: Lua, locals: Locals)
    requires WellFormed(schema) && Host(lua, schema, source, locals).0.Some?
    ensures var (value, after) := Host(lua, schema, source, locals);
            && Ids(schema, value.value) <= Between(locals.next, after.next)
            && (Ids(schema, value.value) == Between(locals.next, after.next) <==> !Wastes(lua, schema, source))
            && Grows(locals, after) && Extends(locals, after)
  {
    HostTallies(lua, schema, source, locals);
    HostSound(lua, schema, source, locals);
    HostEnters(lua, schema, source, locals);
  }

  /** A map of callables with the keys 1 and "1": the function that comes first stays registered and nothing refers to it. */
  lemma {:induction false} TwoKeysWasteOne(lua: Runtime, rows: Rows, locals: Locals)
    requires rows == map[KInteger(1) := LFunction(7), KString(Utf8.Encode("1")) := LFunction(8)]
    requires lua.order(rows) == [KInteger(1), KString(Utf8.Encode("1"))]
    ensures var (value, after) := Host(lua, Map(Callable("c", Unit, Unit)), LTable(rows), locals);
            && value == Some(VMap(map["1" := VCallable(Local("c", locals.next + 2))]))
            && locals.next + 1 in after.entries && after.entries[locals.next + 1].f == 7
            && locals.next + 2 in after.entries && after.entries[locals.next + 2].f == 8
  {
    var item := Callable("c", Unit, Unit);
    var (one, text) := (KInteger(1), KString(Utf8.Encode("1")));
    assert IntText(1) == "1";
    Utf8.RoundTrip("1");
    var (first, next) := Host(lua, item, LFunction(7), locals);
    assert HostEntries(lua, item, rows, [], locals) == (Some(map[]), locals);
    assert [one, text][..1] == [one] && [one][..0] == [];
    assert HostEntries(lua, item, rows, [one], locals) == (Some(map["1" := first.value]), next);
    var entries := map["1" := VCallable(Local("c", locals.next + 2))];
    assert map["1" := first.value]["1" := VCallable(Local("c", locals.next + 2))] == entries;
    assert HostEntries(lua, item, rows, [one, text], locals) == (Some(entries), Lift(Lift(locals, item, 7), item, 8));
    assert Host(lua, Map(item), LTable(rows), locals) == (Some(VMap(entries)), Lift(Lift(locals, item, 7), item, 8));
  }
}
