/** The two decoders from Lua: both sound, the plain one a restriction of the one that lifts functions. */
module LuaDecoders {
  import opened Wrappers
  import opened Schema
  import opened LuaValuesSpec
  import Utf8

  /** Keys are distinct and valid, as in the ordered maps that hold them. */
  predicate WellFormed(schema: Type) {
    match schema
    case Optional(item) => WellFormed(item)
    case Array(item, _) => WellFormed(item)
    case List(item) => WellFormed(item)
    case Map(item) => WellFormed(item)
    case Table(fields) => WellFormedFields(fields)
    case Variant(variants) => WellFormedFields(variants)
    case Callable(_, input, output) => WellFormed(input) && WellFormed(output)
    case _ => true
  }

  predicate WellFormedFields(fields: Fields) {
    match fields
    case End => true
    case Field(key, schema, rest) => IsKey(key) && Find(rest, key).None? && WellFormed(schema) && WellFormedFields(rest)
  }

  // ---------------------------------------------------------------- one decoder restricts the other

  /** Whatever the plain decoder accepts, the lifting one accepts with the same result, and lifts nothing. */
  lemma {:induction false} HostExtendsDecode(lua: Runtime, schema: Type, value: Lua, locals: Locals)
    requires Decode(lua, schema, value).Some?
    ensures Host(lua, schema, value, locals) == (Decode(lua, schema, value), locals)
    decreases schema, 2
  {
    match schema
    case Optional(item) =>
      if !value.LNil? {
        HostExtendsDecode(lua, item, value, locals);
      }
    case Array(item, len) => ItemsExtend(lua, item, Sequence(value.rows, 1), locals);
    case List(item) => ItemsExtend(lua, item, Sequence(value.rows, 1), locals);
    case Map(item) => EntriesExtend(lua, item, value.rows, lua.order(value.rows), locals);
    case Table(fields) => FieldsExtend(lua, value.rows, fields, locals);
    case Variant(variants) =>
      var kind := ValueText(lua, Get(value.rows, NameKey("kind")));
      PayloadExtends(lua, variants, kind.value, value.rows, locals);
    case _ =>
  }

  lemma {:induction false} ItemsExtend(lua: Runtime, item: Type, items: seq<Lua>, locals: Locals)
    requires DecodeItems(lua, item, items).Some?
    ensures HostItems(lua, item, items, locals) == (DecodeItems(lua, item, items), locals)
    decreases item, 3, |items|
  {
    if items != [] {
      HostExtendsDecode(lua, item, items[0], locals);
      ItemsExtend(lua, item, items[1..], locals);
    }
  }

  lemma {:induction false} EntriesExtend(lua: Runtime, item: Type, rows: Rows, keys: seq<Key>, locals: Locals)
    requires DecodeEntries(lua, item, rows, keys).Some?
    ensures HostEntries(lua, item, rows, keys, locals) == (DecodeEntries(lua, item, rows, keys), locals)
    decreases item, 3, |keys|
  {
    if keys != [] {
      var last := keys[|keys| - 1];
      EntriesExtend(lua, item, rows, keys[..|keys| - 1], locals);
      HostExtendsDecode(lua, item, Get(rows, last), locals);
    }
  }

  lemma {:induction false} FieldsExtend(lua: Runtime, rows: Rows, fields: Fields, locals: Locals)
    requires DecodeFields(lua, rows, fields).Some?
    ensures HostFields(lua, rows, fields, locals) == (DecodeFields(lua, rows, fields), locals)
    decreases fields, 0
  {
    match fields
    case End =>
    case Field(key, schema, rest) =>
      HostExtendsDecode(lua, schema, Get(rows, NameKey(key)), locals);
      FieldsExtend(lua, rows, rest, locals);
  }

  lemma {:induction false} PayloadExtends(lua: Runtime, variants: Fields, kind: string, rows: Rows, locals: Locals)
    requires DecodePayload(lua, variants, kind, rows).Some?
    ensures HostPayload(lua, variants, kind, rows, locals) == (DecodePayload(lua, variants, kind, rows), locals)
    decreases variants, 0
  {
    match variants
    case End =>
    case Field(key, schema, rest) =>
      if key != kind {
        PayloadExtends(lua, rest, kind, rows, locals);
      } else if schema.Table? {
        FieldsExtend(lua, rows, schema.fields, locals);
      } else if !schema.Unit? {
        HostExtendsDecode(lua, schema, Get(rows, NameKey("value")), locals);
      }
  }

  /** No callable anywhere, and no variant whose payload is a record. */
  predicate Uniform(schema: Type) {
    match schema
    case Optional(item) => Uniform(item)
    case Array(item, _) => Uniform(item)
    case List(item) => Uniform(item)
    case Map(item) => Uniform(item)
    case Table(fields) => UniformFields(fields)
    case Variant(variants) => UniformFields(variants) && NoRecord(variants)
    case Callable(_, _, _) => false
    case _ => true
  }

  predicate UniformFields(fields: Fields) {
    match fields
    case End => true
    case Field(_, schema, rest) => Uniform(schema) && UniformFields(rest)
  }

  predicate NoRecord(variants: Fields) {
    match variants
    case End => true
    case Field(_, schema, rest) => !schema.Table? && NoRecord(rest)
  }

  /** Without callables and record payloads the two decoders are the same function, failures included. */
  lemma {:induction false} HostIsDecode(lua: Runtime, schema: Type, value: Lua, locals: Locals)
    requires Uniform(schema)
    ensures Host(lua, schema, value, locals) == (Decode(lua, schema, value), locals)
    decreases schema, 2
  {
    match schema
    case Optional(item) => HostIsDecode(lua, item, value, locals);
    case Array(item, len) =>
      if value.LTable? {
        ItemsAgree(lua, item, Sequence(value.rows, 1), locals);
      }
    case List(item) =>
      if value.LTable? {
        ItemsAgree(lua, item, Sequence(value.rows, 1), locals);
      }
    case Map(item) =>
      if value.LTable? {
        EntriesAgree(lua, item, value.rows, lua.order(value.rows), locals);
      }
    case Table(fields) =>
      if value.LTable? {
        FieldsAgree(lua, value.rows, fields, locals);
      }
    case Variant(variants) => VariantAgrees(lua, variants, value, locals);
    case _ =>
  }

  lemma {:induction false} VariantAgrees(lua: Runtime, variants: Fields, value: Lua, locals: Locals)
    requires UniformFields(variants) && NoRecord(variants)
    ensures Host(lua, Variant(variants), value, locals) == (Decode(lua, Variant(variants), value), locals)
    decreases variants, 1
  {
    if value.LTable? {
      var kind := ValueText(lua, Get(value.rows, NameKey("kind")));
      if kind.Some? {
        PayloadAgrees(lua, variants, kind.value, value.rows, locals);
      }
    }
  }

  lemma {:induction false} PayloadAgrees(lua: Runtime, variants: Fields, kind: string, rows: Rows, locals: Locals)
    requires UniformFields(variants) && NoRecord(variants)
    ensures HostPayload(lua, variants, kind, rows, locals) == (DecodePayload(lua, variants, kind, rows), locals)
    decreases variants, 0
  {
    match variants
    case End =>
    case Field(key, schema, rest) =>
      if key != kind {
        PayloadAgrees(lua, rest, kind, rows, locals);
      } else if !schema.Unit? {
        HostIsDecode(lua, schema, Get(rows, NameKey("value")), locals);
      }
  }

  lemma {:induction false} ItemsAgree(lua: Runtime, item: Type, items: seq<Lua>, locals: Locals)
    requires Uniform(item)
    ensures HostItems(lua, item, items, locals) == (DecodeItems(lua, item, items), locals)
    decreases item, 3, |items|
  {
    if items != [] {
      HostIsDecode(lua, item, items[0], locals);
      ItemsAgree(lua, item, items[1..], locals);
    }
  }

  lemma {:induction false} EntriesAgree(lua: Runtime, item: Type, rows: Rows, keys: seq<Key>, locals: Locals)
    requires Uniform(item)
    ensures HostEntries(lua, item, rows, keys, locals) == (DecodeEntries(lua, item, rows, keys), locals)
    decreases item, 3, |keys|
  {
    if keys != [] {
      EntriesAgree(lua, item, rows, keys[..|keys| - 1], locals);
      HostIsDecode(lua, item, Get(rows, keys[|keys| - 1]), locals);
    }
  }

  lemma {:induction false} FieldsAgree(lua: Runtime, rows: Rows, fields: Fields, locals: Locals)
    requires UniformFields(fields)
    ensures HostFields(lua, rows, fields, locals) == (DecodeFields(lua, rows, fields), locals)
    decreases fields, 0
  {
    match fields
    case End =>
    case Field(key, schema, rest) =>
      HostIsDecode(lua, schema, Get(rows, NameKey(key)), locals);
      FieldsAgree(lua, rows, rest, locals);
  }

  // ---------------------------------------------------------------- soundness

  /** Ids are handed out in order and an id once handed out keeps its entry. */
  ghost predicate Grows(before: Locals, after: Locals) {
    && before.next <= after.next
    && (forall n :: n in before.entries && n <= before.next ==> n in after.entries && after.entries[n] == before.entries[n])
  }

  /** Every callable in the value is a function lifted after `since` at the very schema it stands at. */
  ghost predicate Registered(schema: Type, value: Value, since: nat, locals: Locals)
    requires Parses(schema, value)
    decreases schema, 0
  {
    match schema
    case Callable(_, _, _) =>
      && value.callable.Local? && since < value.callable.n <= locals.next
      && value.callable.n in locals.entries && locals.entries[value.callable.n].schema == schema
    case Optional(item) => value.VSome? ==> Registered(item, value.value, since, locals)
    case Array(item, _) => forall i :: 0 <= i < |value.values| ==> Registered(item, value.values[i], since, locals)
    case List(item) => forall i :: 0 <= i < |value.values| ==> Registered(item, value.values[i], since, locals)
    case Map(item) => forall k :: k in value.entries ==> Registered(item, value.entries[k], since, locals)
    case Table(fields) =>
      assert ParsesFields(fields, value.fields);
      RegisteredFields(fields, value.fields, since, locals)
    case Variant(variants) => RegisteredVariant(variants, value.tag, value.payload, since, locals)
    case _ => true
  }

  ghost predicate RegisteredFields(fields: Fields, values: map<string, Value>, since: nat, locals: Locals)
    requires ParsesEach(fields, values)
    decreases fields, 0
  {
    match fields
    case End => true
    case Field(key, schema, rest) =>
      Registered(schema, values[key], since, locals) && RegisteredFields(rest, values, since, locals)
  }

  ghost predicate RegisteredVariant(variants: Fields, tag: string, payload: Value, since: nat, locals: Locals)
    requires ParsesVariant(variants, tag, payload)
    decreases variants, 0
  {
    match variants
    case End => true
    case Field(key, schema, rest) =>
      if key == tag then Registered(schema, payload, since, locals)
      else RegisteredVariant(rest, tag, payload, since, locals)
  }

  lemma {:induction false} StaysRegistered(schema: Type, value: Value, since: nat, early: nat, locals: Locals, later: Locals)
    requires Parses(schema, value) && Registered(schema, value, since, locals)
    requires early <= since && Grows(locals, later)
    ensures Registered(schema, value, early, later)
    decreases schema, 0
  {
    match schema
    case Optional(item) =>
      if value.VSome? {
        StaysRegistered(item, value.value, since, early, locals, later);
      }
    case Array(item, _) =>
      forall i | 0 <= i < |value.values|
        ensures Registered(item, value.values[i], early, later)
      {
        StaysRegistered(item, value.values[i], since, early, locals, later);
      }
    case List(item) =>
      forall i | 0 <= i < |value.values|
        ensures Registered(item, value.values[i], early, later)
      {
        StaysRegistered(item, value.values[i], since, early, locals, later);
      }
    case Map(item) =>
      forall k | k in value.entries
        ensures Registered(item, value.entries[k], early, later)
      {
        StaysRegistered(item, value.entries[k], since, early, locals, later);
      }
    case Table(fields) => FieldsStayRegistered(fields, value.fields, since, early, locals, later);
    case Variant(variants) => VariantStaysRegistered(variants, value.tag, value.payload, since, early, locals, later);
    case _ =>
  }

  lemma {:induction false} FieldsStayRegistered(
    fields: Fields, values: map<string, Value>, since: nat, early: nat, locals: Locals, later: Locals)
    requires ParsesEach(fields, values) && RegisteredFields(fields, values, since, locals)
    requires early <= since && Grows(locals, later)
    ensures RegisteredFields(fields, values, early, later)
    decreases fields, 0
  {
    match fields
    case End =>
    case Field(key, schema, rest) =>
      StaysRegistered(schema, values[key], since, early, locals, later);
      FieldsStayRegistered(rest, values, since, early, locals, later);
  }

  lemma {:induction false} VariantStaysRegistered(
    variants: Fields, tag: string, payload: Value, since: nat, early: nat, locals: Locals, later: Locals)
    requires ParsesVariant(variants, tag, payload) && RegisteredVariant(variants, tag, payload, since, locals)
    requires early <= since && Grows(locals, later)
    ensures RegisteredVariant(variants, tag, payload, early, later)
    decreases variants, 0
  {
    match variants
    case End =>
    case Field(key, schema, rest) =>
      if key == tag {
        StaysRegistered(schema, payload, since, early, locals, later);
      } else {
        VariantStaysRegistered(rest, tag, payload, since, early, locals, later);
      }
  }

  /** The result conforms, and its callables are newly lifted at their own schemas. */
  ghost predicate Sound(schema: Type, result: (Option<Value>, Locals), locals: Locals) {
    && Grows(locals, result.1)
    && (result.0.Some? ==> Parses(schema, result.0.value) && Registered(schema, result.0.value, locals.next, result.1))
  }

  /** What the lifting decoder returns conforms, and its callables are newly lifted at their own schemas. */
  lemma {:induction false} HostSound(lua: Runtime, schema: Type, value: Lua, locals: Locals)
    requires WellFormed(schema)
    ensures Sound(schema, Host(lua, schema, value, locals), locals)
    decreases schema, 2
  {
    match schema
    case Optional(item) => HostSound(lua, item, value, locals);
    case Array(item, len) => ArraySound(lua, item, len, value, locals);
    case List(item) => ListSound(lua, item, value, locals);
    case Map(item) => MapSound(lua, item, value, locals);
    case Table(fields) => TableSound(lua, fields, value, locals);
    case Variant(variants) => VariantSound(lua, variants, value, locals);
    case _ =>
  }

  lemma {:induction false} ListSound(lua: Runtime, item: Type, value: Lua, locals: Locals)
    requires WellFormed(item)
    ensures Sound(List(item), Host(lua, List(item), value, locals), locals)
    decreases item, 4
  {
    if value.LTable? {
      ItemsSound(lua, item, Sequence(value.rows, 1), locals);
    }
  }

  lemma {:induction false} ArraySound(lua: Runtime, item: Type, len: nat, value: Lua, locals: Locals)
    requires WellFormed(item)
    ensures Sound(Array(item, len), Host(lua, Array(item, len), value, locals), locals)
    decreases item, 4
  {
    if value.LTable? {
      ItemsSound(lua, item, Sequence(value.rows, 1), locals);
    }
  }

  lemma {:induction false} MapSound(lua: Runtime, item: Type, value: Lua, locals: Locals)
    requires WellFormed(item)
    ensures Sound(Map(item), Host(lua, Map(item), value, locals), locals)
    decreases item, 4
  {
    if value.LTable? {
      EntriesSound(lua, item, value.rows, lua.order(value.rows), locals);
    }
  }

  lemma {:induction false} TableSound(lua: Runtime, fields: Fields, value: Lua, locals: Locals)
    requires WellFormedFields(fields)
    ensures Sound(Table(fields), Host(lua, Table(fields), value, locals), locals)
    decreases fields, 1
  {
    if value.LTable? {
      FieldsSound(lua, value.rows, fields, locals);
    }
  }

  lemma {:induction false} VariantSound(lua: Runtime, variants: Fields, value: Lua, locals: Locals)
    requires WellFormedFields(variants)
    ensures Sound(Variant(variants), Host(lua, Variant(variants), value, locals), locals)
    decreases variants, 1
  {
    if value.LTable? {
      var kind := ValueText(lua, Get(value.rows, NameKey("kind")));
      if kind.Some? {
        PayloadSound(lua, variants, kind.value, value.rows, locals);
        var (payload, after) := HostPayload(lua, variants, kind.value, value.rows, locals);
        assert payload.Some? ==> Parses(Variant(variants), VVariant(kind.value, payload.value));
      }
    }
  }

  lemma {:induction false} ItemsSound(lua: Runtime, item: Type, items: seq<Lua>, locals: Locals)
    requires WellFormed(item)
    ensures var (result, after) := HostItems(lua, item, items, locals);
            && Grows(locals, after)
            && (result.Some? ==> EachSound(item, result.value, locals.next, after))
    decreases item, 3, |items|
  {
    if items != [] {
      var (first, next) := Host(lua, item, items[0], locals);
      HostSound(lua, item, items[0], locals);
      if first.Some? {
        var (rest, after) := HostItems(lua, item, items[1..], next);
        ItemsSound(lua, item, items[1..], next);
        if rest.Some? {
          ItemBefore(item, first.value, rest.value, locals, next, after);
        }
      }
    }
  }

  ghost predicate EachSound(item: Type, values: seq<Value>, since: nat, locals: Locals) {
    forall i :: 0 <= i < |values| ==> Parses(item, values[i]) && Registered(item, values[i], since, locals)
  }

  lemma {:induction false} ItemBefore(item: Type, first: Value, rest: seq<Value>, locals: Locals, next: Locals, after: Locals)
    requires Grows(locals, next) && Grows(next, after)
    requires Parses(item, first) && Registered(item, first, locals.next, next) && EachSound(item, rest, next.next, after)
    ensures EachSound(item, [first] + rest, locals.next, after)
  {
    StaysRegistered(item, first, locals.next, locals.next, next, after);
    forall i | 0 <= i < |rest|
      ensures Registered(item, rest[i], locals.next, after)
    {
      StaysRegistered(item, rest[i], next.next, locals.next, after, after);
    }
  }

  lemma {:induction false} EntriesSound(lua: Runtime, item: Type, rows: Rows, keys: seq<Key>, locals: Locals)
    requires WellFormed(item)
    ensures var (result, after) := HostEntries(lua, item, rows, keys, locals);
            && Grows(locals, after)
            && (result.Some? ==> AllSound(item, result.value, locals.next, after))
    decreases item, 3, |keys|
  {
    if keys != [] {
      var (earlier, next) := HostEntries(lua, item, rows, keys[..|keys| - 1], locals);
      EntriesSound(lua, item, rows, keys[..|keys| - 1], locals);
      var last := keys[|keys| - 1];
      if earlier.Some? && KeyText(lua, last).Some? {
        var (value, after) := Host(lua, item, Get(rows, last), next);
        HostSound(lua, item, Get(rows, last), next);
        if value.Some? {
          EntryAfter(item, earlier.value, KeyText(lua, last).value, value.value, locals, next, after);
        }
      }
    }
  }

  ghost predicate AllSound(item: Type, values: map<string, Value>, since: nat, locals: Locals) {
    forall k :: k in values ==> Parses(item, values[k]) && Registered(item, values[k], since, locals)
  }

  lemma {:induction false} EntryAfter(
    item: Type, earlier: map<string, Value>, text: string, value: Value, locals: Locals, next: Locals, after: Locals)
    requires Grows(locals, next) && Grows(next, after)
    requires AllSound(item, earlier, locals.next, next) && Parses(item, value) && Registered(item, value, next.next, after)
    ensures AllSound(item, earlier[text := value], locals.next, after)
  {
    StaysRegistered(item, value, next.next, locals.next, after, after);
    forall k | k in earlier
      ensures Registered(item, earlier[k], locals.next, after)
    {
      StaysRegistered(item, earlier[k], locals.next, locals.next, next, after);
    }
  }

  lemma {:induction false} FieldsSound(lua: Runtime, rows: Rows, fields: Fields, locals: Locals)
    requires WellFormedFields(fields)
    ensures var (result, after) := HostFields(lua, rows, fields, locals);
            && Grows(locals, after)
            && (result.Some? ==> ParsesFields(fields, result.value)
                                 && RegisteredFields(fields, result.value, locals.next, after))
    decreases fields, 0
  {
    match fields
    case End =>
    case Field(key, schema, rest) =>
      var (value, next) := Host(lua, schema, Get(rows, NameKey(key)), locals);
      HostSound(lua, schema, Get(rows, NameKey(key)), locals);
      if value.Some? {
        var (others, after) := HostFields(lua, rows, rest, next);
        FieldsSound(lua, rows, rest, next);
        if others.Some? {
          StaysRegistered(schema, value.value, locals.next, locals.next, next, after);
          FieldsStayRegistered(rest, others.value, next.next, locals.next, after, after);
          UnusedKey(rest, others.value, key, value.value, locals.next, after);
        }
      }
  }

  /** A key that is not a field does not matter to the fields. */
  lemma {:induction false} UnusedKey(
    fields: Fields, values: map<string, Value>, key: string, value: Value, since: nat, locals: Locals)
    requires Find(fields, key).None? && ParsesEach(fields, values) && RegisteredFields(fields, values, since, locals)
    ensures ParsesEach(fields, values[key := value]) && RegisteredFields(fields, values[key := value], since, locals)
    decreases fields
  {
    match fields
    case End =>
    case Field(_, _, rest) => UnusedKey(rest, values, key, value, since, locals);
  }

  lemma {:induction false} PayloadSound(lua: Runtime, variants: Fields, kind: string, rows: Rows, locals: Locals)
    requires WellFormedFields(variants)
    ensures var (result, after) := HostPayload(lua, variants, kind, rows, locals);
            && Grows(locals, after)
            && (result.Some? ==> ParsesVariant(variants, kind, result.value)
                                 && RegisteredVariant(variants, kind, result.value, locals.next, after))
    decreases variants, 0
  {
    match variants
    case End =>
    case Field(key, schema, rest) =>
      if key != kind {
        PayloadSound(lua, rest, kind, rows, locals);
      } else if schema.Table? {
        FieldsSound(lua, rows, schema.fields, locals);
      } else if !schema.Unit? {
        HostSound(lua, schema, Get(rows, NameKey("value")), locals);
      }
  }

  /** What the plain decoder returns conforms to its schema. */
  lemma {:induction false} DecodeSound(lua: Runtime, schema: Type, value: Lua)
    requires WellFormed(schema) && Decode(lua, schema, value).Some?
    ensures Parses(schema, Decode(lua, schema, value).value)
  {
    var locals := Locals(0, map[]);
    HostExtendsDecode(lua, schema, value, locals);
    HostSound(lua, schema, value, locals);
  }

  // ---------------------------------------------------------------- exactly where the decoders differ

  /**
   * What the walk over a value by its schema meets: no callable, and in the record of every variant only the
   * names of fields and `kind`.
   */
  predicate Clean(lua: Runtime, schema: Type, value: Lua)
    decreases schema, 2
  {
    match schema
    case Callable(_, _, _) => false
    case Optional(item) => value.LNil? || Clean(lua, item, value)
    case Array(item, _) => value.LTable? ==> CleanItems(lua, item, Sequence(value.rows, 1))
    case List(item) => value.LTable? ==> CleanItems(lua, item, Sequence(value.rows, 1))
    case Map(item) => value.LTable? ==> CleanEntries(lua, item, value.rows, lua.order(value.rows))
    case Table(fields) => value.LTable? ==> CleanFields(lua, value.rows, fields)
    case Variant(variants) => value.LTable? ==> CleanVariant(lua, variants, value.rows)
    case _ => true
  }

  predicate CleanItems(lua: Runtime, item: Type, items: seq<Lua>)
    decreases item, 3
  {
    forall i :: 0 <= i < |items| ==> Clean(lua, item, items[i])
  }

  predicate CleanEntries(lua: Runtime, item: Type, rows: Rows, keys: seq<Key>)
    decreases item, 3, |keys|
  {
    keys == [] ||
    (CleanEntries(lua, item, rows, keys[..|keys| - 1]) && Clean(lua, item, Get(rows, keys[|keys| - 1])))
  }

  predicate CleanFields(lua: Runtime, rows: Rows, fields: Fields)
    decreases fields, 0
  {
    match fields
    case End => true
    case Field(key, schema, rest) => Clean(lua, schema, Get(rows, NameKey(key))) && CleanFields(lua, rows, rest)
  }

  predicate CleanVariant(lua: Runtime, variants: Fields, rows: Rows)
    decreases variants, 1
  {
    var kind := ValueText(lua, Get(rows, NameKey("kind")));
    kind.Some? ==> CleanPayload(lua, variants, kind.value, rows)
  }

  predicate CleanPayload(lua: Runtime, variants: Fields, kind: string, rows: Rows)
    decreases variants, 0
  {
    match variants
    case End => true
    case Field(key, schema, rest) =>
      if key != kind then CleanPayload(lua, rest, kind, rows)
      else if schema.Table? then
        KeysAllowed(rows, schema.fields, Some("kind")) && CleanFields(lua, rows, schema.fields)
      else if schema.Unit? then true
      else Clean(lua, schema, Get(rows, NameKey("value")))
  }

  lemma {:induction false} DecodedIsClean(lua: Runtime, schema: Type, value: Lua)
    requires Decode(lua, schema, value).Some?
    ensures Clean(lua, schema, value)
    decreases schema, 2
  {
    match schema
    case Optional(item) =>
      if !value.LNil? {
        DecodedIsClean(lua, item, value);
      }
    case Array(item, len) => DecodedItemsClean(lua, item, Sequence(value.rows, 1));
    case List(item) => DecodedItemsClean(lua, item, Sequence(value.rows, 1));
    case Map(item) => DecodedEntriesClean(lua, item, value.rows, lua.order(value.rows));
    case Table(fields) => DecodedFieldsClean(lua, value.rows, fields);
    case Variant(variants) =>
      DecodedPayloadClean(lua, variants, ValueText(lua, Get(value.rows, NameKey("kind"))).value, value.rows);
    case _ =>
  }

  lemma {:induction false} DecodedItemsClean(lua: Runtime, item: Type, items: seq<Lua>)
    requires DecodeItems(lua, item, items).Some?
    ensures CleanItems(lua, item, items)
    decreases item, 3, |items|
  {
    if items != [] {
      DecodedIsClean(lua, item, items[0]);
      DecodedItemsClean(lua, item, items[1..]);
      assert forall i :: 0 < i < |items| ==> items[i] == items[1..][i - 1];
    }
  }

  lemma {:induction false} DecodedEntriesClean(lua: Runtime, item: Type, rows: Rows, keys: seq<Key>)
    requires DecodeEntries(lua, item, rows, keys).Some?
    ensures CleanEntries(lua, item, rows, keys)
    decreases item, 3, |keys|
  {
    if keys != [] {
      DecodedEntriesClean(lua, item, rows, keys[..|keys| - 1]);
      DecodedIsClean(lua, item, Get(rows, keys[|keys| - 1]));
    }
  }

  lemma {:induction false} DecodedFieldsClean(lua: Runtime, rows: Rows, fields: Fields)
    requires DecodeFields(lua, rows, fields).Some?
    ensures CleanFields(lua, rows, fields)
    decreases fields, 0
  {
    match fields
    case End =>
    case Field(key, schema, rest) =>
      DecodedIsClean(lua, schema, Get(rows, NameKey(key)));
      DecodedFieldsClean(lua, rows, rest);
  }

  lemma {:induction false} DecodedPayloadClean(lua: Runtime, variants: Fields, kind: string, rows: Rows)
    requires DecodePayload(lua, variants, kind, rows).Some?
    ensures CleanPayload(lua, variants, kind, rows)
    decreases variants, 0
  {
    match variants
    case End =>
    case Field(key, schema, rest) =>
      if key != kind {
        DecodedPayloadClean(lua, rest, kind, rows);
      } else if schema.Table? {
        DecodedFieldsClean(lua, rows, schema.fields);
      } else if !schema.Unit? {
        DecodedIsClean(lua, schema, Get(rows, NameKey("value")));
      }
  }

  lemma {:induction false} CleanDecodes(lua: Runtime, schema: Type, value: Lua, locals: Locals)
    requires Host(lua, schema, value, locals).0.Some? && Clean(lua, schema, value)
    ensures Decode(lua, schema, value).Some?
    decreases schema, 2
  {
    match schema
    case Optional(item) =>
      if !value.LNil? {
        CleanDecodes(lua, item, value, locals);
      }
    case Array(item, len) => CleanItemsDecode(lua, item, Sequence(value.rows, 1), locals);
    case List(item) => CleanItemsDecode(lua, item, Sequence(value.rows, 1), locals);
    case Map(item) => CleanEntriesDecode(lua, item, value.rows, lua.order(value.rows), locals);
    case Table(fields) => CleanFieldsDecode(lua, value.rows, fields, locals);
    case Variant(variants) =>
      CleanPayloadDecodes(lua, variants, ValueText(lua, Get(value.rows, NameKey("kind"))).value, value.rows, locals);
    case _ =>
  }

  lemma {:induction false} CleanItemsDecode(lua: Runtime, item: Type, items: seq<Lua>, locals: Locals)
    requires HostItems(lua, item, items, locals).0.Some? && CleanItems(lua, item, items)
    ensures DecodeItems(lua, item, items).Some?
    ensures |DecodeItems(lua, item, items).value| == |HostItems(lua, item, items, locals).0.value|
    decreases item, 3, |items|
  {
    if items != [] {
      CleanDecodes(lua, item, items[0], locals);
      CleanItemsDecode(lua, item, items[1..], Host(lua, item, items[0], locals).1);
    }
  }

  lemma {:induction false} CleanEntriesDecode(lua: Runtime, item: Type, rows: Rows, keys: seq<Key>, locals: Locals)
    requires HostEntries(lua, item, rows, keys, locals).0.Some? && CleanEntries(lua, item, rows, keys)
    ensures DecodeEntries(lua, item, rows, keys).Some?
    decreases item, 3, |keys|
  {
    if keys != [] {
      var before := keys[..|keys| - 1];
      CleanEntriesDecode(lua, item, rows, before, locals);
      CleanDecodes(lua, item, Get(rows, keys[|keys| - 1]), HostEntries(lua, item, rows, before, locals).1);
    }
  }

  lemma {:induction false} CleanFieldsDecode(lua: Runtime, rows: Rows, fields: Fields, locals: Locals)
    requires HostFields(lua, rows, fields, locals).0.Some? && CleanFields(lua, rows, fields)
    ensures DecodeFields(lua, rows, fields).Some?
    decreases fields, 0
  {
    match fields
    case End =>
    case Field(key, schema, rest) =>
      CleanDecodes(lua, schema, Get(rows, NameKey(key)), locals);
      CleanFieldsDecode(lua, rows, rest, Host(lua, schema, Get(rows, NameKey(key)), locals).1);
  }

  lemma {:induction false} CleanPayloadDecodes(lua: Runtime, variants: Fields, kind: string, rows: Rows, locals: Locals)
    requires HostPayload(lua, variants, kind, rows, locals).0.Some? && CleanPayload(lua, variants, kind, rows)
    ensures DecodePayload(lua, variants, kind, rows).Some?
    decreases variants, 0
  {
    match variants
    case End =>
    case Field(key, schema, rest) =>
      if key != kind {
        CleanPayloadDecodes(lua, rest, kind, rows, locals);
      } else if schema.Table? {
        CleanFieldsDecode(lua, rows, schema.fields, locals);
      } else if !schema.Unit? {
        CleanDecodes(lua, schema, Get(rows, NameKey("value")), locals);
      }
  }

  /**
   * Exactly where the two decoders differ, for every schema and value: the plain one accepts what the lifting one
   * accepts if and only if the value holds no callable and no variant's record holds a name that is no field; and
   * then the results are the same and nothing is lifted.
   */
  lemma {:induction false} DecodersAgreeIff(lua: Runtime, schema: Type, value: Lua, locals: Locals)
    ensures Decode(lua, schema, value).Some? <==>
              Host(lua, schema, value, locals).0.Some? && Clean(lua, schema, value)
    ensures Decode(lua, schema, value).Some? ==>
              Host(lua, schema, value, locals) == (Decode(lua, schema, value), locals)
  {
    if Decode(lua, schema, value).Some? {
      HostExtendsDecode(lua, schema, value, locals);
      DecodedIsClean(lua, schema, value);
    } else if Host(lua, schema, value, locals).0.Some? && Clean(lua, schema, value) {
      CleanDecodes(lua, schema, value, locals);
    }
  }

  // ---------------------------------------------------------------- an input on which they differ

  lemma {:induction false} GetOther(rows: Rows, name: string, other: string, value: Lua)
    requires name != other
    ensures Get(rows[NameKey(other) := value], NameKey(name)) == Get(rows, NameKey(name))
  {
    if NameKey(name) == NameKey(other) {
      Utf8.EncodeInjective(name, other);
    }
  }

  lemma {:induction false} OtherNameIsUnread(
    lua: Runtime, rows: Rows, fields: Fields, extra: string, value: Lua, locals: Locals)
    requires Find(fields, extra).None?
    ensures HostFields(lua, rows[NameKey(extra) := value], fields, locals) == HostFields(lua, rows, fields, locals)
    decreases fields
  {
    match fields
    case End =>
    case Field(key, schema, rest) =>
      GetOther(rows, key, extra, value);
      OtherNameIsUnread(lua, rows, rest, extra, value, Host(lua, schema, Get(rows, NameKey(key)), locals).1);
  }

  lemma {:induction false} ExtraNameRefused(
    lua: Runtime, variants: Fields, tag: string, fields: Fields, rows: Rows, extra: string)
    requires Find(variants, tag) == Some(Table(fields)) && Find(fields, extra).None? && extra != "kind"
    requires ValueText(lua, Get(rows, NameKey("kind"))) == Some(tag) && NameKey(extra) in rows
    ensures Decode(lua, Variant(variants), LTable(rows)) == None
  {
    PayloadOf(lua, variants, tag, rows, Locals(0, map[]));
    Utf8.RoundTrip(extra);
    assert !KeyAllowed(NameKey(extra), fields, Some("kind"));
    assert !KeysAllowed(rows, fields, Some("kind"));
  }

  /**
   * In the record of a variant, a name that is no field is refused by the plain decoder and ignored by the
   * lifting one.
   */
  lemma {:induction false} ExtraNameTellsThemApart(
    lua: Runtime, variants: Fields, tag: string, fields: Fields, rows: Rows, extra: string, value: Lua, locals: Locals)
    requires Find(variants, tag) == Some(Table(fields)) && Find(fields, extra).None? && extra != "kind"
    requires ValueText(lua, Get(rows, NameKey("kind"))) == Some(tag)
    ensures var more := LTable(rows[NameKey(extra) := value]);
            && Host(lua, Variant(variants), more, locals) == Host(lua, Variant(variants), LTable(rows), locals)
            && Decode(lua, Variant(variants), more) == None
  {
    var more := rows[NameKey(extra) := value];
    GetOther(rows, "kind", extra, value);
    ExtraNameRefused(lua, variants, tag, fields, more, extra);
    SamePayload(lua, variants, tag, fields, rows, extra, value, locals);
    HostOfVariant(lua, variants, tag, rows, locals);
    HostOfVariant(lua, variants, tag, more, locals);
  }

  lemma {:induction false} SamePayload(
    lua: Runtime, variants: Fields, tag: string, fields: Fields, rows: Rows, extra: string, value: Lua, locals: Locals)
    requires Find(variants, tag) == Some(Table(fields)) && Find(fields, extra).None?
    ensures HostPayload(lua, variants, tag, rows[NameKey(extra) := value], locals)
         == HostPayload(lua, variants, tag, rows, locals)
  {
    PayloadOf(lua, variants, tag, rows[NameKey(extra) := value], locals);
    PayloadOf(lua, variants, tag, rows, locals);
    OtherNameIsUnread(lua, rows, fields, extra, value, locals);
  }

  lemma {:induction false} HostOfVariant(lua: Runtime, variants: Fields, tag: string, rows: Rows, locals: Locals)
    requires ValueText(lua, Get(rows, NameKey("kind"))) == Some(tag)
    ensures Host(lua, Variant(variants), LTable(rows), locals) ==
              if !IsKey(tag) then (None, locals)
              else
                var (payload, after) := HostPayload(lua, variants, tag, rows, locals);
                (if payload.None? then None else Some(VVariant(tag, payload.value)), after)
  {
  }

  lemma {:induction false} PayloadOf(lua: Runtime, variants: Fields, tag: string, rows: Rows, locals: Locals)
    requires Find(variants, tag).Some? && Find(variants, tag).value.Table?
    ensures var fields := Find(variants, tag).value.fields;
            var (values, after) := HostFields(lua, rows, fields, locals);
            var record := DecodeRecord(lua, rows, fields, Some("kind"));
            && HostPayload(lua, variants, tag, rows, locals)
               == (if values.None? then None else Some(VTable(values.value)), after)
            && DecodePayload(lua, variants, tag, rows)
               == if record.None? then None else Some(VTable(record.value))
    decreases variants
  {
    match variants
    case End =>
    case Field(key, _, rest) =>
      if key != tag {
        PayloadOf(lua, rest, tag, rows, locals);
      }
  }
}
