/** Which values project to Lua, and what stands where in the projection, callables and objects included. */
module LuaProjection {
  import opened Wrappers
  import opened Schema
  import opened LuaValuesSpec
  import opened LuaDecoders
  import opened LuaRoundTrip
  import LuaReading
  import Utf8

  // ---------------------------------------------------------------- which values project

  /** Numbers that Lua can hold, and callables only on a live connection. */
  ghost predicate Projects(lua: Runtime, schema: Type, value: Value)
    decreases schema, 2
  {
    match schema
    case Any => ProjectsAny(value)
    case U64 => value.VU64? && value.u as int <= MAX_INTEGER
    case F64 => value.VF64? && value.x.Finite?
    case Callable(_, _, _) => lua.live
    case Optional(item) => value.VSome? ==> Projects(lua, item, value.value)
    case Array(item, _) => value.VList? && forall i :: 0 <= i < |value.values| ==> Projects(lua, item, value.values[i])
    case List(item) => value.VList? && forall i :: 0 <= i < |value.values| ==> Projects(lua, item, value.values[i])
    case Map(item) => value.VMap? && ProjectsEntries(lua, item, value.entries)
    case Table(fields) => value.VTable? && ProjectsFields(lua, fields, value.fields)
    case Variant(variants) => value.VVariant? && ProjectsPayload(lua, variants, value.tag, value.payload)
    case _ => true
  }

  ghost predicate ProjectsEntries(lua: Runtime, item: Type, entries: map<string, Value>)
    decreases item, 3
  {
    forall k :: k in entries ==> Projects(lua, item, entries[k])
  }

  ghost predicate ProjectsFields(lua: Runtime, fields: Fields, values: map<string, Value>)
    decreases fields, 0
  {
    match fields
    case End => true
    case Field(key, schema, rest) =>
      key in values && Projects(lua, schema, values[key]) && ProjectsFields(lua, rest, values)
  }

  ghost predicate ProjectsPayload(lua: Runtime, variants: Fields, tag: string, payload: Value)
    decreases variants, 0
  {
    match variants
    case End => false
    case Field(key, schema, rest) =>
      if key == tag then Projects(lua, schema, payload) else ProjectsPayload(lua, rest, tag, payload)
  }

  predicate ProjectsAny(value: Value) {
    match value
    case VU64(u) => u as int <= MAX_INTEGER
    case VF64(x) => x.Finite?
    case VSome(inner) => ProjectsAny(inner)
    case VList(values) => forall v :: v in values ==> ProjectsAny(v)
    case VMap(entries) => forall k :: k in entries ==> ProjectsAny(entries[k])
    case VTable(fields) => forall k :: k in fields ==> ProjectsAny(fields[k])
    case VVariant(_, payload) => ProjectsAny(payload)
    case _ => true
  }

  /** A value that conforms projects exactly if its numbers fit and its callables have a connection. */
  lemma {:induction false} ProjectsIff(lua: Runtime, schema: Type, value: Value)
    requires Parses(schema, value)
    ensures Encode(lua, schema, value).Some? <==> Projects(lua, schema, value)
    decreases schema, 2
  {
    match schema
    case Any => AnyProjectsIff(lua, value);
    case Optional(item) =>
      if value.VSome? {
        ProjectsIff(lua, item, value.value);
      }
    case Array(item, _) => ItemsProjectIff(lua, item, value.values);
    case List(item) => ItemsProjectIff(lua, item, value.values);
    case Map(item) => EntriesProjectIff(lua, item, value.entries);
    case Table(fields) =>
      assert ParsesFields(fields, value.fields);
      FieldsProjectIff(lua, fields, value.fields, map[]);
    case Variant(variants) => PayloadProjectsIff(lua, variants, value.tag, value.payload);
    case _ =>
  }

  lemma {:induction false} ItemsProjectIff(lua: Runtime, item: Type, values: seq<Value>)
    requires forall i :: 0 <= i < |values| ==> Parses(item, values[i])
    ensures EncodeList(lua, item, values).Some? <==> forall i :: 0 <= i < |values| ==> Projects(lua, item, values[i])
    decreases item, 3
  {
    forall i | 0 <= i < |values|
      ensures Encode(lua, item, values[i]).Some? <==> Projects(lua, item, values[i])
    {
      ProjectsIff(lua, item, values[i]);
    }
  }

  lemma {:induction false} EntriesProjectIff(lua: Runtime, item: Type, entries: map<string, Value>)
    requires forall k :: k in entries ==> Parses(item, entries[k])
    ensures EncodeEntries(lua, item, entries).Some? <==> ProjectsEntries(lua, item, entries)
    decreases item, 4
  {
    if EntriesEncode(lua, item, entries) {
      forall k | k in entries
        ensures Projects(lua, item, entries[k])
      {
        ProjectsIff(lua, item, entries[k]);
      }
    }
    if ProjectsEntries(lua, item, entries) {
      forall k | k in entries
        ensures Encode(lua, item, entries[k]).Some?
      {
        ProjectsIff(lua, item, entries[k]);
      }
    }
  }

  lemma {:induction false} FieldsProjectIff(lua: Runtime, fields: Fields, values: map<string, Value>, start: Rows)
    requires ParsesEach(fields, values)
    ensures EncodeFields(lua, fields, values, start).Some? <==> ProjectsFields(lua, fields, values)
    decreases fields, 0
  {
    match fields
    case End =>
    case Field(key, schema, rest) =>
      var value := Encode(lua, schema, values[key]);
      ProjectsIff(lua, schema, values[key]);
      if value.Some? {
        FieldsProjectIff(lua, rest, values, Set(start, NameKey(key), value.value));
      }
  }

  lemma {:induction false} PayloadProjectsIff(lua: Runtime, variants: Fields, tag: string, payload: Value)
    requires ParsesVariant(variants, tag, payload)
    ensures EncodePayload(lua, variants, tag, payload).Some? <==> ProjectsPayload(lua, variants, tag, payload)
    decreases variants, 0
  {
    match variants
    case End =>
    case Field(key, schema, rest) =>
      if key != tag {
        PayloadProjectsIff(lua, rest, tag, payload);
      } else if schema.Table? {
        assert ParsesFields(schema.fields, payload.fields);
        FieldsProjectIff(lua, schema.fields, payload.fields, TagRows(tag));
      } else {
        ProjectsIff(lua, schema, payload);
      }
  }

  lemma {:induction false} AnyProjectsIff(lua: Runtime, value: Value)
    ensures Project(lua, value).Some? <==> ProjectsAny(value)
    decreases value, 1
  {
    match value
    case VSome(inner) => AnyProjectsIff(lua, inner);
    case VList(values) => AnyItemsProjectIff(lua, value, values);
    case VMap(entries) => AnyEntriesProjectIff(lua, value, entries, map[]);
    case VTable(fields) => AnyEntriesProjectIff(lua, value, fields, map[]);
    case VVariant(tag, payload) =>
      if payload.VTable? {
        AnyEntriesProjectIff(lua, payload, payload.fields, TagRows(tag));
      } else {
        AnyProjectsIff(lua, payload);
      }
    case _ =>
  }

  lemma {:induction false} AnyItemsProjectIff(lua: Runtime, list: Value, values: seq<Value>)
    requires list.VList? && forall v :: v in values ==> v in list.values
    ensures ProjectItems(lua, list, values).Some? <==> forall v :: v in values ==> ProjectsAny(v)
    decreases list, 0, |values|
  {
    if values != [] {
      assert values[0] in list.values;
      AnyProjectsIff(lua, values[0]);
      AnyItemsProjectIff(lua, list, values[1..]);
      assert forall v :: v in values <==> v == values[0] || v in values[1..];
    }
  }

  lemma {:induction false} AnyEntriesProjectIff(lua: Runtime, owner: Value, entries: map<string, Value>, start: Rows)
    requires owner == VMap(entries) || owner == VTable(entries)
    ensures ProjectEntries(lua, owner, entries, start).Some? <==> forall k :: k in entries ==> ProjectsAny(entries[k])
    decreases owner, 0, 0
  {
    forall k | k in entries
      ensures Project(lua, entries[k]).Some? <==> ProjectsAny(entries[k])
    {
      AnyProjectsIff(lua, entries[k]);
    }
  }

  // ---------------------------------------------------------------- what stands where

  /** What scalars are shown as. */
  predicate ShownAs(schema: Type, value: Value, out: Lua) {
    match schema
    case Unit => value.VUnit? && out.LNil?
    case Bool => value.VBool? && out == LBoolean(value.flag)
    case I64 => value.VI64? && out == LInteger(value.i)
    case U64 => value.VU64? && out.LInteger? && out.n as int == value.u as int
    case F64 => value.VF64? && out == LNumber(value.x)
    case String => value.VString? && out == LString(Utf8.Encode(value.text))
    case Bytes => value.VBytes? && out == LString(value.bytes)
    case _ => false
  }

  /** Without a schema: records as maps, a variant's record beside its tag, references as the runtime writes them. */
  ghost predicate ShowsAny(lua: Runtime, value: Value, out: Lua)
    decreases value, 0
  {
    match value
    case VUnit => out.LNil?
    case VNone => out.LNil?
    case VBool(flag) => out == LBoolean(flag)
    case VI64(i) => out == LInteger(i)
    case VU64(u) => out.LInteger? && out.n as int == u as int
    case VF64(x) => out == LNumber(x)
    case VString(text) => out == LString(Utf8.Encode(text))
    case VBytes(bytes) => out == LString(bytes)
    case VSome(inner) => ShowsAny(lua, inner, out)
    case VList(values) =>
      && out.LTable? && (forall key :: key in out.rows ==> key.KInteger? && 1 <= key.n <= |values|)
      && forall i :: 0 <= i < |values| ==> ShowsAny(lua, values[i], Get(out.rows, KInteger(i + 1)))
    case VMap(entries) =>
      && out.LTable? && (forall key :: key in out.rows ==> IsName(key, entries.Keys))
      && forall k :: k in entries ==> ShowsAny(lua, entries[k], Get(out.rows, NameKey(k)))
    case VTable(fields) =>
      && out.LTable? && (forall key :: key in out.rows ==> IsName(key, fields.Keys))
      && forall k :: k in fields ==> ShowsAny(lua, fields[k], Get(out.rows, NameKey(k)))
    case VVariant(tag, payload) =>
      out.LTable? &&
      if payload.VTable? then ShowsRecord(lua, tag, payload, out.rows)
      else
        && Get(out.rows, NameKey("kind")) == LString(Utf8.Encode(tag))
        && ShowsAny(lua, payload, Get(out.rows, NameKey("value")))
    case VCallable(callable) => out == lua.json(callable)
    case VObject(object_) => out == lua.json(object_)
  }

  ghost predicate ShowsRecord(lua: Runtime, tag: string, payload: Value, rows: Rows)
    requires payload.VTable?
    decreases payload, 1
  {
    && ("kind" in payload.fields || Get(rows, NameKey("kind")) == LString(Utf8.Encode(tag)))
    && forall k :: k in payload.fields ==> ShowsAny(lua, payload.fields[k], Get(rows, NameKey(k)))
  }

  /** The Lua value shows the value part by part: items at 1, 2, …, entries and fields under their names. */
  ghost predicate Shows(lua: Runtime, schema: Type, value: Value, out: Lua)
    decreases schema, 2
  {
    match schema
    case Any => ShowsAny(lua, value, out)
    case Callable(_, _, _) => value.VCallable? && out == LProxy(value.callable)
    case Object(_) => value.VObject? && out == LObject(value.object_)
    case Optional(item) => if value.VNone? then out.LNil? else value.VSome? && Shows(lua, item, value.value, out)
    case Array(item, _) => value.VList? && out.LTable? && ShowsItems(lua, item, value.values, out.rows)
    case List(item) => value.VList? && out.LTable? && ShowsItems(lua, item, value.values, out.rows)
    case Map(item) => value.VMap? && out.LTable? && ShowsEntries(lua, item, value.entries, out.rows)
    case Table(fields) =>
      && value.VTable? && out.LTable? && ShowsFields(lua, fields, value.fields, out.rows)
      && forall key :: key in out.rows ==> IsName(key, Names(fields))
    case Variant(variants) =>
      value.VVariant? && out.LTable? && ShowsPayload(lua, variants, value.tag, value.payload, out.rows)
    case _ => ShownAs(schema, value, out)
  }

  ghost predicate ShowsItems(lua: Runtime, item: Type, values: seq<Value>, rows: Rows)
    decreases item, 3
  {
    && (forall i :: 0 <= i < |values| ==> Shows(lua, item, values[i], Get(rows, KInteger(i + 1))))
    && (forall key :: key in rows ==> key.KInteger? && 1 <= key.n <= |values|)
  }

  ghost predicate ShowsEntries(lua: Runtime, item: Type, entries: map<string, Value>, rows: Rows)
    decreases item, 3
  {
    && (forall k :: k in entries ==> Shows(lua, item, entries[k], Get(rows, NameKey(k))))
    && (forall key :: key in rows ==> IsName(key, entries.Keys))
  }

  ghost predicate ShowsFields(lua: Runtime, fields: Fields, values: map<string, Value>, rows: Rows)
    decreases fields, 0
  {
    match fields
    case End => true
    case Field(key, schema, rest) =>
      && key in values && Shows(lua, schema, values[key], Get(rows, NameKey(key)))
      && ShowsFields(lua, rest, values, rows)
  }

  /** The tag under `kind`, unless a record's own field of that name hides it, and the payload beside or under `value`. */
  ghost predicate ShowsPayload(lua: Runtime, variants: Fields, tag: string, payload: Value, rows: Rows)
    decreases variants, 0
  {
    match variants
    case End => false
    case Field(key, schema, rest) =>
      if key != tag then ShowsPayload(lua, rest, tag, payload, rows)
      else if schema.Table? then
        && payload.VTable? && ShowsFields(lua, schema.fields, payload.fields, rows)
        && ("kind" in Names(schema.fields) || Get(rows, NameKey("kind")) == LString(Utf8.Encode(tag)))
      else
        && Get(rows, NameKey("kind")) == LString(Utf8.Encode(tag))
        && Shows(lua, schema, payload, Get(rows, NameKey("value")))
  }

  /** Whatever projects is shown part by part, each callable by the proxy of exactly its reference. */
  lemma {:induction false} EncodeShows(lua: Runtime, schema: Type, value: Value)
    requires WellFormed(schema) && Encode(lua, schema, value).Some?
    ensures Shows(lua, schema, value, Encode(lua, schema, value).value)
    decreases schema, 2
  {
    match schema
    case Any => AnyShows(lua, value);
    case Optional(item) =>
      if value.VSome? {
        EncodeShows(lua, item, value.value);
      }
    case Array(item, _) => ListShows(lua, item, value.values);
    case List(item) => ListShows(lua, item, value.values);
    case Map(item) => MapShows(lua, item, value.entries);
    case Table(fields) => TableShows(lua, fields, value.fields);
    case Variant(variants) => PayloadShows(lua, variants, value.tag, value.payload);
    case _ =>
  }

  lemma {:induction false} ListShows(lua: Runtime, item: Type, values: seq<Value>)
    requires WellFormed(item) && EncodeList(lua, item, values).Some?
    ensures EncodeList(lua, item, values).value.LTable?
    ensures ShowsItems(lua, item, values, EncodeList(lua, item, values).value.rows)
    decreases item, 4
  {
    var items := EncodedItems(lua, item, values);
    forall i | 0 <= i < |values|
      ensures Shows(lua, item, values[i], Get(ItemRows(items), KInteger(i + 1)))
    {
      EncodeShows(lua, item, values[i]);
      ItemAt(items, i);
    }
  }

  lemma {:induction false} ItemAt(items: seq<Lua>, i: nat)
    requires i < |items|
    ensures Get(ItemRows(items), KInteger(i + 1)) == items[i]
  {
  }

  lemma {:induction false} MapShows(lua: Runtime, item: Type, entries: map<string, Value>)
    requires WellFormed(item) && EncodeEntries(lua, item, entries).Some?
    ensures EncodeEntries(lua, item, entries).value.LTable?
    ensures ShowsEntries(lua, item, entries, EncodeEntries(lua, item, entries).value.rows)
    decreases item, 4
  {
    var rows := NamedRows(map[], EncodedEntries(lua, item, entries));
    forall k | k in entries
      ensures Shows(lua, item, entries[k], Get(rows, NameKey(k)))
    {
      EntryShows(lua, item, entries, k);
    }
    OnlyNames(EncodedEntries(lua, item, entries));
  }

  lemma {:induction false} EntryShows(lua: Runtime, item: Type, entries: map<string, Value>, name: string)
    requires WellFormed(item) && EntriesEncode(lua, item, entries) && name in entries
    ensures Shows(lua, item, entries[name], Get(NamedRows(map[], EncodedEntries(lua, item, entries)), NameKey(name)))
    decreases item, 3
  {
    EncodeShows(lua, item, entries[name]);
    NameAt(EncodedEntries(lua, item, entries), name);
  }

  lemma {:induction false} OnlyNames(values: map<string, Lua>)
    ensures forall key :: key in NamedRows(map[], values) ==> IsName(key, values.Keys)
  {
  }

  lemma {:induction false} NameAt(values: map<string, Lua>, name: string)
    requires name in values
    ensures Get(NamedRows(map[], values), NameKey(name)) == values[name]
  {
    NamesInjective();
  }

  lemma {:induction false} StoredShows(lua: Runtime, fields: Fields, values: map<string, Value>, rows: Rows)
    requires WellFormedFields(fields) && Stored(lua, fields, values, rows)
    ensures ShowsFields(lua, fields, values, rows)
    decreases fields, 0
  {
    match fields
    case End =>
    case Field(key, schema, rest) =>
      EncodeShows(lua, schema, values[key]);
      StoredShows(lua, rest, values, rows);
  }

  lemma {:induction false} TableShows(lua: Runtime, fields: Fields, values: map<string, Value>)
    requires WellFormedFields(fields) && EncodeFields(lua, fields, values, map[]).Some?
    ensures EncodeFields(lua, fields, values, map[]).value.LTable?
    ensures var rows := EncodeFields(lua, fields, values, map[]).value.rows;
            ShowsFields(lua, fields, values, rows) && forall key :: key in rows ==> IsName(key, Names(fields))
    decreases fields, 1
  {
    EncodeStores(lua, fields, values, map[]);
    StoredShows(lua, fields, values, EncodeFields(lua, fields, values, map[]).value.rows);
  }

  lemma {:induction false} PayloadShows(lua: Runtime, variants: Fields, tag: string, payload: Value)
    requires WellFormedFields(variants) && ParsesVariant(variants, tag, payload)
    requires EncodePayload(lua, variants, tag, payload).Some?
    ensures EncodePayload(lua, variants, tag, payload).value.LTable?
    ensures ShowsPayload(lua, variants, tag, payload, EncodePayload(lua, variants, tag, payload).value.rows)
    decreases variants, 0
  {
    match variants
    case End =>
    case Field(key, schema, rest) =>
      if key != tag {
        PayloadShows(lua, rest, tag, payload);
      } else if schema.Table? {
        RecordShows(lua, schema, tag, payload);
      } else {
        OtherShows(lua, schema, tag, payload);
      }
  }

  lemma {:induction false} RecordShows(lua: Runtime, schema: Type, tag: string, payload: Value)
    requires schema.Table? && payload.VTable? && WellFormed(schema)
    requires EncodeFields(lua, schema.fields, payload.fields, TagRows(tag)).Some?
    ensures var out := EncodeFields(lua, schema.fields, payload.fields, TagRows(tag)).value;
            && out.LTable? && ShowsFields(lua, schema.fields, payload.fields, out.rows)
            && ("kind" in Names(schema.fields) || Get(out.rows, NameKey("kind")) == LString(Utf8.Encode(tag)))
    decreases schema, 0
  {
    EncodeStores(lua, schema.fields, payload.fields, TagRows(tag));
    StoredShows(lua, schema.fields, payload.fields, EncodeFields(lua, schema.fields, payload.fields, TagRows(tag)).value.rows);
  }

  lemma {:induction false} OtherShows(lua: Runtime, schema: Type, tag: string, payload: Value)
    requires WellFormed(schema) && Encode(lua, schema, payload).Some?
    ensures var rows := Set(TagRows(tag), NameKey("value"), Encode(lua, schema, payload).value);
            && Get(rows, NameKey("kind")) == LString(Utf8.Encode(tag))
            && Shows(lua, schema, payload, Get(rows, NameKey("value")))
    decreases schema, 3
  {
    EncodeShows(lua, schema, payload);
    KindIsNotValue();
    SetKeeps(TagRows(tag), "value", Encode(lua, schema, payload).value);
  }

  // ---------------------------------------------------------------- without a schema

  lemma {:induction false} AnyShows(lua: Runtime, value: Value)
    requires Project(lua, value).Some?
    ensures ShowsAny(lua, value, Project(lua, value).value)
    decreases value, 2
  {
    match value
    case VSome(inner) => AnyShows(lua, inner);
    case VList(values) => AnyListShows(lua, value);
    case VMap(_) => AnyNamesShow(lua, value);
    case VTable(_) => AnyNamesShow(lua, value);
    case VVariant(tag, payload) =>
      if payload.VTable? {
        AnyRecordShows(lua, tag, payload);
      } else {
        AnyPayloadShows(lua, tag, payload);
      }
    case _ =>
  }

  lemma {:induction false} AnyNamesShow(lua: Runtime, value: Value)
    requires (value.VMap? || value.VTable?) && Project(lua, value).Some?
    ensures ShowsAny(lua, value, Project(lua, value).value)
    decreases value, 1
  {
    AnyEntriesShow(lua, value, if value.VMap? then value.entries else value.fields, map[]);
  }

  lemma {:induction false} AnyRecordShows(lua: Runtime, tag: string, payload: Value)
    requires payload.VTable? && ProjectEntries(lua, payload, payload.fields, TagRows(tag)).Some?
    ensures var out := ProjectEntries(lua, payload, payload.fields, TagRows(tag)).value;
            out.LTable? && ShowsRecord(lua, tag, payload, out.rows)
    decreases payload, 4
  {
    AnyBesideShows(lua, payload, "kind", LString(Utf8.Encode(tag)), TagRows(tag));
  }

  /** A record shown beside one other row. */
  lemma {:induction false} AnyBesideShows(lua: Runtime, payload: Value, name: string, row: Lua, start: Rows)
    requires payload.VTable? && start == map[NameKey(name) := row]
    requires ProjectEntries(lua, payload, payload.fields, start).Some?
    ensures var out := ProjectEntries(lua, payload, payload.fields, start).value;
            && out.LTable? && (name in payload.fields || Get(out.rows, NameKey(name)) == row)
            && forall k :: k in payload.fields ==> ShowsAny(lua, payload.fields[k], Get(out.rows, NameKey(k)))
    decreases payload, 3
  {
    AnyEntriesShow(lua, payload, payload.fields, start);
  }

  lemma {:induction false} AnyListShows(lua: Runtime, value: Value)
    requires value.VList? && Project(lua, value).Some?
    ensures ShowsAny(lua, value, Project(lua, value).value)
    decreases value, 1
  {
    var items := ProjectItems(lua, value, value.values).value;
    LuaReading.ProjectedItems(lua, value, value.values);
    forall i | 0 <= i < |value.values|
      ensures ShowsAny(lua, value.values[i], Get(ItemRows(items), KInteger(i + 1)))
    {
      assert value.values[i] in value.values;
      AnyShows(lua, value.values[i]);
      ItemAt(items, i);
    }
  }

  lemma {:induction false} AnyPayloadShows(lua: Runtime, tag: string, payload: Value)
    requires !payload.VTable? && Project(lua, VVariant(tag, payload)).Some?
    ensures ShowsAny(lua, VVariant(tag, payload), Project(lua, VVariant(tag, payload)).value)
    decreases payload, 3
  {
    AnyShows(lua, payload);
    KindIsNotValue();
    SetKeeps(TagRows(tag), "value", Project(lua, payload).value);
  }

  /** Entries beside what is there already. */
  lemma {:induction false} AnyEntriesShow(lua: Runtime, owner: Value, entries: map<string, Value>, start: Rows)
    requires owner == VMap(entries) || owner == VTable(entries)
    requires ProjectEntries(lua, owner, entries, start).Some?
    ensures ProjectEntries(lua, owner, entries, start).value.LTable?
    ensures var rows := ProjectEntries(lua, owner, entries, start).value.rows;
            && (forall k :: k in entries ==> ShowsAny(lua, entries[k], Get(rows, NameKey(k))))
            && (forall key :: key in rows ==> key in start || IsName(key, entries.Keys))
            && (forall name {:trigger NameKey(name)} :: name !in entries ==>
                  Get(rows, NameKey(name)) == Get(start, NameKey(name)))
    decreases owner, 0
  {
    var values := map k | k in entries :: Project(lua, entries[k]).value;
    forall k | k in entries
      ensures ShowsAny(lua, entries[k], Get(NamedRows(start, values), NameKey(k)))
    {
      AnyShows(lua, entries[k]);
      NamedAt(start, values, k);
    }
    NamedBeside(start, values);
  }

  lemma {:induction false} NamedAt(start: Rows, values: map<string, Lua>, name: string)
    requires name in values
    ensures Get(NamedRows(start, values), NameKey(name)) == values[name]
  {
    NamesInjective();
  }

  lemma {:induction false} NamedBeside(start: Rows, values: map<string, Lua>)
    ensures forall key :: key in NamedRows(start, values) ==> key in start || IsName(key, values.Keys)
    ensures forall name {:trigger NameKey(name)} :: name !in values ==>
              Get(NamedRows(start, values), NameKey(name)) == Get(start, NameKey(name))
  {
    NamesInjective();
  }
}
