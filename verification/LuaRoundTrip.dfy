/** Which schemas survive the way to Lua and back, exactly. */
module LuaRoundTrip {
  import opened Wrappers
  import opened Schema
  import opened LuaValuesSpec
  import opened LuaDecoders
  import Utf8

  /** No dynamic value, no callable and no object anywhere. */
  predicate Plain(schema: Type) {
    match schema
    case Optional(item) => Plain(item)
    case Array(item, _) => Plain(item)
    case List(item) => Plain(item)
    case Map(item) => Plain(item)
    case Table(fields) => PlainFields(fields)
    case Variant(variants) => PlainFields(variants)
    case Any => false
    case Callable(_, _, _) => false
    case Object(_) => false
    case _ => true
  }

  predicate PlainFields(fields: Fields) {
    match fields
    case End => true
    case Field(_, schema, rest) => Plain(schema) && PlainFields(rest)
  }

  /** Some value of the schema is projected as nil. */
  predicate Nilable(schema: Type) {
    schema.Unit? || schema.Optional?
  }

  predicate Inhabited(schema: Type) {
    match schema
    case Never => false
    case Array(item, len) => len == 0 || Inhabited(item)
    case Table(fields) => AllInhabited(fields)
    case Variant(variants) => SomeInhabited(variants)
    case _ => true
  }

  predicate AllInhabited(fields: Fields) {
    match fields
    case End => true
    case Field(_, schema, rest) => Inhabited(schema) && AllInhabited(rest)
  }

  predicate SomeInhabited(variants: Fields) {
    match variants
    case End => false
    case Field(_, schema, rest) => Inhabited(schema) || SomeInhabited(rest)
  }

  /** The schemas every value of which survives the round trip. */
  predicate Exact(schema: Type) {
    match schema
    case Optional(item) => Exact(item) && !Nilable(item)
    case Array(item, len) => len == 0 || (Exact(item) && !Nilable(item))
    case List(item) => Exact(item) && !Nilable(item)
    case Map(item) => Exact(item) && !Nilable(item)
    case Table(fields) => AllInhabited(fields) ==> AllExact(fields)
    case Variant(variants) => PayloadsExact(variants)
    case _ => true
  }

  predicate AllExact(fields: Fields) {
    match fields
    case End => true
    case Field(_, schema, rest) => Exact(schema) && AllExact(rest)
  }

  predicate PayloadsExact(variants: Fields) {
    match variants
    case End => true
    case Field(_, schema, rest) => Exact(schema) && KindIsFree(schema) && PayloadsExact(rest)
  }

  /** A record payload shares its table with the tag, so it must not have a field named like it. */
  predicate KindIsFree(schema: Type) {
    schema.Table? && AllInhabited(schema.fields) ==> Find(schema.fields, "kind").None?
  }

  // ---------------------------------------------------------------- nil

  /** Only units and absent options become nil. */
  lemma {:induction false} NilOnlyFromNilable(lua: Runtime, schema: Type, value: Value)
    requires Plain(schema) && Encode(lua, schema, value) == Some(LNil)
    ensures Nilable(schema)
  {
    match schema
    case Table(fields) =>
      assert ParsesFields(fields, value.fields);
      EncodeStores(lua, fields, value.fields, map[]);
    case Variant(variants) => PayloadIsTable(lua, variants, value.tag, value.payload);
    case _ =>
  }

  lemma {:induction false} PayloadIsTable(lua: Runtime, variants: Fields, tag: string, payload: Value)
    requires EncodePayload(lua, variants, tag, payload).Some?
    ensures EncodePayload(lua, variants, tag, payload).value.LTable?
    decreases variants
  {
    match variants
    case End =>
    case Field(key, schema, rest) =>
      if key != tag {
        PayloadIsTable(lua, rest, tag, payload);
      } else if schema.Table? && payload.VTable? {
        EncodeStores(lua, schema.fields, payload.fields, map[NameKey("kind") := LString(Utf8.Encode(tag))]);
      }
  }

  // ---------------------------------------------------------------- records

  function Names(fields: Fields): set<string> {
    match fields
    case End => {}
    case Field(key, _, rest) => {key} + Names(rest)
  }

  lemma {:induction false} FindIsNamed(fields: Fields, key: string)
    ensures Find(fields, key).Some? <==> key in Names(fields)
    decreases fields
  {
    match fields
    case End =>
    case Field(_, _, rest) => FindIsNamed(rest, key);
  }

  /** Each field's projection sits under its name. */
  ghost predicate Stored(lua: Runtime, fields: Fields, values: map<string, Value>, rows: Rows) {
    match fields
    case End => true
    case Field(key, schema, rest) =>
      && key in values && Encode(lua, schema, values[key]).Some?
      && Get(rows, NameKey(key)) == Encode(lua, schema, values[key]).value
      && Stored(lua, rest, values, rows)
  }

  /** Rows outside the named fields are those of `start`. */
  ghost predicate Keeps(names: set<string>, start: Rows, rows: Rows) {
    && (forall name {:trigger NameKey(name)} :: name !in names ==> Get(rows, NameKey(name)) == Get(start, NameKey(name)))
    && (forall key :: key in rows ==> key in start || exists name :: name in names && key == NameKey(name))
  }

  lemma {:induction false} SetKeeps(start: Rows, name: string, value: Lua)
    ensures Keeps({name}, start, Set(start, NameKey(name), value))
    ensures Get(Set(start, NameKey(name), value), NameKey(name)) == value
  {
    NamesInjective();
  }

  lemma {:induction false} KeepsChain(a: set<string>, b: set<string>, x: Rows, y: Rows, z: Rows)
    requires Keeps(a, x, y) && Keeps(b, y, z)
    ensures Keeps(a + b, x, z)
  {
    forall key | key in z
      ensures key in x || exists name :: name in a + b && key == NameKey(name)
    {
      if key !in y {
        var name :| name in b && key == NameKey(name);
        assert name in a + b;
      } else if key !in x {
        var name :| name in a && key == NameKey(name);
        assert name in a + b;
      }
    }
  }

  lemma {:induction false} EncodeStores(lua: Runtime, fields: Fields, values: map<string, Value>, start: Rows)
    requires EncodeFields(lua, fields, values, start).Some?
    ensures var out := EncodeFields(lua, fields, values, start).value;
            && out.LTable? && Keeps(Names(fields), start, out.rows)
            && (WellFormedFields(fields) ==> Stored(lua, fields, values, out.rows))
    decreases fields
  {
    match fields
    case End =>
    case Field(key, schema, rest) =>
      var next := Set(start, NameKey(key), Encode(lua, schema, values[key]).value);
      SetKeeps(start, key, Encode(lua, schema, values[key]).value);
      EncodeStores(lua, rest, values, next);
      KeepsChain({key}, Names(rest), start, next, EncodeFields(lua, rest, values, next).value.rows);
      FindIsNamed(rest, key);
  }

  lemma {:induction false} KeysAreAllowed(fields: Fields, start: Rows, rows: Rows, extra: Option<string>)
    requires Keeps(Names(fields), start, rows)
    requires forall key :: key in start ==> extra.Some? && key == NameKey(extra.value)
    ensures KeysAllowed(rows, fields, extra)
  {
    forall key | key in rows
      ensures KeyAllowed(key, fields, extra)
    {
      if key in start {
        Utf8.RoundTrip(extra.value);
      } else {
        var name :| name in Names(fields) && key == NameKey(name);
        Utf8.RoundTrip(name);
        FindIsNamed(fields, name);
      }
    }
  }

  lemma {:induction false} ParsedNames(fields: Fields, values: map<string, Value>)
    requires ParsesEach(fields, values)
    ensures Names(fields) <= values.Keys
    decreases fields
  {
    match fields
    case End =>
    case Field(_, _, rest) => ParsedNames(rest, values);
  }

  lemma {:induction false} ParsedKeys(fields: Fields, values: map<string, Value>)
    requires ParsesFields(fields, values)
    ensures values.Keys == Names(fields)
  {
    ParsedNames(fields, values);
    forall key | key in values
      ensures key in Names(fields)
    {
      FindIsNamed(fields, key);
    }
  }

  /** Stored fields decode to their values. */
  lemma {:induction false} FieldsDecode(lua: Runtime, fields: Fields, values: map<string, Value>, rows: Rows)
    requires WellFormedFields(fields) && PlainFields(fields) && AllExact(fields) && Enumerates(lua)
    requires Stored(lua, fields, values, rows)
    ensures Names(fields) <= values.Keys
    ensures DecodeFields(lua, rows, fields) == Some(map key | key in Names(fields) :: values[key])
    decreases fields, 0
  {
    match fields
    case End =>
    case Field(key, schema, rest) =>
      RoundTrip(lua, schema, values[key]);
      FieldsDecode(lua, rest, values, rows);
      assert (map k | k in Names(fields) :: values[k]) == (map k | k in Names(rest) :: values[k])[key := values[key]];
  }

  /** A record written on top of `start` reads back, whatever single extra key `start` holds. */
  lemma {:induction false} RecordRoundTrip(
    lua: Runtime, fields: Fields, values: map<string, Value>, start: Rows, extra: Option<string>)
    requires WellFormedFields(fields) && PlainFields(fields) && AllExact(fields) && Enumerates(lua)
    requires ParsesFields(fields, values) && EncodeFields(lua, fields, values, start).Some?
    requires forall key :: key in start ==> extra.Some? && key == NameKey(extra.value)
    ensures var out := EncodeFields(lua, fields, values, start).value;
            && out.LTable? && Keeps(Names(fields), start, out.rows)
            && DecodeRecord(lua, out.rows, fields, extra) == Some(values)
    decreases fields, 1
  {
    EncodeStores(lua, fields, values, start);
    var rows := EncodeFields(lua, fields, values, start).value.rows;
    KeysAreAllowed(fields, start, rows, extra);
    FieldsDecode(lua, fields, values, rows);
    ParsedKeys(fields, values);
    assert (map key | key in Names(fields) :: values[key]) == values;
  }

  // ---------------------------------------------------------------- sequences

  /** A table without holes reads as its items. */
  lemma {:induction false} SequenceOfRows(rows: Rows, i: nat, items: seq<Lua>)
    requires forall j :: i <= j < i + |items| ==> KInteger(j) in rows && rows[KInteger(j)] == items[j - i]
    requires KInteger(i + |items|) !in rows
    ensures Sequence(rows, i) == items
    decreases |items|
  {
    if items != [] {
      var key := KInteger(i);
      SequenceOfRows(rows - {key}, i + 1, items[1..]);
      RemoveShrinks(rows, key);
      assert Sequence(rows, i) == [rows[key]] + Sequence(rows - {key}, i + 1);
    }
  }

  lemma {:induction false} SequenceOfItems(items: seq<Lua>)
    requires forall i :: 0 <= i < |items| ==> items[i] != LNil
    ensures Sequence(ItemRows(items), 1) == items
  {
    var rows := ItemRows(items);
    forall j | 1 <= j < 1 + |items|
      ensures KInteger(j) in rows && rows[KInteger(j)] == items[j - 1]
    {
    }
    SequenceOfRows(rows, 1, items);
  }

  lemma {:induction false} ItemsDecode(lua: Runtime, item: Type, values: seq<Value>, items: seq<Lua>)
    requires |items| == |values|
    requires forall i :: 0 <= i < |values| ==> Decode(lua, item, items[i]) == Some(values[i])
    ensures DecodeItems(lua, item, items) == Some(values)
    decreases |values|
  {
    if values != [] {
      ItemsDecode(lua, item, values[1..], items[1..]);
      assert values == [values[0]] + values[1..];
    }
  }

  /** What a value inside a table needs: not to become nil, and to be recovered. */
  lemma {:induction false} ElementSurvives(lua: Runtime, item: Type, value: Value)
    requires WellFormed(item) && Plain(item) && Exact(item) && !Nilable(item) && Enumerates(lua)
    requires Encode(lua, item, value).Some?
    ensures var out := Encode(lua, item, value).value;
            out != LNil && Decode(lua, item, out) == Some(value)
    decreases item, 3
  {
    RoundTrip(lua, item, value);
    if Encode(lua, item, value) == Some(LNil) {
      NilOnlyFromNilable(lua, item, value);
    }
  }

  lemma {:induction false} EmptyListRoundTrip(lua: Runtime, item: Type)
    ensures EncodeList(lua, item, []) == Some(LTable(map[])) && Sequence(map[], 1) == []
  {
    SequenceOfItems([]);
    assert ItemRows([]) == map[];
  }

  lemma {:induction false} ListRoundTrip(lua: Runtime, item: Type, values: seq<Value>)
    requires WellFormed(item) && Plain(item) && Exact(item) && !Nilable(item) && Enumerates(lua)
    requires EncodeList(lua, item, values).Some?
    ensures var out := EncodeList(lua, item, values).value;
            out.LTable? && DecodeItems(lua, item, Sequence(out.rows, 1)) == Some(values)
    decreases item, 4
  {
    var items := EncodedItems(lua, item, values);
    forall i | 0 <= i < |values|
      ensures items[i] != LNil && Decode(lua, item, items[i]) == Some(values[i])
    {
      ElementSurvives(lua, item, values[i]);
    }
    SequenceOfItems(items);
    ItemsDecode(lua, item, values, items);
  }

  // ---------------------------------------------------------------- maps

  /** The key is the name of an entry. */
  ghost predicate IsName(key: Key, names: set<string>) {
    exists name :: name in names && key == NameKey(name)
  }

  lemma {:induction false} NamedRowsHold(values: map<string, Lua>)
    requires forall name :: name in values ==> values[name] != LNil
    ensures forall key :: key in NamedRows(map[], values) ==> IsName(key, values.Keys)
    ensures forall name :: name in values ==>
              NameKey(name) in NamedRows(map[], values) && NamedRows(map[], values)[NameKey(name)] == values[name]
  {
    NamesInjective();
  }

  /** The key reads as the name of an entry whose value decodes. */
  ghost predicate Readable(lua: Runtime, item: Type, entries: map<string, Value>, rows: Rows, key: Key) {
    && KeyText(lua, key).Some? && KeyText(lua, key).value in entries
    && Decode(lua, item, Get(rows, key)) == Some(entries[KeyText(lua, key).value])
  }

  ghost predicate AllReadable(lua: Runtime, item: Type, entries: map<string, Value>, rows: Rows, keys: seq<Key>) {
    forall i :: 0 <= i < |keys| ==> Readable(lua, item, entries, rows, keys[i])
  }

  /** The texts of the keys that have one. */
  function Texts(lua: Runtime, keys: seq<Key>): set<string> {
    set i | 0 <= i < |keys| && KeyText(lua, keys[i]).Some? :: KeyText(lua, keys[i]).value
  }

  lemma {:induction false} EntriesDecode(
    lua: Runtime, item: Type, entries: map<string, Value>, rows: Rows, keys: seq<Key>)
    requires AllReadable(lua, item, entries, rows, keys)
    ensures Texts(lua, keys) <= entries.Keys
    ensures DecodeEntries(lua, item, rows, keys) == Some(map k | k in Texts(lua, keys) :: entries[k])
    decreases |keys|
  {
    if keys != [] {
      var earlier, last := keys[..|keys| - 1], keys[|keys| - 1];
      assert Readable(lua, item, entries, rows, last);
      forall i | 0 <= i < |earlier|
        ensures Readable(lua, item, entries, rows, earlier[i])
      {
        assert earlier[i] == keys[i];
      }
      EntriesDecode(lua, item, entries, rows, earlier);
      LastText(lua, keys);
      var text := KeyText(lua, last).value;
      assert (map k | k in Texts(lua, earlier) :: entries[k])[text := entries[text]]
          == map k | k in Texts(lua, keys) :: entries[k];
    }
  }

  lemma {:induction false} LastText(lua: Runtime, keys: seq<Key>)
    requires keys != [] && KeyText(lua, keys[|keys| - 1]).Some?
    ensures Texts(lua, keys) == Texts(lua, keys[..|keys| - 1]) + {KeyText(lua, keys[|keys| - 1]).value}
  {
    var earlier := keys[..|keys| - 1];
    forall text | text in Texts(lua, keys)
      ensures text in Texts(lua, earlier) + {KeyText(lua, keys[|keys| - 1]).value}
    {
      var i :| 0 <= i < |keys| && KeyText(lua, keys[i]) == Some(text);
      if i < |keys| - 1 {
        assert earlier[i] == keys[i];
      }
    }
    forall text | text in Texts(lua, earlier)
      ensures text in Texts(lua, keys)
    {
      var i :| 0 <= i < |earlier| && KeyText(lua, earlier[i]) == Some(text);
      assert keys[i] == earlier[i];
    }
  }

  /** Each entry's name holds a value that decodes to the entry, and nothing else is there. */
  ghost predicate HoldsEntries(lua: Runtime, item: Type, entries: map<string, Value>, rows: Rows) {
    && (forall key :: key in rows ==> IsName(key, entries.Keys))
    && (forall name :: name in entries ==> NameKey(name) in rows && Readable(lua, item, entries, rows, NameKey(name)))
  }

  lemma {:induction false} KeysAreReadable(
    lua: Runtime, item: Type, entries: map<string, Value>, rows: Rows, keys: seq<Key>)
    requires HoldsEntries(lua, item, entries, rows)
    requires forall key :: key in keys <==> key in rows
    ensures AllReadable(lua, item, entries, rows, keys)
  {
    forall i | 0 <= i < |keys|
      ensures Readable(lua, item, entries, rows, keys[i])
    {
      assert keys[i] in keys;
      assert IsName(keys[i], entries.Keys);
      var name :| name in entries.Keys && keys[i] == NameKey(name);
    }
  }

  lemma {:induction false} NamesAreRead(lua: Runtime, names: set<string>, keys: seq<Key>)
    requires forall name :: name in names ==> NameKey(name) in keys
    ensures names <= Texts(lua, keys)
  {
    forall name | name in names
      ensures name in Texts(lua, keys)
    {
      Utf8.RoundTrip(name);
      var i :| 0 <= i < |keys| && keys[i] == NameKey(name);
      assert KeyText(lua, keys[i]) == Some(name);
    }
  }

  lemma {:induction false} CoveredEntriesDecode(
    lua: Runtime, item: Type, entries: map<string, Value>, rows: Rows, keys: seq<Key>)
    requires AllReadable(lua, item, entries, rows, keys) && entries.Keys <= Texts(lua, keys)
    ensures DecodeEntries(lua, item, rows, keys) == Some(entries)
  {
    EntriesDecode(lua, item, entries, rows, keys);
    assert (map k | k in Texts(lua, keys) :: entries[k]) == entries;
  }

  lemma {:induction false} KeysCover(lua: Runtime, item: Type, entries: map<string, Value>, rows: Rows, keys: seq<Key>)
    requires HoldsEntries(lua, item, entries, rows)
    requires forall key :: key in keys <==> key in rows
    ensures AllReadable(lua, item, entries, rows, keys) && entries.Keys <= Texts(lua, keys)
  {
    KeysAreReadable(lua, item, entries, rows, keys);
    NamesAreRead(lua, entries.Keys, keys);
  }

  lemma {:induction false} EntriesHold(lua: Runtime, item: Type, entries: map<string, Value>, values: map<string, Lua>)
    requires values.Keys == entries.Keys
    requires forall k :: k in entries ==> values[k] != LNil && Decode(lua, item, values[k]) == Some(entries[k])
    ensures HoldsEntries(lua, item, entries, NamedRows(map[], values))
  {
    NamedRowsHold(values);
    forall name | name in entries
      ensures Readable(lua, item, entries, NamedRows(map[], values), NameKey(name))
    {
      Utf8.RoundTrip(name);
    }
  }

  lemma {:induction false} MapRoundTrip(lua: Runtime, item: Type, entries: map<string, Value>)
    requires WellFormed(item) && Plain(item) && Exact(item) && !Nilable(item) && Enumerates(lua)
    requires EncodeEntries(lua, item, entries).Some?
    ensures var out := EncodeEntries(lua, item, entries).value;
            out.LTable? && DecodeEntries(lua, item, out.rows, lua.order(out.rows)) == Some(entries)
    decreases item, 4
  {
    var values := EncodedEntries(lua, item, entries);
    forall k | k in entries
      ensures values[k] != LNil && Decode(lua, item, values[k]) == Some(entries[k])
    {
      ElementSurvives(lua, item, entries[k]);
    }
    EntriesHold(lua, item, entries, values);
    var rows := NamedRows(map[], values);
    assert EnumeratesRows(lua, rows);
    KeysCover(lua, item, entries, rows, lua.order(rows));
    CoveredEntriesDecode(lua, item, entries, rows, lua.order(rows));
  }

  // ---------------------------------------------------------------- variants

  /** The table a variant starts as. */
  function TagRows(tag: string): Rows {
    map[NameKey("kind") := LString(Utf8.Encode(tag))]
  }

  lemma {:induction false} RecordPayloadRoundTrip(lua: Runtime, fields: Fields, tag: string, values: map<string, Value>)
    requires WellFormedFields(fields) && PlainFields(fields) && AllExact(fields) && Find(fields, "kind").None?
    requires Enumerates(lua) && ParsesFields(fields, values) && EncodeFields(lua, fields, values, TagRows(tag)).Some?
    ensures var out := EncodeFields(lua, fields, values, TagRows(tag)).value;
            && out.LTable? && Get(out.rows, NameKey("kind")) == LString(Utf8.Encode(tag))
            && DecodeRecord(lua, out.rows, fields, Some("kind")) == Some(values)
    decreases fields, 3
  {
    TaggedRecordRoundTrip(lua, fields, values, "kind", LString(Utf8.Encode(tag)), TagRows(tag));
  }

  /** A record encoded into a table that already has one other row keeps that row. */
  lemma {:induction false} TaggedRecordRoundTrip(
    lua: Runtime, fields: Fields, values: map<string, Value>, name: string, row: Lua, start: Rows)
    requires WellFormedFields(fields) && PlainFields(fields) && AllExact(fields) && Find(fields, name).None?
    requires Enumerates(lua) && ParsesFields(fields, values) && start == map[NameKey(name) := row]
    requires EncodeFields(lua, fields, values, start).Some?
    ensures var out := EncodeFields(lua, fields, values, start).value;
            && out.LTable? && Get(out.rows, NameKey(name)) == row
            && DecodeRecord(lua, out.rows, fields, Some(name)) == Some(values)
    decreases fields, 2
  {
    RecordRoundTrip(lua, fields, values, start, Some(name));
    FindIsNamed(fields, name);
  }

  lemma {:induction false} OtherPayloadRoundTrip(lua: Runtime, schema: Type, tag: string, payload: Value)
    requires WellFormed(schema) && Plain(schema) && Exact(schema) && Enumerates(lua)
    requires Encode(lua, schema, payload).Some?
    ensures var rows := Set(TagRows(tag), NameKey("value"), Encode(lua, schema, payload).value);
            && Get(rows, NameKey("kind")) == LString(Utf8.Encode(tag))
            && Decode(lua, schema, Get(rows, NameKey("value"))) == Some(payload)
    decreases schema, 3
  {
    RoundTrip(lua, schema, payload);
    KindIsNotValue();
    SetKeeps(TagRows(tag), "value", Encode(lua, schema, payload).value);
  }

  lemma {:induction false} PayloadRoundTrip(lua: Runtime, variants: Fields, tag: string, payload: Value)
    requires WellFormedFields(variants) && PlainFields(variants) && PayloadsExact(variants) && Enumerates(lua)
    requires ParsesVariant(variants, tag, payload) && EncodePayload(lua, variants, tag, payload).Some?
    ensures var out := EncodePayload(lua, variants, tag, payload).value;
            && out.LTable? && Get(out.rows, NameKey("kind")) == LString(Utf8.Encode(tag))
            && IsKey(tag) && DecodePayload(lua, variants, tag, out.rows) == Some(payload)
    decreases variants, 0
  {
    match variants
    case End =>
    case Field(key, schema, rest) =>
      if key != tag {
        PayloadRoundTrip(lua, rest, tag, payload);
      } else {
        ChosenRoundTrip(lua, variants, tag, payload);
      }
  }

  /** The first variant is the one chosen. */
  lemma {:induction false} ChosenRoundTrip(lua: Runtime, variants: Fields, tag: string, payload: Value)
    requires variants.Field? && variants.key == tag
    requires WellFormedFields(variants) && PlainFields(variants) && PayloadsExact(variants) && Enumerates(lua)
    requires ParsesVariant(variants, tag, payload) && EncodePayload(lua, variants, tag, payload).Some?
    ensures var out := EncodePayload(lua, variants, tag, payload).value;
            && out.LTable? && Get(out.rows, NameKey("kind")) == LString(Utf8.Encode(tag))
            && IsKey(tag) && DecodePayload(lua, variants, tag, out.rows) == Some(payload)
    decreases variants, 0, 0
  {
    var schema := variants.schema;
    if schema.Table? {
      FreeRecordRoundTrip(lua, schema, tag, payload);
    } else if !schema.Unit? {
      OtherPayloadRoundTrip(lua, schema, tag, payload);
    }
  }

  lemma {:induction false} FreeRecordRoundTrip(lua: Runtime, schema: Type, tag: string, payload: Value)
    requires schema.Table? && WellFormed(schema) && Plain(schema) && Exact(schema) && KindIsFree(schema) && Enumerates(lua)
    requires Parses(schema, payload) && EncodeFields(lua, schema.fields, payload.fields, TagRows(tag)).Some?
    ensures var out := EncodeFields(lua, schema.fields, payload.fields, TagRows(tag)).value;
            && out.LTable? && Get(out.rows, NameKey("kind")) == LString(Utf8.Encode(tag))
            && DecodeRecord(lua, out.rows, schema.fields, Some("kind")) == Some(payload.fields)
    decreases schema, 0
  {
    assert ParsesFields(schema.fields, payload.fields);
    ParsedInhabited(schema.fields, payload.fields);
    RecordPayloadRoundTrip(lua, schema.fields, tag, payload.fields);
  }

  lemma {:induction false} KindIsNotValue()
    ensures "kind" != "value"
  {
    assert "kind"[0] != "value"[0];
  }

  /** A value can only conform to an inhabited schema. */
  lemma {:induction false} ParsesInhabited(schema: Type, value: Value)
    requires Parses(schema, value)
    ensures Inhabited(schema)
    decreases schema, 0
  {
    match schema
    case Array(item, len) =>
      if len > 0 {
        ParsesInhabited(item, value.values[0]);
      }
    case Table(fields) =>
      assert ParsesFields(fields, value.fields);
      ParsedInhabited(fields, value.fields);
    case Variant(variants) => PayloadInhabited(variants, value.tag, value.payload);
    case _ =>
  }

  lemma {:induction false} ParsedInhabited(fields: Fields, values: map<string, Value>)
    requires ParsesEach(fields, values)
    ensures AllInhabited(fields)
    decreases fields, 0
  {
    match fields
    case End =>
    case Field(key, schema, rest) =>
      ParsesInhabited(schema, values[key]);
      ParsedInhabited(rest, values);
  }

  lemma {:induction false} PayloadInhabited(variants: Fields, tag: string, payload: Value)
    requires ParsesVariant(variants, tag, payload)
    ensures SomeInhabited(variants)
    decreases variants, 0
  {
    match variants
    case End =>
    case Field(key, schema, rest) =>
      if key == tag {
        ParsesInhabited(schema, payload);
      } else {
        PayloadInhabited(rest, tag, payload);
      }
  }

  // ---------------------------------------------------------------- the round trip

  lemma {:induction false} ScalarRoundTrip(lua: Runtime, schema: Type, value: Value)
    requires schema in {Unit, Bool, I64, U64, F64, String, Bytes} && Encode(lua, schema, value).Some?
    ensures Decode(lua, schema, Encode(lua, schema, value).value) == Some(value)
  {
    if schema.String? {
      Utf8.RoundTrip(value.text);
    }
  }

  lemma {:induction false} OptionRoundTrip(lua: Runtime, item: Type, value: Value)
    requires WellFormed(item) && Plain(item) && Exact(item) && !Nilable(item) && Enumerates(lua)
    requires Encode(lua, Optional(item), value).Some?
    ensures Decode(lua, Optional(item), Encode(lua, Optional(item), value).value) == Some(value)
    decreases item, 4
  {
    if value.VSome? {
      ElementSurvives(lua, item, value.value);
    }
  }

  lemma {:induction false} TableRoundTrip(lua: Runtime, fields: Fields, value: Value)
    requires WellFormedFields(fields) && PlainFields(fields) && Exact(Table(fields)) && Enumerates(lua)
    requires Encode(lua, Table(fields), value).Some?
    ensures Decode(lua, Table(fields), Encode(lua, Table(fields), value).value) == Some(value)
    decreases fields, 2
  {
    assert ParsesFields(fields, value.fields);
    ParsedInhabited(fields, value.fields);
    RecordRoundTrip(lua, fields, value.fields, map[], None);
  }

  lemma {:induction false} VariantRoundTrip(lua: Runtime, variants: Fields, value: Value)
    requires WellFormedFields(variants) && PlainFields(variants) && PayloadsExact(variants) && Enumerates(lua)
    requires Encode(lua, Variant(variants), value).Some?
    ensures Decode(lua, Variant(variants), Encode(lua, Variant(variants), value).value) == Some(value)
    decreases variants, 1
  {
    PayloadRoundTrip(lua, variants, value.tag, value.payload);
    Utf8.RoundTrip(value.tag);
  }

  /** On exact schemas whatever projects to Lua is recovered from it. */
  lemma {:induction false} RoundTrip(lua: Runtime, schema: Type, value: Value)
    requires WellFormed(schema) && Plain(schema) && Exact(schema) && Enumerates(lua)
    requires Encode(lua, schema, value).Some?
    ensures Decode(lua, schema, Encode(lua, schema, value).value) == Some(value)
    decreases schema, 2
  {
    match schema
    case Optional(item) => OptionRoundTrip(lua, item, value);
    case Array(item, len) =>
      if len == 0 {
        EmptyListRoundTrip(lua, item);
      } else {
        ListRoundTrip(lua, item, value.values);
      }
    case List(item) => ListRoundTrip(lua, item, value.values);
    case Map(item) => MapRoundTrip(lua, item, value.entries);
    case Table(fields) => TableRoundTrip(lua, fields, value);
    case Variant(variants) => VariantRoundTrip(lua, variants, value);
    case _ => ScalarRoundTrip(lua, schema, value);
  }

  /** A fragment that can be read off the schema: nothing nilable inside a container, no record payload with a `kind`. */
  predicate Simple(schema: Type) {
    match schema
    case Optional(item) => Simple(item) && !Nilable(item)
    case Array(item, _) => Simple(item) && !Nilable(item)
    case List(item) => Simple(item) && !Nilable(item)
    case Map(item) => Simple(item) && !Nilable(item)
    case Table(fields) => SimpleFields(fields)
    case Variant(variants) => SimplePayloads(variants)
    case _ => true
  }

  predicate SimpleFields(fields: Fields) {
    match fields
    case End => true
    case Field(_, schema, rest) => Simple(schema) && SimpleFields(rest)
  }

  predicate SimplePayloads(variants: Fields) {
    match variants
    case End => true
    case Field(_, schema, rest) =>
      Simple(schema) && (schema.Table? ==> Find(schema.fields, "kind").None?) && SimplePayloads(rest)
  }

  lemma {:induction false} SimpleIsExact(schema: Type)
    requires Simple(schema)
    ensures Exact(schema)
    decreases schema
  {
    match schema
    case Optional(item) => SimpleIsExact(item);
    case Array(item, _) => SimpleIsExact(item);
    case List(item) => SimpleIsExact(item);
    case Map(item) => SimpleIsExact(item);
    case Table(fields) => SimpleFieldsAreExact(fields);
    case Variant(variants) => SimplePayloadsAreExact(variants);
    case _ =>
  }

  lemma {:induction false} SimpleFieldsAreExact(fields: Fields)
    requires SimpleFields(fields)
    ensures AllExact(fields)
    decreases fields
  {
    match fields
    case End =>
    case Field(_, schema, rest) =>
      SimpleIsExact(schema);
      SimpleFieldsAreExact(rest);
  }

  lemma {:induction false} SimplePayloadsAreExact(variants: Fields)
    requires SimplePayloads(variants)
    ensures PayloadsExact(variants)
    decreases variants
  {
    match variants
    case End =>
    case Field(_, schema, rest) =>
      SimpleIsExact(schema);
      SimplePayloadsAreExact(rest);
  }
}
