/** Which Lua values the decoder takes, and which dynamic values survive the way to Lua and back. */
module LuaReading {
  import opened Wrappers
  import opened Schema
  import opened LuaValuesSpec
  import opened LuaRoundTrip
  import Utf8

  // ---------------------------------------------------------------- what is taken

  /** What each schema takes; the order in which tables are traversed does not matter. */
  ghost predicate Takes(lua: Runtime, schema: Type, source: Lua)
    decreases schema, 2
  {
    match schema
    case Any => TakesAny(lua, source)
    case Unit => source.LNil?
    case Bool => source.LBoolean?
    case I64 => source.LInteger?
    case U64 => source.LInteger? && 0 <= source.n
    case F64 => source.LInteger? || (source.LNumber? && source.x.Finite?)
    case String => source.LString?
    case Bytes => source.LString?
    case Optional(item) => source.LNil? || Takes(lua, item, source)
    case Array(item, len) =>
      source.LTable? && |Sequence(source.rows, 1)| == len && TakesItems(lua, item, Sequence(source.rows, 1))
    case List(item) => source.LTable? && TakesItems(lua, item, Sequence(source.rows, 1))
    case Map(item) => source.LTable? && forall key :: key in source.rows ==> TakesRow(lua, item, source.rows, key)
    case Table(fields) => source.LTable? && TakesFields(lua, source.rows, fields) && KeysAllowed(source.rows, fields, None)
    case Variant(variants) =>
      source.LTable? &&
      (var kind := ValueText(lua, Get(source.rows, NameKey("kind")));
       kind.Some? && IsKey(kind.value) && TakesPayload(lua, variants, kind.value, source.rows))
    case _ => false
  }

  ghost predicate TakesItems(lua: Runtime, item: Type, items: seq<Lua>)
    decreases item, 3
  {
    forall i :: 0 <= i < |items| ==> Takes(lua, item, items[i])
  }

  ghost predicate TakesRow(lua: Runtime, item: Type, rows: Rows, key: Key)
    decreases item, 3
  {
    KeyText(lua, key).Some? && Takes(lua, item, Get(rows, key))
  }

  ghost predicate TakesFields(lua: Runtime, rows: Rows, fields: Fields)
    decreases fields, 0
  {
    match fields
    case End => true
    case Field(key, schema, rest) => Takes(lua, schema, Get(rows, NameKey(key))) && TakesFields(lua, rows, rest)
  }

  ghost predicate TakesPayload(lua: Runtime, variants: Fields, kind: string, rows: Rows)
    decreases variants, 0
  {
    match variants
    case End => false
    case Field(key, schema, rest) =>
      if key != kind then TakesPayload(lua, rest, kind, rows)
      else if schema.Table? then TakesFields(lua, rows, schema.fields) && KeysAllowed(rows, schema.fields, Some("kind"))
      else schema.Unit? || Takes(lua, schema, Get(rows, NameKey("value")))
  }

  /** Without a schema: a table with a length is a list, any other a map. */
  ghost predicate TakesAny(lua: Runtime, source: Lua)
    decreases source, 2
  {
    match source
    case LNumber(x) => x.Finite?
    case LTable(rows) =>
      if lua.rawLen(rows) > 0 then forall i :: 0 <= i < |Sequence(rows, 1)| ==> TakesAny(lua, Sequence(rows, 1)[i])
      else forall key :: key in rows ==> KeyText(lua, key).Some? && TakesAny(lua, rows[key])
    case _ => source.LNil? || source.LBoolean? || source.LInteger? || source.LString?
  }

  /** The decoder takes exactly these Lua values. */
  lemma {:induction false} TakenIff(lua: Runtime, schema: Type, source: Lua)
    requires Enumerates(lua)
    ensures Decode(lua, schema, source).Some? <==> Takes(lua, schema, source)
    decreases schema, 2
  {
    match schema
    case Any => AnyTakenIff(lua, source);
    case Optional(item) => TakenIff(lua, item, source);
    case Array(item, _) =>
      if source.LTable? {
        ItemsTakenIff(lua, item, Sequence(source.rows, 1));
      }
    case List(item) =>
      if source.LTable? {
        ItemsTakenIff(lua, item, Sequence(source.rows, 1));
      }
    case Map(item) =>
      if source.LTable? {
        MapTakenIff(lua, item, source.rows);
      }
    case Table(fields) =>
      if source.LTable? {
        FieldsTakenIff(lua, source.rows, fields);
      }
    case Variant(variants) =>
      if source.LTable? && ValueText(lua, Get(source.rows, NameKey("kind"))).Some? {
        PayloadTakenIff(lua, variants, ValueText(lua, Get(source.rows, NameKey("kind"))).value, source.rows);
      }
    case _ =>
  }

  lemma {:induction false} ItemsTakenIff(lua: Runtime, item: Type, items: seq<Lua>)
    requires Enumerates(lua)
    ensures DecodeItems(lua, item, items).Some? <==> TakesItems(lua, item, items)
    ensures DecodeItems(lua, item, items).Some? ==> |DecodeItems(lua, item, items).value| == |items|
    decreases item, 3, |items|
  {
    if items != [] {
      TakenIff(lua, item, items[0]);
      ItemsTakenIff(lua, item, items[1..]);
      FirstItemTaken(lua, item, items);
    }
  }

  lemma {:induction false} FirstItemTaken(lua: Runtime, item: Type, items: seq<Lua>)
    requires items != []
    ensures TakesItems(lua, item, items) <==> Takes(lua, item, items[0]) && TakesItems(lua, item, items[1..])
  {
    assert forall i :: 0 < i < |items| ==> items[i] == items[1..][i - 1];
  }

  ghost predicate TakesKeys(lua: Runtime, item: Type, rows: Rows, keys: seq<Key>)
    decreases item, 4
  {
    forall i :: 0 <= i < |keys| ==> TakesRow(lua, item, rows, keys[i])
  }

  lemma {:induction false} MapTakenIff(lua: Runtime, item: Type, rows: Rows)
    requires Enumerates(lua)
    ensures DecodeEntries(lua, item, rows, lua.order(rows)).Some? <==>
            forall key :: key in rows ==> TakesRow(lua, item, rows, key)
    decreases item, 4
  {
    var keys := lua.order(rows);
    assert EnumeratesRows(lua, rows);
    EntriesTakenIff(lua, item, rows, keys);
    if TakesKeys(lua, item, rows, keys) {
      forall key | key in rows
        ensures TakesRow(lua, item, rows, key)
      {
        assert key in keys;
        var i :| 0 <= i < |keys| && keys[i] == key;
      }
    }
    if forall key :: key in rows ==> TakesRow(lua, item, rows, key) {
      forall i | 0 <= i < |keys|
        ensures TakesRow(lua, item, rows, keys[i])
      {
        assert keys[i] in keys;
      }
    }
  }

  lemma {:induction false} EntriesTakenIff(lua: Runtime, item: Type, rows: Rows, keys: seq<Key>)
    requires Enumerates(lua)
    ensures DecodeEntries(lua, item, rows, keys).Some? <==> TakesKeys(lua, item, rows, keys)
    decreases item, 3, |keys|
  {
    if keys != [] {
      var n := |keys| - 1;
      EntriesTakenIff(lua, item, rows, keys[..n]);
      TakenIff(lua, item, Get(rows, keys[n]));
      LastKeyTaken(lua, item, rows, keys);
    }
  }

  lemma {:induction false} LastKeyTaken(lua: Runtime, item: Type, rows: Rows, keys: seq<Key>)
    requires keys != []
    ensures TakesKeys(lua, item, rows, keys) <==>
            TakesKeys(lua, item, rows, keys[..|keys| - 1]) && TakesRow(lua, item, rows, keys[|keys| - 1])
  {
    assert forall i :: 0 <= i < |keys| - 1 ==> keys[i] == keys[..|keys| - 1][i];
  }

  lemma {:induction false} FieldsTakenIff(lua: Runtime, rows: Rows, fields: Fields)
    requires Enumerates(lua)
    ensures DecodeFields(lua, rows, fields).Some? <==> TakesFields(lua, rows, fields)
    decreases fields, 0
  {
    match fields
    case End =>
    case Field(key, schema, rest) =>
      TakenIff(lua, schema, Get(rows, NameKey(key)));
      FieldsTakenIff(lua, rows, rest);
  }

  lemma {:induction false} PayloadTakenIff(lua: Runtime, variants: Fields, kind: string, rows: Rows)
    requires Enumerates(lua)
    ensures DecodePayload(lua, variants, kind, rows).Some? <==> TakesPayload(lua, variants, kind, rows)
    decreases variants, 0
  {
    match variants
    case End =>
    case Field(key, schema, rest) =>
      if key != kind {
        PayloadTakenIff(lua, rest, kind, rows);
      } else if schema.Table? {
        FieldsTakenIff(lua, rows, schema.fields);
      } else if !schema.Unit? {
        TakenIff(lua, schema, Get(rows, NameKey("value")));
      }
  }

  lemma {:induction false} AnyTakenIff(lua: Runtime, source: Lua)
    requires Enumerates(lua)
    ensures DecodeAny(lua, source).Some? <==> TakesAny(lua, source)
    decreases source, 2
  {
    if source.LTable? {
      if lua.rawLen(source.rows) > 0 {
        AnyItemsTakenIff(lua, source, Sequence(source.rows, 1));
      } else {
        AnyMapTakenIff(lua, source);
      }
    }
  }

  lemma {:induction false} AnyItemsTakenIff(lua: Runtime, table: Lua, items: seq<Lua>)
    requires Enumerates(lua) && table.LTable? && forall i :: 0 <= i < |items| ==> items[i] in table.rows.Values
    ensures DecodeAnyItems(lua, table, items).Some? <==> forall i :: 0 <= i < |items| ==> TakesAny(lua, items[i])
    decreases table, 0, |items|
  {
    if items != [] {
      AnyTakenIff(lua, items[0]);
      AnyItemsTakenIff(lua, table, items[1..]);
      assert forall i :: 0 < i < |items| ==> items[i] == items[1..][i - 1];
      assert forall i :: 0 <= i < |items| - 1 ==> items[1..][i] == items[i + 1];
    }
  }

  ghost predicate TakesAnyRow(lua: Runtime, rows: Rows, key: Key) {
    key in rows && KeyText(lua, key).Some? && TakesAny(lua, rows[key])
  }

  ghost predicate TakesAnyKeys(lua: Runtime, rows: Rows, keys: seq<Key>) {
    forall i :: 0 <= i < |keys| ==> TakesAnyRow(lua, rows, keys[i])
  }

  lemma {:induction false} AnyMapTakenIff(lua: Runtime, table: Lua)
    requires Enumerates(lua) && table.LTable?
    ensures DecodeAnyEntries(lua, table, lua.order(table.rows)).Some? <==>
            forall key :: key in table.rows ==> KeyText(lua, key).Some? && TakesAny(lua, table.rows[key])
    decreases table, 1
  {
    var (rows, keys) := (table.rows, lua.order(table.rows));
    assert EnumeratesRows(lua, rows);
    AnyEntriesTakenIff(lua, table, keys);
    if TakesAnyKeys(lua, rows, keys) {
      forall key | key in rows
        ensures KeyText(lua, key).Some? && TakesAny(lua, rows[key])
      {
        assert key in keys;
        var i :| 0 <= i < |keys| && keys[i] == key;
        assert TakesAnyRow(lua, rows, keys[i]);
      }
    }
    if forall key :: key in rows ==> KeyText(lua, key).Some? && TakesAny(lua, rows[key]) {
      forall i | 0 <= i < |keys|
        ensures TakesAnyRow(lua, rows, keys[i])
      {
        assert keys[i] in keys;
      }
    }
  }

  lemma {:induction false} AnyEntriesTakenIff(lua: Runtime, table: Lua, keys: seq<Key>)
    requires Enumerates(lua) && table.LTable?
    ensures DecodeAnyEntries(lua, table, keys).Some? <==> TakesAnyKeys(lua, table.rows, keys)
    decreases table, 0, |keys|
  {
    if keys != [] {
      var n := |keys| - 1;
      AnyEntriesTakenIff(lua, table, keys[..n]);
      if keys[n] in table.rows {
        AnyTakenIff(lua, table.rows[keys[n]]);
      }
      assert forall i :: 0 <= i < n ==> keys[i] == keys[..n][i];
      assert TakesAnyKeys(lua, table.rows, keys) <==>
             TakesAnyKeys(lua, table.rows, keys[..n]) && TakesAnyRow(lua, table.rows, keys[n]);
    }
  }

  // ---------------------------------------------------------------- dynamic values there and back

  /** The length of a table is zero only if there is nothing at 1, and otherwise a place where something is. */
  ghost predicate MeasuresRows(lua: Runtime, rows: Rows) {
    if lua.rawLen(rows) == 0 then KInteger(1) !in rows else KInteger(lua.rawLen(rows)) in rows
  }

  ghost predicate Measures(lua: Runtime) {
    forall rows: Rows :: MeasuresRows(lua, rows)
  }

  /** Nothing optional, named or referenced, no unsigned number or bytes, no empty list, and no unit inside a container. */
  predicate Survives(value: Value) {
    match value
    case VList(values) => values != [] && forall v :: v in values ==> v != VUnit && Survives(v)
    case VMap(entries) => forall k :: k in entries ==> entries[k] != VUnit && Survives(entries[k])
    case _ => value.VUnit? || value.VBool? || value.VI64? || value.VF64? || value.VString?
  }

  /** What the decoder returns without a schema is never of another kind. */
  lemma {:induction false} AnyIsOfKind(lua: Runtime, source: Lua)
    requires DecodeAny(lua, source).Some?
    ensures var value := DecodeAny(lua, source).value;
            value.VUnit? || value.VBool? || value.VI64? || value.VF64? || value.VString? || value.VList? || value.VMap?
    ensures DecodeAny(lua, source).value.VList? ==> source.LTable? && lua.rawLen(source.rows) > 0
    ensures DecodeAny(lua, source).value.VMap? ==> source.LTable? && lua.rawLen(source.rows) == 0
  {
  }

  lemma {:induction false} AnyItemsAreItems(lua: Runtime, table: Lua, items: seq<Lua>)
    requires table.LTable? && forall i :: 0 <= i < |items| ==> items[i] in table.rows.Values
    ensures DecodeAnyItems(lua, table, items) == DecodeItems(lua, Any, items)
    decreases |items|
  {
    if items != [] {
      AnyItemsAreItems(lua, table, items[1..]);
    }
  }

  lemma {:induction false} AnyEntriesAreEntries(lua: Runtime, table: Lua, keys: seq<Key>)
    requires table.LTable? && forall i :: 0 <= i < |keys| ==> keys[i] in table.rows
    ensures DecodeAnyEntries(lua, table, keys) == DecodeEntries(lua, Any, table.rows, keys)
    decreases |keys|
  {
    if keys != [] {
      AnyEntriesAreEntries(lua, table, keys[..|keys| - 1]);
    }
  }

  /** Without a schema a table with a length reads as a list of dynamic values. */
  lemma {:induction false} AnyList(lua: Runtime, rows: Rows, values: seq<Value>)
    requires lua.rawLen(rows) > 0
    ensures DecodeAny(lua, LTable(rows)) == Some(VList(values)) <==>
            DecodeItems(lua, Any, Sequence(rows, 1)) == Some(values)
  {
    AnyItemsAreItems(lua, LTable(rows), Sequence(rows, 1));
  }

  /** And a table without one as a map of them. */
  lemma {:induction false} AnyMap(lua: Runtime, rows: Rows, entries: map<string, Value>)
    requires Enumerates(lua) && lua.rawLen(rows) == 0
    ensures DecodeAny(lua, LTable(rows)) == Some(VMap(entries)) <==>
            DecodeEntries(lua, Any, rows, lua.order(rows)) == Some(entries)
  {
    assert EnumeratesRows(lua, rows);
    assert forall i :: 0 <= i < |lua.order(rows)| ==> lua.order(rows)[i] in lua.order(rows);
    AnyEntriesAreEntries(lua, LTable(rows), lua.order(rows));
  }

  lemma {:induction false} ProjectedItems(lua: Runtime, list: Value, values: seq<Value>)
    requires list.VList? && forall v :: v in values ==> v in list.values
    requires ProjectItems(lua, list, values).Some?
    ensures var items := ProjectItems(lua, list, values).value;
            |items| == |values| && forall i :: 0 <= i < |values| ==> Project(lua, values[i]) == Some(items[i])
    decreases |values|
  {
    if values != [] {
      ProjectedItems(lua, list, values[1..]);
      var (items, rest) := (ProjectItems(lua, list, values).value, ProjectItems(lua, list, values[1..]).value);
      assert values[0] in list.values;
      forall i | 0 < i < |values|
        ensures Project(lua, values[i]) == Some(items[i])
      {
        assert values[i] == values[1..][i - 1] && items[i] == rest[i - 1];
      }
    }
  }

  ghost predicate AllProject(lua: Runtime, entries: map<string, Value>) {
    forall k :: k in entries ==> Project(lua, entries[k]).Some?
  }

  ghost function Projections(lua: Runtime, entries: map<string, Value>): (r: map<string, Lua>)
    requires AllProject(lua, entries)
    ensures r.Keys == entries.Keys && forall k :: k in entries ==> Some(r[k]) == Project(lua, entries[k])
  {
    map k | k in entries :: Project(lua, entries[k]).value
  }

  lemma {:induction false} ProjectedMap(lua: Runtime, value: Value)
    requires value.VMap? && Project(lua, value).Some?
    ensures AllProject(lua, value.entries)
    ensures Project(lua, value) == Some(LTable(NamedRows(map[], Projections(lua, value.entries))))
  {
    assert ProjectEntries(lua, value, value.entries, map[]).Some?;
    var projected := map k | k in value.entries :: Project(lua, value.entries[k]).value;
    assert projected == Projections(lua, value.entries);
    assert Project(lua, value) == Some(LTable(NamedRows(map[], projected)));
  }

  lemma {:induction false} SequenceAt(rows: Rows, i: nat, j: nat)
    requires j < |Sequence(rows, i)|
    ensures KInteger(i + j) in rows && Sequence(rows, i)[j] == rows[KInteger(i + j)]
    decreases j
  {
    if j > 0 {
      SequenceAt(rows - {KInteger(i)}, i + 1, j - 1);
    }
  }

  lemma {:induction false} DecodedItems(lua: Runtime, item: Type, items: seq<Lua>)
    requires DecodeItems(lua, item, items).Some?
    ensures var values := DecodeItems(lua, item, items).value;
            |values| == |items| && forall i :: 0 <= i < |items| ==> Decode(lua, item, items[i]) == Some(values[i])
    decreases |items|
  {
    if items != [] {
      DecodedItems(lua, item, items[1..]);
      var (values, rest) := (DecodeItems(lua, item, items).value, DecodeItems(lua, item, items[1..]).value);
      forall i | 0 < i < |items|
        ensures Decode(lua, item, items[i]) == Some(values[i])
      {
        assert items[i] == items[1..][i - 1] && values[i] == rest[i - 1];
      }
    }
  }

  /** An entry was read from a row whose key has its name. */
  ghost predicate ComesFrom(lua: Runtime, item: Type, rows: Rows, key: Key, name: string, value: Value) {
    KeyText(lua, key) == Some(name) && Decode(lua, item, Get(rows, key)) == Some(value)
  }

  lemma {:induction false} DecodedEntry(lua: Runtime, item: Type, rows: Rows, keys: seq<Key>, name: string)
    requires DecodeEntries(lua, item, rows, keys).Some? && name in DecodeEntries(lua, item, rows, keys).value
    ensures exists key :: key in keys && ComesFrom(lua, item, rows, key, name, DecodeEntries(lua, item, rows, keys).value[name])
    decreases |keys|
  {
    var last := keys[|keys| - 1];
    var value := DecodeEntries(lua, item, rows, keys).value[name];
    if KeyText(lua, last) == Some(name) {
      assert ComesFrom(lua, item, rows, last, name, value);
    } else {
      DecodedEntry(lua, item, rows, keys[..|keys| - 1], name);
      var key :| key in keys[..|keys| - 1] && ComesFrom(lua, item, rows, key, name, value);
      assert key in keys;
    }
  }

  lemma {:induction false} ItemRowsDecode(lua: Runtime, item: Type, items: seq<Lua>, values: seq<Value>)
    requires |items| == |values|
    requires forall i :: 0 <= i < |items| ==> items[i] != LNil && Decode(lua, item, items[i]) == Some(values[i])
    ensures DecodeItems(lua, item, Sequence(ItemRows(items), 1)) == Some(values)
  {
    SequenceOfItems(items);
    ItemsDecode(lua, item, values, items);
  }

  lemma {:induction false} ItemRowsReturn(lua: Runtime, items: seq<Lua>, values: seq<Value>)
    requires Enumerates(lua) && Measures(lua) && |items| == |values| > 0
    requires forall i :: 0 <= i < |items| ==> items[i] != LNil && Decode(lua, Any, items[i]) == Some(values[i])
    ensures DecodeAny(lua, LTable(ItemRows(items))) == Some(VList(values))
  {
    var rows := ItemRows(items);
    ItemRowsDecode(lua, Any, items, values);
    assert MeasuresRows(lua, rows) && KInteger(1) in rows;
    AnyList(lua, rows, values);
  }

  lemma {:induction false} NamedRowsDecode(
    lua: Runtime, item: Type, projected: map<string, Lua>, entries: map<string, Value>)
    requires Enumerates(lua) && projected.Keys == entries.Keys
    requires forall k :: k in entries ==> projected[k] != LNil && Decode(lua, item, projected[k]) == Some(entries[k])
    ensures var rows := NamedRows(map[], projected);
            DecodeEntries(lua, item, rows, lua.order(rows)) == Some(entries)
  {
    var rows := NamedRows(map[], projected);
    EntriesHold(lua, item, entries, projected);
    assert EnumeratesRows(lua, rows);
    KeysCover(lua, item, entries, rows, lua.order(rows));
    CoveredEntriesDecode(lua, item, entries, rows, lua.order(rows));
  }

  lemma {:induction false} NamedRowsReturn(lua: Runtime, projected: map<string, Lua>, entries: map<string, Value>)
    requires Enumerates(lua) && Measures(lua) && projected.Keys == entries.Keys
    requires forall k :: k in entries ==> projected[k] != LNil && Decode(lua, Any, projected[k]) == Some(entries[k])
    ensures DecodeAny(lua, LTable(NamedRows(map[], projected))) == Some(VMap(entries))
  {
    NamedRowsDecode(lua, Any, projected, entries);
    NoLength(lua, projected);
    AnyMap(lua, NamedRows(map[], projected), entries);
  }

  /** A table of named values has no length. */
  lemma {:induction false} NoLength(lua: Runtime, projected: map<string, Lua>)
    requires Measures(lua)
    ensures lua.rawLen(NamedRows(map[], projected)) == 0
  {
    var rows := NamedRows(map[], projected);
    assert MeasuresRows(lua, rows);
    assert forall key :: key in rows ==> key.KString?;
  }

  lemma {:induction false} ListReturns(lua: Runtime, value: Value)
    requires Enumerates(lua) && Measures(lua) && value.VList? && Survives(value) && Project(lua, value).Some?
    ensures DecodeAny(lua, Project(lua, value).value) == Some(value)
    decreases value, 0
  {
    var items := ProjectItems(lua, value, value.values).value;
    ProjectedItems(lua, value, value.values);
    forall i | 0 <= i < |items|
      ensures items[i] != LNil && Decode(lua, Any, items[i]) == Some(value.values[i])
    {
      assert value.values[i] in value.values;
      Returns(lua, value.values[i]);
    }
    ItemRowsReturn(lua, items, value.values);
  }

  lemma {:induction false} MapReturns(lua: Runtime, value: Value)
    requires Enumerates(lua) && Measures(lua) && value.VMap? && Survives(value) && Project(lua, value).Some?
    ensures DecodeAny(lua, Project(lua, value).value) == Some(value)
    decreases value, 0
  {
    var entries := value.entries;
    ProjectedMap(lua, value);
    var projected := Projections(lua, entries);
    forall k | k in entries
      ensures projected[k] != LNil && Decode(lua, Any, projected[k]) == Some(entries[k])
    {
      Returns(lua, entries[k]);
    }
    NamedRowsReturn(lua, projected, entries);
  }

  lemma {:induction false} Returns(lua: Runtime, value: Value)
    requires Enumerates(lua) && Measures(lua) && Survives(value) && Project(lua, value).Some?
    ensures DecodeAny(lua, Project(lua, value).value) == Some(value)
    ensures Project(lua, value).value == LNil ==> value == VUnit
    decreases value, 1
  {
    match value
    case VString(text) => Utf8.RoundTrip(text);
    case VList(_) => ListReturns(lua, value);
    case VMap(_) => MapReturns(lua, value);
    case _ =>
  }

  lemma {:induction false} ItemRowsReturned(lua: Runtime, items: seq<Lua>, values: seq<Value>)
    requires Enumerates(lua) && Measures(lua) && |items| == |values|
    requires DecodeAny(lua, LTable(ItemRows(items))) == Some(VList(values))
    ensures values != []
    ensures forall i :: 0 <= i < |items| ==> items[i] != LNil && DecodeAny(lua, items[i]) == Some(values[i])
  {
    var rows := ItemRows(items);
    AnyIsOfKind(lua, LTable(rows));
    AnyList(lua, rows, values);
    assert MeasuresRows(lua, rows);
    DecodedItems(lua, Any, Sequence(rows, 1));
    forall i | 0 <= i < |items|
      ensures items[i] != LNil && DecodeAny(lua, items[i]) == Some(values[i])
    {
      SequenceAt(rows, 1, i);
    }
  }

  lemma {:induction false} NamedRowsReturned(lua: Runtime, projected: map<string, Lua>, entries: map<string, Value>, name: string)
    requires Enumerates(lua) && name in entries
    requires DecodeAny(lua, LTable(NamedRows(map[], projected))) == Some(VMap(entries))
    ensures name in projected && projected[name] != LNil && DecodeAny(lua, projected[name]) == Some(entries[name])
  {
    var rows := NamedRows(map[], projected);
    AnyIsOfKind(lua, LTable(rows));
    AnyMap(lua, rows, entries);
    assert EnumeratesRows(lua, rows);
    DecodedEntry(lua, Any, rows, lua.order(rows), name);
    var key :| key in lua.order(rows) && ComesFrom(lua, Any, rows, key, name, entries[name]);
    RowOfName(lua, projected, key, name);
  }

  /** A row of named values that reads as a name holds what has that name, and that is not nil. */
  lemma {:induction false} RowOfName(lua: Runtime, values: map<string, Lua>, key: Key, name: string)
    requires key in NamedRows(map[], values) && KeyText(lua, key) == Some(name)
    ensures name in values && NamedRows(map[], values)[key] == values[name] != LNil
  {
    NamesInjective();
    var found :| found in values && key == NameKey(found);
    Utf8.RoundTrip(found);
  }

  lemma {:induction false} ReturnedListSurvives(lua: Runtime, value: Value)
    requires Enumerates(lua) && Measures(lua) && value.VList? && Project(lua, value).Some?
    requires DecodeAny(lua, Project(lua, value).value) == Some(value)
    ensures Survives(value)
    decreases value, 0
  {
    var (values, items) := (value.values, ProjectItems(lua, value, value.values).value);
    ProjectedItems(lua, value, values);
    ItemRowsReturned(lua, items, values);
    forall i | 0 <= i < |values|
      ensures values[i] != VUnit && Survives(values[i])
    {
      assert values[i] in values;
      ReturnedSurvives(lua, values[i]);
    }
  }

  lemma {:induction false} ReturnedMapSurvives(lua: Runtime, value: Value)
    requires Enumerates(lua) && Measures(lua) && value.VMap? && Project(lua, value).Some?
    requires DecodeAny(lua, Project(lua, value).value) == Some(value)
    ensures Survives(value)
    decreases value, 0
  {
    var entries := value.entries;
    ProjectedMap(lua, value);
    forall k | k in entries
      ensures entries[k] != VUnit && Survives(entries[k])
    {
      NamedRowsReturned(lua, Projections(lua, entries), entries, k);
      ReturnedSurvives(lua, entries[k]);
    }
  }

  lemma {:induction false} ReturnedSurvives(lua: Runtime, value: Value)
    requires Enumerates(lua) && Measures(lua) && Project(lua, value).Some?
    requires DecodeAny(lua, Project(lua, value).value) == Some(value)
    ensures Survives(value)
    decreases value, 1
  {
    AnyIsOfKind(lua, Project(lua, value).value);
    match value
    case VList(_) => ReturnedListSurvives(lua, value);
    case VMap(_) => ReturnedMapSurvives(lua, value);
    case _ =>
  }

  /** A value without a schema is recovered from its projection exactly if it survives. */
  lemma {:induction false} AnyReturnsIff(lua: Runtime, value: Value)
    requires Enumerates(lua) && Measures(lua) && Encode(lua, Any, value).Some?
    ensures Decode(lua, Any, Encode(lua, Any, value).value) == Some(value) <==> Survives(value)
  {
    if Survives(value) {
      Returns(lua, value);
    }
    if DecodeAny(lua, Project(lua, value).value) == Some(value) {
      ReturnedSurvives(lua, value);
    }
  }
}
