/**
 * Schema-directed conversion between Lua values and structural values, in both directions.
 * Lua tables are finite maps that cannot hold nil.
 */
module LuaValuesSpec {
  import opened Wrappers
  import opened Schema
  import opened Text
  import Utf8

  type byte = Utf8.byte
  newtype int64 = x: int | -0x8000_0000_0000_0000 <= x < 0x8000_0000_0000_0000
  newtype uint64 = x: int | 0 <= x < 0x1_0000_0000_0000_0000

  datatype Float = Finite(number: real) | NotFinite

  // ---------------------------------------------------------------- Lua values

  /** A table key; `KOther` stands for booleans, tables, functions and userdata used as keys. */
  datatype Key = KString(bytes: seq<byte>) | KInteger(n: int) | KNumber(x: Float) | KOther(id: nat)

  datatype Lua =
    | LNil
    | LBoolean(flag: bool)
    | LInteger(n: int64)
    | LNumber(x: Float)
    | LString(bytes: seq<byte>)
    | LTable(rows: Rows)
    | LFunction(f: nat)
    | LProxy(callable: Ref)
    | LObject(object_: Ref)

  type Rows = map<Key, Lua>

  /** Assigning nil removes the key. */
  function Set(rows: Rows, key: Key, value: Lua): Rows {
    if value == LNil then rows - {key} else rows[key := value]
  }

  function Get(rows: Rows, key: Key): Lua {
    if key in rows then rows[key] else LNil
  }

  function NameKey(name: string): Key {
    KString(Utf8.Encode(name))
  }

  // ---------------------------------------------------------------- structural values

  /** Local references come from lifted Lua functions; all others arrive from the server. */
  datatype Ref = Local(contract: string, n: nat) | Remote(contract: string, id: string)

  datatype Value =
    | VUnit
    | VBool(flag: bool)
    | VI64(i: int64)
    | VU64(u: uint64)
    | VF64(x: Float)
    | VString(text: string)
    | VBytes(bytes: seq<byte>)
    | VNone
    | VSome(value: Value)
    | VList(values: seq<Value>)
    | VMap(entries: map<string, Value>)
    | VTable(fields: map<string, Value>)
    | VVariant(tag: string, payload: Value)
    | VCallable(callable: Ref)
    | VObject(object_: Ref)

  function Find(fields: Fields, key: string): Option<Type> {
    match fields
    case End => None
    case Field(k, schema, rest) => if k == key then Some(schema) else Find(rest, key)
  }

  /** `Type::parse`: the value conforms to the schema. */
  predicate Parses(schema: Type, value: Value)
    decreases schema, 0
  {
    match schema
    case Any => true
    case Never => false
    case Unit => value.VUnit?
    case Bool => value.VBool?
    case I64 => value.VI64?
    case U64 => value.VU64?
    case F64 => value.VF64?
    case String => value.VString?
    case Bytes => value.VBytes?
    case Optional(item) => value.VNone? || (value.VSome? && Parses(item, value.value))
    case Array(item, len) =>
      value.VList? && |value.values| == len && forall i :: 0 <= i < |value.values| ==> Parses(item, value.values[i])
    case List(item) => value.VList? && forall i :: 0 <= i < |value.values| ==> Parses(item, value.values[i])
    case Map(item) => value.VMap? && forall k :: k in value.entries ==> Parses(item, value.entries[k])
    case Table(fields) => value.VTable? && ParsesFields(fields, value.fields)
    case Variant(variants) =>
      value.VVariant? && ParsesVariant(variants, value.tag, value.payload)
    case Callable(contract, _, _) => value.VCallable? && value.callable.contract == contract
    case Object(contract) => value.VObject? && value.object_.contract == contract
  }

  predicate ParsesFields(fields: Fields, values: map<string, Value>)
    decreases fields, 1
  {
    ParsesEach(fields, values) && forall k :: k in values ==> Find(fields, k).Some?
  }

  predicate ParsesEach(fields: Fields, values: map<string, Value>)
    decreases fields, 0
  {
    match fields
    case End => true
    case Field(key, schema, rest) => key in values && Parses(schema, values[key]) && ParsesEach(rest, values)
  }

  predicate ParsesVariant(variants: Fields, tag: string, payload: Value)
    decreases variants, 0
  {
    match variants
    case End => false
    case Field(key, schema, rest) => if key == tag then Parses(schema, payload) else ParsesVariant(rest, tag, payload)
  }

  /** `Key::parse`: not empty and free of control characters. */
  predicate IsKey(name: string) {
    name != "" && forall i :: 0 <= i < |name| ==> !IsControl(name[i])
  }

  predicate IsControl(c: char) {
    var n := c as int;
    n < 0x20 || 0x7F <= n < 0xA0
  }

  // ---------------------------------------------------------------- what the model takes from the Lua runtime

  /**
   * `order` is the order in which a table is traversed, `rawLen` the length operator on raw tables,
   * `fraction` the text of a number that is not a small integer, `json` the projection of a raw reference,
   * `live` whether projection happens on a live connection.
   */
  datatype Runtime = Runtime(
    order: Rows -> seq<Key>, rawLen: Rows -> nat, fraction: Float -> string, json: Ref -> Lua, live: bool)

  ghost predicate Enumerates(lua: Runtime) {
    forall rows: Rows :: EnumeratesRows(lua, rows)
  }

  ghost predicate EnumeratesRows(lua: Runtime, rows: Rows) {
    && (forall key :: key in lua.order(rows) <==> key in rows)
    && (forall i, j :: 0 <= i < j < |lua.order(rows)| ==> lua.order(rows)[i] != lua.order(rows)[j])
  }

  function IntText(n: int): string {
    if n < 0 then "-" + Decimal(-n) else Decimal(n)
  }

  function NumberText(lua: Runtime, x: Float): string {
    if x.Finite? && x.number.Floor as real == x.number && -1_0000_0000.0 < x.number < 1_0000_0000.0
    then IntText(x.number.Floor)
    else lua.fraction(x)
  }

  /** Conversion of a key to a Rust string: numbers become text, malformed UTF-8 is an error. */
  function KeyText(lua: Runtime, key: Key): Option<string> {
    match key
    case KString(bytes) => Utf8.Strict(bytes)
    case KInteger(n) => Some(IntText(n))
    case KNumber(x) => Some(NumberText(lua, x))
    case KOther(_) => None
  }

  /** The same conversion of a value. */
  function ValueText(lua: Runtime, value: Lua): Option<string> {
    match value
    case LString(bytes) => Utf8.Strict(bytes)
    case LInteger(n) => Some(IntText(n as int))
    case LNumber(x) => Some(NumberText(lua, x))
    case _ => None
  }

  lemma {:induction false} RemoveShrinks(rows: Rows, key: Key)
    requires key in rows
    ensures |rows - {key}| < |rows|
  {
    assert (rows - {key}).Keys == rows.Keys - {key};
    assert |(rows - {key}).Keys| == |rows - {key}|;
  }

  /** The values at i, i + 1, … up to the first nil. */
  function Sequence(rows: Rows, i: nat): (r: seq<Lua>)
    ensures forall j :: 0 <= j < |r| ==> r[j] in rows.Values
    decreases |rows|
  {
    if KInteger(i) in rows then
      var key := KInteger(i);
      RemoveShrinks(rows, key);
      [rows[key]] + Sequence(rows - {key}, i + 1)
    else []
  }

  // ---------------------------------------------------------------- Lua to structural values

  function Decode(lua: Runtime, schema: Type, value: Lua): Option<Value>
    decreases schema, 2
  {
    match schema
    case Any => DecodeAny(lua, value)
    case Never => None
    case Unit => if value.LNil? then Some(VUnit) else None
    case Bool => if value.LBoolean? then Some(VBool(value.flag)) else None
    case I64 => if value.LInteger? then Some(VI64(value.n)) else None
    case U64 => if value.LInteger? && value.n >= 0 then Some(VU64(value.n as uint64)) else None
    case F64 => DecodeFloat(value)
    case String => if value.LString? then Some(VString(Utf8.Lossy(value.bytes))) else None
    case Bytes => if value.LString? then Some(VBytes(value.bytes)) else None
    case Optional(item) =>
      if value.LNil? then Some(VNone)
      else
        var inner := Decode(lua, item, value);
        if inner.None? then None else Some(VSome(inner.value))
    case Array(item, len) =>
      if !value.LTable? then None
      else
        var values := DecodeItems(lua, item, Sequence(value.rows, 1));
        if values.None? || |values.value| != len then None else Some(VList(values.value))
    case List(item) =>
      if !value.LTable? then None
      else
        var values := DecodeItems(lua, item, Sequence(value.rows, 1));
        if values.None? then None else Some(VList(values.value))
    case Map(item) =>
      if !value.LTable? then None
      else
        var entries := DecodeEntries(lua, item, value.rows, lua.order(value.rows));
        if entries.None? then None else Some(VMap(entries.value))
    case Table(fields) =>
      if !value.LTable? then None
      else
        var values := DecodeRecord(lua, value.rows, fields, None);
        if values.None? then None else Some(VTable(values.value))
    case Variant(variants) =>
      if !value.LTable? then None
      else
        var kind := ValueText(lua, Get(value.rows, NameKey("kind")));
        if kind.None? || !IsKey(kind.value) then None
        else
          var payload := DecodePayload(lua, variants, kind.value, value.rows);
          if payload.None? then None else Some(VVariant(kind.value, payload.value))
    case Callable(_, _, _) => None
    case Object(_) => None
  }

  function DecodeFloat(value: Lua): Option<Value> {
    if value.LInteger? then Some(VF64(Finite(value.n as real)))
    else if value.LNumber? && value.x.Finite? then Some(VF64(value.x))
    else None
  }

  function DecodeItems(lua: Runtime, item: Type, items: seq<Lua>): Option<seq<Value>>
    decreases item, 3, |items|
  {
    if items == [] then Some([])
    else
      var first := Decode(lua, item, items[0]);
      if first.None? then None
      else
        var rest := DecodeItems(lua, item, items[1..]);
        if rest.None? then None else Some([first.value] + rest.value)
  }

  /** Entries are inserted in traversal order, so of keys with the same text the last one wins. */
  function DecodeEntries(lua: Runtime, item: Type, rows: Rows, keys: seq<Key>): Option<map<string, Value>>
    decreases item, 3, |keys|
  {
    if keys == [] then Some(map[])
    else
      var earlier := DecodeEntries(lua, item, rows, keys[..|keys| - 1]);
      var last := keys[|keys| - 1];
      var text, value := KeyText(lua, last), Decode(lua, item, Get(rows, last));
      if earlier.None? || text.None? || value.None? then None
      else Some(earlier.value[text.value := value.value])
  }

  function DecodeRecord(lua: Runtime, rows: Rows, fields: Fields, extra: Option<string>): Option<map<string, Value>>
    decreases fields, 1
  {
    var values := DecodeFields(lua, rows, fields);
    if values.None? || !KeysAllowed(rows, fields, extra) then None else values
  }

  function DecodeFields(lua: Runtime, rows: Rows, fields: Fields): Option<map<string, Value>>
    decreases fields, 0
  {
    match fields
    case End => Some(map[])
    case Field(key, schema, rest) =>
      var value := Decode(lua, schema, Get(rows, NameKey(key)));
      if value.None? then None
      else
        var others := DecodeFields(lua, rows, rest);
        if others.None? then None else Some(others.value[key := value.value])
  }

  /** Every key is a string that names a field, or the one extra name that is tolerated. */
  predicate KeysAllowed(rows: Rows, fields: Fields, extra: Option<string>) {
    forall key :: key in rows ==> KeyAllowed(key, fields, extra)
  }

  predicate KeyAllowed(key: Key, fields: Fields, extra: Option<string>) {
    key.KString? && (extra == Some(Utf8.Lossy(key.bytes)) || Find(fields, Utf8.Lossy(key.bytes)).Some?)
  }

  function DecodePayload(lua: Runtime, variants: Fields, kind: string, rows: Rows): Option<Value>
    decreases variants, 0
  {
    match variants
    case End => None
    case Field(key, schema, rest) =>
      if key != kind then DecodePayload(lua, rest, kind, rows)
      else if schema.Table? then
        var values := DecodeRecord(lua, rows, schema.fields, Some("kind"));
        if values.None? then None else Some(VTable(values.value))
      else if schema.Unit? then Some(VUnit)
      else Decode(lua, schema, Get(rows, NameKey("value")))
  }

  function DecodeAny(lua: Runtime, value: Lua): Option<Value>
    decreases value, 1, 0
  {
    match value
    case LNil => Some(VUnit)
    case LBoolean(flag) => Some(VBool(flag))
    case LInteger(n) => Some(VI64(n))
    case LNumber(x) => if x.Finite? then Some(VF64(x)) else None
    case LString(bytes) => Some(VString(Utf8.Lossy(bytes)))
    case LTable(rows) =>
      if lua.rawLen(rows) > 0 then
        var values := DecodeAnyItems(lua, value, Sequence(rows, 1));
        if values.None? then None else Some(VList(values.value))
      else
        var entries := DecodeAnyEntries(lua, value, lua.order(rows));
        if entries.None? then None else Some(VMap(entries.value))
    case _ => None
  }

  function DecodeAnyItems(lua: Runtime, table: Lua, items: seq<Lua>): Option<seq<Value>>
    requires table.LTable? && forall j :: 0 <= j < |items| ==> items[j] in table.rows.Values
    decreases table, 0, |items|
  {
    if items == [] then Some([])
    else
      var first := DecodeAny(lua, items[0]);
      var rest := DecodeAnyItems(lua, table, items[1..]);
      if first.None? || rest.None? then None else Some([first.value] + rest.value)
  }

  function DecodeAnyEntries(lua: Runtime, table: Lua, keys: seq<Key>): Option<map<string, Value>>
    requires table.LTable?
    decreases table, 0, |keys|
  {
    if keys == [] then Some(map[])
    else
      var earlier := DecodeAnyEntries(lua, table, keys[..|keys| - 1]);
      var last := keys[|keys| - 1];
      if earlier.None? || last !in table.rows then None
      else
        var text, value := KeyText(lua, last), DecodeAny(lua, table.rows[last]);
        if text.None? || value.None? then None else Some(earlier.value[text.value := value.value])
  }

  // ---------------------------------------------------------------- the decoder that may lift Lua functions

  /** The next local id and the lifted functions by id, each with the schema it was lifted at. */
  datatype Locals = Locals(next: nat, entries: map<nat, Lifted>)
  datatype Lifted = Lifted(schema: Type, f: nat)

  function Lift(locals: Locals, schema: Type, f: nat): Locals {
    Locals(locals.next + 1, locals.entries[locals.next + 1 := Lifted(schema, f)])
  }

  function Host(lua: Runtime, schema: Type, value: Lua, locals: Locals): (Option<Value>, Locals)
    decreases schema, 2
  {
    match schema
    case Callable(contract, _, _) =>
      if !value.LFunction? then (None, locals)
      else
        var lifted := Lift(locals, schema, value.f);
        (Some(VCallable(Local(contract, lifted.next))), lifted)
    case Optional(item) =>
      if value.LNil? then (Some(VNone), locals)
      else
        var (inner, after) := Host(lua, item, value, locals);
        (if inner.None? then None else Some(VSome(inner.value)), after)
    case Array(item, len) =>
      if !value.LTable? then (None, locals)
      else
        var (values, after) := HostItems(lua, item, Sequence(value.rows, 1), locals);
        (if values.None? || |values.value| != len then None else Some(VList(values.value)), after)
    case List(item) =>
      if !value.LTable? then (None, locals)
      else
        var (values, after) := HostItems(lua, item, Sequence(value.rows, 1), locals);
        (if values.None? then None else Some(VList(values.value)), after)
    case Map(item) =>
      if !value.LTable? then (None, locals)
      else
        var (entries, after) := HostEntries(lua, item, value.rows, lua.order(value.rows), locals);
        (if entries.None? then None else Some(VMap(entries.value)), after)
    case Table(fields) =>
      if !value.LTable? then (None, locals)
      else
        var (values, after) := HostFields(lua, value.rows, fields, locals);
        (if values.None? || !KeysAllowed(value.rows, fields, None) then None else Some(VTable(values.value)), after)
    case Variant(variants) =>
      if !value.LTable? then (None, locals)
      else
        var kind := ValueText(lua, Get(value.rows, NameKey("kind")));
        if kind.None? || !IsKey(kind.value) then (None, locals)
        else
          var (payload, after) := HostPayload(lua, variants, kind.value, value.rows, locals);
          (if payload.None? then None else Some(VVariant(kind.value, payload.value)), after)
    case _ => (Decode(lua, schema, value), locals)
  }

  function HostItems(lua: Runtime, item: Type, items: seq<Lua>, locals: Locals): (Option<seq<Value>>, Locals)
    decreases item, 3, |items|
  {
    if items == [] then (Some([]), locals)
    else
      var (first, next) := Host(lua, item, items[0], locals);
      if first.None? then (None, next)
      else
        var (rest, after) := HostItems(lua, item, items[1..], next);
        (if rest.None? then None else Some([first.value] + rest.value), after)
  }

  function HostEntries(lua: Runtime, item: Type, rows: Rows, keys: seq<Key>, locals: Locals)
    : (Option<map<string, Value>>, Locals)
    decreases item, 3, |keys|
  {
    if keys == [] then (Some(map[]), locals)
    else
      var (earlier, next) := HostEntries(lua, item, rows, keys[..|keys| - 1], locals);
      var last := keys[|keys| - 1];
      var text := KeyText(lua, last);
      if earlier.None? || text.None? then (None, next)
      else
        var (value, after) := Host(lua, item, Get(rows, last), next);
        (if value.None? then None else Some(earlier.value[text.value := value.value]), after)
  }

  function HostFields(lua: Runtime, rows: Rows, fields: Fields, locals: Locals): (Option<map<string, Value>>, Locals)
    decreases fields, 0
  {
    match fields
    case End => (Some(map[]), locals)
    case Field(key, schema, rest) =>
      var (value, next) := Host(lua, schema, Get(rows, NameKey(key)), locals);
      if value.None? then (None, next)
      else
        var (others, after) := HostFields(lua, rows, rest, next);
        (if others.None? then None else Some(others.value[key := value.value]), after)
  }

  /** Unlike the other decoder, this one does not look for keys that are not fields. */
  function HostPayload(lua: Runtime, variants: Fields, kind: string, rows: Rows, locals: Locals)
    : (Option<Value>, Locals)
    decreases variants, 0
  {
    match variants
    case End => (None, locals)
    case Field(key, schema, rest) =>
      if key != kind then HostPayload(lua, rest, kind, rows, locals)
      else if schema.Unit? then (Some(VUnit), locals)
      else if schema.Table? then
        var (values, after) := HostFields(lua, rows, schema.fields, locals);
        (if values.None? then None else Some(VTable(values.value)), after)
      else Host(lua, schema, Get(rows, NameKey("value")), locals)
  }

  // ---------------------------------------------------------------- structural values to Lua

  const MAX_INTEGER: int := 0x7FFF_FFFF_FFFF_FFFF

  /** Projection without a schema. */
  ghost function Project(lua: Runtime, value: Value): Option<Lua>
    decreases value, 1, 0
  {
    match value
    case VUnit => Some(LNil)
    case VBool(flag) => Some(LBoolean(flag))
    case VI64(i) => Some(LInteger(i))
    case VU64(u) => if u as int <= MAX_INTEGER then Some(LInteger(u as int64)) else None
    case VF64(x) => if x.Finite? then Some(LNumber(x)) else None
    case VString(text) => Some(LString(Utf8.Encode(text)))
    case VBytes(bytes) => Some(LString(bytes))
    case VNone => Some(LNil)
    case VSome(inner) => Project(lua, inner)
    case VList(values) =>
      var items := ProjectItems(lua, value, values);
      if items.None? then None else Some(LTable(ItemRows(items.value)))
    case VMap(entries) => ProjectEntries(lua, value, entries, map[])
    case VTable(fields) => ProjectEntries(lua, value, fields, map[])
    case VVariant(tag, payload) =>
      var start: Rows := map[NameKey("kind") := LString(Utf8.Encode(tag))];
      if payload.VUnit? then Some(LTable(start))
      else if payload.VTable? then ProjectEntries(lua, payload, payload.fields, start)
      else
        var inner := Project(lua, payload);
        if inner.None? then None else Some(LTable(Set(start, NameKey("value"), inner.value)))
    case VCallable(callable) => Some(lua.json(callable))
    case VObject(object_) => Some(lua.json(object_))
  }

  ghost function ProjectItems(lua: Runtime, list: Value, values: seq<Value>): Option<seq<Lua>>
    requires list.VList? && forall v :: v in values ==> v in list.values
    decreases list, 0, |values|
  {
    if values == [] then Some([])
    else
      assert values[0] in list.values;
      var first, rest := Project(lua, values[0]), ProjectItems(lua, list, values[1..]);
      if first.None? || rest.None? then None else Some([first.value] + rest.value)
  }

  /** The entries' rows on top of the given ones. */
  ghost function ProjectEntries(lua: Runtime, owner: Value, entries: map<string, Value>, start: Rows): Option<Lua>
    requires owner == VMap(entries) || owner == VTable(entries)
    decreases owner, 0, 0
  {
    if exists k :: k in entries && Project(lua, entries[k]).None? then None
    else
      Some(LTable(NamedRows(start, map k | k in entries :: Project(lua, entries[k]).value)))
  }

  /** `start` with every named value assigned; a nil removes the key. */
  ghost function NamedRows(start: Rows, values: map<string, Lua>): Rows {
    NamesInjective();
    var named := map name | name in values :: NameKey(name) := values[name];
    map key | key in start.Keys + named.Keys && (key in named ==> named[key] != LNil)
      :: if key in named then named[key] else start[key]
  }

  lemma {:induction false} NamesInjective()
    ensures forall a: string, b: string :: NameKey(a) == NameKey(b) ==> a == b
  {
    forall a: string, b: string | NameKey(a) == NameKey(b)
      ensures a == b
    {
      Utf8.EncodeInjective(a, b);
    }
  }

  /** Items at 1, 2, …; assigning a nil leaves a hole. */
  function ItemRows(items: seq<Lua>): Rows {
    map i: int | 1 <= i <= |items| && items[i - 1] != LNil :: KInteger(i) := items[i - 1]
  }

  /** Projection by schema, after checking that the value conforms. */
  ghost function Encode(lua: Runtime, schema: Type, value: Value): Option<Lua>
    decreases schema, 2
  {
    if !Parses(schema, value) then None
    else
      match schema
      case Callable(_, _, _) => if lua.live then Some(LProxy(value.callable)) else None
      case Object(_) => Some(LObject(value.object_))
      case Optional(item) => if value.VNone? then Some(LNil) else Encode(lua, item, value.value)
      case Array(item, _) => EncodeList(lua, item, value.values)
      case List(item) => EncodeList(lua, item, value.values)
      case Map(item) => EncodeEntries(lua, item, value.entries)
      case Table(fields) => EncodeFields(lua, fields, value.fields, map[])
      case Variant(variants) => EncodePayload(lua, variants, value.tag, value.payload)
      case _ => Project(lua, value)
  }

  ghost function EncodeList(lua: Runtime, item: Type, values: seq<Value>): Option<Lua>
    decreases item, 5
  {
    if ItemsEncode(lua, item, values) then Some(LTable(ItemRows(EncodedItems(lua, item, values)))) else None
  }

  ghost predicate ItemsEncode(lua: Runtime, item: Type, values: seq<Value>)
    decreases item, 3
  {
    forall i :: 0 <= i < |values| ==> Encode(lua, item, values[i]).Some?
  }

  ghost function EncodedItems(lua: Runtime, item: Type, values: seq<Value>): (r: seq<Lua>)
    requires ItemsEncode(lua, item, values)
    ensures |r| == |values| && forall i :: 0 <= i < |values| ==> Some(r[i]) == Encode(lua, item, values[i])
    decreases item, 4
  {
    seq(|values|, i requires 0 <= i < |values| => Encode(lua, item, values[i]).value)
  }

  ghost function EncodeEntries(lua: Runtime, item: Type, entries: map<string, Value>): Option<Lua>
    decreases item, 5
  {
    if EntriesEncode(lua, item, entries) then Some(LTable(NamedRows(map[], EncodedEntries(lua, item, entries))))
    else None
  }

  ghost predicate EntriesEncode(lua: Runtime, item: Type, entries: map<string, Value>)
    decreases item, 3
  {
    forall k :: k in entries ==> Encode(lua, item, entries[k]).Some?
  }

  ghost function EncodedEntries(lua: Runtime, item: Type, entries: map<string, Value>): (r: map<string, Lua>)
    requires EntriesEncode(lua, item, entries)
    ensures r.Keys == entries.Keys && forall k :: k in entries ==> Some(r[k]) == Encode(lua, item, entries[k])
    decreases item, 4
  {
    map k | k in entries :: Encode(lua, item, entries[k]).value
  }

  /** The fields assigned one after the other on top of the given rows. */
  ghost function EncodeFields(lua: Runtime, fields: Fields, values: map<string, Value>, rows: Rows): Option<Lua>
    decreases fields, 0
  {
    match fields
    case End => Some(LTable(rows))
    case Field(key, schema, rest) =>
      if key !in values then None
      else
        var value := Encode(lua, schema, values[key]);
        if value.None? then None else EncodeFields(lua, rest, values, Set(rows, NameKey(key), value.value))
  }

  ghost function EncodePayload(lua: Runtime, variants: Fields, tag: string, payload: Value): Option<Lua>
    decreases variants, 0
  {
    var start: Rows := map[NameKey("kind") := LString(Utf8.Encode(tag))];
    match variants
    case End => None
    case Field(key, schema, rest) =>
      if key != tag then EncodePayload(lua, rest, tag, payload)
      else if schema.Unit? && payload.VUnit? then Some(LTable(start))
      else if schema.Table? && payload.VTable? then EncodeFields(lua, schema.fields, payload.fields, start)
      else
        var inner := Encode(lua, schema, payload);
        if inner.None? then None else Some(LTable(Set(start, NameKey("value"), inner.value)))
  }
}
