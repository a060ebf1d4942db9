/** Every schema outside the exact ones has a value the round trip does not recover. */
module LuaInexact {
  import opened Wrappers
  import opened Schema
  import opened LuaValuesSpec
  import opened LuaDecoders
  import opened LuaRoundTrip
  import opened Text
  import Utf8

  // ---------------------------------------------------------------- a value of every inhabited schema

  function Sample(schema: Type): Value
    requires Plain(schema) && Inhabited(schema)
  {
    match schema
    case Unit => VUnit
    case Bool => VBool(false)
    case I64 => VI64(0)
    case U64 => VU64(0)
    case F64 => VF64(Finite(0.0))
    case String => VString("")
    case Bytes => VBytes([])
    case Optional(_) => VNone
    case Array(item, len) => if len == 0 then VList([]) else VList(Repeat(Sample(item), len))
    case List(_) => VList([])
    case Map(_) => VMap(map[])
    case Table(fields) => VTable(SampleFields(fields))
    case Variant(variants) => SamplePayload(variants)
  }

  function Repeat<T>(value: T, len: nat): (r: seq<T>)
    ensures |r| == len && forall i :: 0 <= i < len ==> r[i] == value
  {
    seq(len, _ => value)
  }

  function SampleFields(fields: Fields): map<string, Value>
    requires PlainFields(fields) && AllInhabited(fields)
  {
    match fields
    case End => map[]
    case Field(key, schema, rest) => SampleFields(rest)[key := Sample(schema)]
  }

  function SamplePayload(variants: Fields): Value
    requires PlainFields(variants) && SomeInhabited(variants)
  {
    match variants
    case End => VNone
    case Field(key, schema, rest) =>
      if Inhabited(schema) then VVariant(key, Sample(schema)) else SamplePayload(rest)
  }

  /** Every field has a value that projects. */
  ghost predicate Ready(lua: Runtime, fields: Fields, values: map<string, Value>) {
    match fields
    case End => true
    case Field(key, schema, rest) =>
      key in values && Encode(lua, schema, values[key]).Some? && Ready(lua, rest, values)
  }

  lemma {:induction false} ReadyWithout(lua: Runtime, fields: Fields, values: map<string, Value>, key: string, value: Value)
    requires Ready(lua, fields, values) && Find(fields, key).None?
    ensures Ready(lua, fields, values[key := value])
    decreases fields
  {
    match fields
    case End =>
    case Field(_, _, rest) => ReadyWithout(lua, rest, values, key, value);
  }

  lemma {:induction false} ReadyWith(lua: Runtime, fields: Fields, values: map<string, Value>, key: string, value: Value)
    requires WellFormedFields(fields) && Ready(lua, fields, values) && Find(fields, key).Some?
    requires Encode(lua, Find(fields, key).value, value).Some?
    ensures Ready(lua, fields, values[key := value])
    decreases fields
  {
    match fields
    case End =>
    case Field(k, _, rest) =>
      if k == key {
        ReadyWithout(lua, rest, values, key, value);
      } else {
        ReadyWith(lua, rest, values, key, value);
      }
  }

  lemma {:induction false} ReadyParses(lua: Runtime, fields: Fields, values: map<string, Value>)
    requires Ready(lua, fields, values)
    ensures ParsesEach(fields, values)
    decreases fields
  {
    match fields
    case End =>
    case Field(_, _, rest) => ReadyParses(lua, rest, values);
  }

  lemma {:induction false} ReadyEncodes(lua: Runtime, fields: Fields, values: map<string, Value>, start: Rows)
    requires Ready(lua, fields, values)
    ensures EncodeFields(lua, fields, values, start).Some?
    decreases fields
  {
    match fields
    case End =>
    case Field(key, schema, rest) =>
      ReadyEncodes(lua, rest, values, Set(start, NameKey(key), Encode(lua, schema, values[key]).value));
  }

  /** Values for exactly the fields conform and project. */
  lemma {:induction false} RecordProjects(lua: Runtime, fields: Fields, values: map<string, Value>, start: Rows)
    requires Ready(lua, fields, values) && values.Keys == Names(fields)
    ensures ParsesFields(fields, values) && EncodeFields(lua, fields, values, start).Some?
  {
    ReadyParses(lua, fields, values);
    ReadyEncodes(lua, fields, values, start);
    forall key | key in values
      ensures Find(fields, key).Some?
    {
      FindIsNamed(fields, key);
    }
  }

  lemma {:induction false} EmptyProjects(lua: Runtime, item: Type)
    ensures EncodeList(lua, item, []).Some? && EncodeEntries(lua, item, map[]).Some?
  {
    assert ItemsEncode(lua, item, []) && EntriesEncode(lua, item, map[]);
  }

  lemma {:induction false} RepeatParses(item: Type, value: Value, len: nat)
    requires Parses(item, value)
    ensures Parses(List(item), VList(Repeat(value, len))) && Parses(Array(item, len), VList(Repeat(value, len)))
  {
  }

  lemma {:induction false} SampleProjects(lua: Runtime, schema: Type)
    requires Plain(schema) && WellFormed(schema) && Inhabited(schema)
    ensures Encode(lua, schema, Sample(schema)).Some?
    decreases schema, 1
  {
    match schema
    case Array(item, len) =>
      if len > 0 {
        SampleProjects(lua, item);
        RepeatProjects(lua, item, Sample(item), len);
        RepeatParses(item, Sample(item), len);
      } else {
        EmptyProjects(lua, item);
      }
    case List(item) => EmptyProjects(lua, item);
    case Map(item) => EmptyProjects(lua, item);
    case Table(fields) =>
      SampleReady(lua, fields);
      RecordProjects(lua, fields, SampleFields(fields), map[]);
    case Variant(variants) => SamplePayloadProjects(lua, variants);
    case _ =>
  }

  lemma {:induction false} SampleReady(lua: Runtime, fields: Fields)
    requires PlainFields(fields) && WellFormedFields(fields) && AllInhabited(fields)
    ensures Ready(lua, fields, SampleFields(fields)) && SampleFields(fields).Keys == Names(fields)
    decreases fields, 0
  {
    match fields
    case End =>
    case Field(key, schema, rest) =>
      SampleProjects(lua, schema);
      SampleReady(lua, rest);
      ReadyWithout(lua, rest, SampleFields(rest), key, Sample(schema));
  }

  /** The payload conforms at its tag and projects. */
  ghost predicate PayloadProjects(lua: Runtime, variants: Fields, tag: string, payload: Value) {
    ParsesVariant(variants, tag, payload) && EncodePayload(lua, variants, tag, payload).Some?
  }

  lemma {:induction false} PayloadAt(lua: Runtime, variants: Fields, tag: string, payload: Value)
    requires WellFormedFields(variants) && Find(variants, tag).Some?
    requires Encode(lua, Find(variants, tag).value, payload).Some?
    ensures PayloadProjects(lua, variants, tag, payload)
    decreases variants
  {
    match variants
    case End =>
    case Field(key, schema, rest) =>
      if key != tag {
        PayloadAt(lua, rest, tag, payload);
      } else if schema.Table? {
        assert ParsesFields(schema.fields, payload.fields);
        EncodedIsReady(lua, schema.fields, payload.fields, map[]);
        ReadyEncodes(lua, schema.fields, payload.fields, TagRows(tag));
      }
  }

  lemma {:induction false} EncodedIsReady(lua: Runtime, fields: Fields, values: map<string, Value>, start: Rows)
    requires EncodeFields(lua, fields, values, start).Some?
    ensures Ready(lua, fields, values)
    decreases fields
  {
    match fields
    case End =>
    case Field(key, schema, rest) =>
      EncodedIsReady(lua, rest, values, Set(start, NameKey(key), Encode(lua, schema, values[key]).value));
  }

  lemma {:induction false} SamplePayloadProjects(lua: Runtime, variants: Fields)
    requires PlainFields(variants) && WellFormedFields(variants) && SomeInhabited(variants)
    ensures var sample := SamplePayload(variants);
            sample.VVariant? && Find(variants, sample.tag).Some? && PayloadProjects(lua, variants, sample.tag, sample.payload)
    decreases variants, 0
  {
    match variants
    case End =>
    case Field(key, schema, rest) =>
      if Inhabited(schema) {
        SampleProjects(lua, schema);
        PayloadAt(lua, variants, key, Sample(schema));
      } else {
        SamplePayloadProjects(lua, rest);
      }
  }

  // ---------------------------------------------------------------- values that are not recovered

  /** The value projects to Lua and is not what the decoder makes of its projection. */
  ghost predicate Breaks(lua: Runtime, schema: Type, value: Value) {
    Encode(lua, schema, value).Some? && Decode(lua, schema, Encode(lua, schema, value).value) != Some(value)
  }

  /** The value projects, but inside a table or an option it is lost: its projection is nil or decodes otherwise. */
  ghost predicate Lost(lua: Runtime, item: Type, value: Value) {
    && Encode(lua, item, value).Some?
    && (Encode(lua, item, value) == Some(LNil) || Decode(lua, item, Encode(lua, item, value).value) != Some(value))
  }

  function NilSample(schema: Type): Value
    requires Nilable(schema)
  {
    if schema.Unit? then VUnit else VNone
  }

  lemma {:induction false} NilIsLost(lua: Runtime, schema: Type)
    requires Nilable(schema)
    ensures Lost(lua, schema, NilSample(schema))
  {
  }

  lemma {:induction false} OptionBreaks(lua: Runtime, item: Type, value: Value)
    requires Lost(lua, item, value)
    ensures Breaks(lua, Optional(item), VSome(value))
  {
  }

  // ---------------------------------------------------------------- lists

  lemma {:induction false} RepeatProjects(lua: Runtime, item: Type, value: Value, len: nat)
    requires Encode(lua, item, value).Some?
    ensures EncodeList(lua, item, Repeat(value, len))
         == Some(LTable(ItemRows(Repeat(Encode(lua, item, value).value, len))))
  {
    assert ItemsEncode(lua, item, Repeat(value, len));
    assert EncodedItems(lua, item, Repeat(value, len)) == Repeat(Encode(lua, item, value).value, len);
  }

  lemma {:induction false} FirstItem(lua: Runtime, item: Type, items: seq<Lua>)
    requires items != [] && DecodeItems(lua, item, items).Some?
    ensures var out := DecodeItems(lua, item, items).value;
            out != [] && Decode(lua, item, items[0]) == Some(out[0])
  {
  }

  /** What a list of one repeated Lua value reads as is not the list of a value it does not decode to. */
  lemma {:induction false} RepeatedRowsSpoil(lua: Runtime, item: Type, out: Lua, value: Value, len: nat)
    requires len > 0 && (out == LNil || Decode(lua, item, out) != Some(value))
    ensures DecodeItems(lua, item, Sequence(ItemRows(Repeat(out, len)), 1)) != Some(Repeat(value, len))
    ensures out == LNil ==> DecodeItems(lua, item, Sequence(ItemRows(Repeat(out, len)), 1)) == Some([])
  {
    var items := Repeat(out, len);
    if out == LNil {
      assert ItemRows(items) == map[];
      SequenceOfRows(map[], 1, []);
    } else {
      SequenceOfItems(items);
      if DecodeItems(lua, item, items).Some? {
        FirstItem(lua, item, items);
      }
    }
  }

  lemma {:induction false} ProjectedParses(lua: Runtime, schema: Type, value: Value)
    requires Encode(lua, schema, value).Some?
    ensures Parses(schema, value)
  {
  }

  lemma {:induction false} ListBreaks(lua: Runtime, item: Type, values: seq<Value>, rows: Rows)
    requires Parses(List(item), VList(values)) && EncodeList(lua, item, values) == Some(LTable(rows))
    requires DecodeItems(lua, item, Sequence(rows, 1)) != Some(values)
    ensures Breaks(lua, List(item), VList(values))
  {
  }

  lemma {:induction false} ArrayBreaks(lua: Runtime, item: Type, values: seq<Value>, rows: Rows)
    requires Parses(Array(item, |values|), VList(values)) && EncodeList(lua, item, values) == Some(LTable(rows))
    requires DecodeItems(lua, item, Sequence(rows, 1)) != Some(values)
    ensures Breaks(lua, Array(item, |values|), VList(values))
  {
  }

  lemma {:induction false} RepeatBreaks(lua: Runtime, item: Type, value: Value, len: nat)
    requires Lost(lua, item, value) && len > 0
    ensures Breaks(lua, List(item), VList(Repeat(value, len))) && Breaks(lua, Array(item, len), VList(Repeat(value, len)))
  {
    var out := Encode(lua, item, value).value;
    ProjectedParses(lua, item, value);
    RepeatParses(item, value, len);
    RepeatProjects(lua, item, value, len);
    RepeatedRowsSpoil(lua, item, out, value, len);
    ListBreaks(lua, item, Repeat(value, len), ItemRows(Repeat(out, len)));
    ArrayBreaks(lua, item, Repeat(value, len), ItemRows(Repeat(out, len)));
  }

  // ---------------------------------------------------------------- maps

  function At<T>(s: seq<T>, i: nat): (r: Option<T>)
    ensures r.Some? ==> r.value in s
  {
    if i < |s| then Some(s[i]) else None
  }

  lemma {:induction false} DistinctAndSame<T>(s: seq<T>, x: T)
    requires forall i :: 0 <= i < |s| ==> s[i] == x
    requires forall i, j :: 0 <= i < j < |s| ==> s[i] != s[j]
    ensures |s| <= 1
  {
    var first, second := At(s, 0), At(s, 1);
    assert second.Some? ==> first != second;
  }

  lemma {:induction false} SingletonOrder(lua: Runtime, rows: Rows, key: Key)
    requires EnumeratesRows(lua, rows) && rows.Keys == {key}
    ensures lua.order(rows) == [key]
  {
    var keys := lua.order(rows);
    assert key in keys;
    forall i | 0 <= i < |keys|
      ensures keys[i] == key
    {
      assert keys[i] in keys;
    }
    DistinctAndSame(keys, key);
  }

  lemma {:induction false} EmptyOrder(lua: Runtime)
    requires EnumeratesRows(lua, map[])
    ensures lua.order(map[]) == []
  {
    var keys := lua.order(map[]);
    var first := At(keys, 0);
    assert first == None;
  }

  lemma {:induction false} SingleNamed(name: string, out: Lua)
    ensures NamedRows(map[], map[name := out]) == if out == LNil then map[] else map[NameKey(name) := out]
  {
    NamesInjective();
  }

  lemma {:induction false} SingleEntryDecodes(lua: Runtime, item: Type, name: string, out: Lua)
    ensures DecodeEntries(lua, item, map[NameKey(name) := out], [NameKey(name)]) ==
              match Decode(lua, item, out)
              case None => None
              case Some(value) => Some(map[name := value])
  {
    Utf8.RoundTrip(name);
    var rows: Rows := map[NameKey(name) := out];
    assert [NameKey(name)][..0] == [];
    assert DecodeEntries(lua, item, rows, []) == Some(map[]);
  }

  lemma {:induction false} SingleEntryProjects(lua: Runtime, item: Type, name: string, value: Value)
    requires Encode(lua, item, value).Some?
    ensures EntriesEncode(lua, item, map[name := value])
    ensures EncodedEntries(lua, item, map[name := value]) == map[name := Encode(lua, item, value).value]
  {
    assert map[name := value][name] == value;
    assert EntriesEncode(lua, item, map[name := value]);
    var projected := EncodedEntries(lua, item, map[name := value]);
    assert name in projected && projected[name] == Encode(lua, item, value).value;
  }

  /** The table of a single entry, whose value is nil or decodes otherwise, does not read as that entry. */
  lemma {:induction false} SingleRowSpoils(lua: Runtime, item: Type, name: string, out: Lua, value: Value)
    requires Enumerates(lua) && (out == LNil || Decode(lua, item, out) != Some(value))
    ensures var rows := NamedRows(map[], map[name := out]);
            DecodeEntries(lua, item, rows, lua.order(rows)) != Some(map[name := value])
  {
    SingleNamed(name, out);
    var rows := NamedRows(map[], map[name := out]);
    assert EnumeratesRows(lua, rows);
    if out == LNil {
      EmptyOrder(lua);
      assert name in map[name := value];
    } else {
      SingletonOrder(lua, rows, NameKey(name));
      SingleEntryDecodes(lua, item, name, out);
      assert map[name := value][name] == value;
    }
  }

  lemma {:induction false} EntriesBreak(lua: Runtime, item: Type, entries: map<string, Value>, projected: map<string, Lua>)
    requires Parses(Map(item), VMap(entries))
    requires EntriesEncode(lua, item, entries) && EncodedEntries(lua, item, entries) == projected
    requires var rows := NamedRows(map[], projected);
             DecodeEntries(lua, item, rows, lua.order(rows)) != Some(entries)
    ensures Breaks(lua, Map(item), VMap(entries))
  {
    assert EncodeEntries(lua, item, entries) == Some(LTable(NamedRows(map[], projected)));
  }

  lemma {:induction false} MapBreaks(lua: Runtime, item: Type, name: string, value: Value)
    requires Enumerates(lua) && Lost(lua, item, value)
    ensures Breaks(lua, Map(item), VMap(map[name := value]))
  {
    var out := Encode(lua, item, value).value;
    ProjectedParses(lua, item, value);
    assert Parses(Map(item), VMap(map[name := value]));
    SingleEntryProjects(lua, item, name, value);
    SingleRowSpoils(lua, item, name, out, value);
    EntriesBreak(lua, item, map[name := value], map[name := out]);
  }

  // ---------------------------------------------------------------- records

  /** A field whose stored value does not decode to its own value spoils the record. */
  lemma {:induction false} FieldSpoils(lua: Runtime, fields: Fields, key: string, rows: Rows, value: Value)
    requires WellFormedFields(fields) && Find(fields, key).Some? && DecodeFields(lua, rows, fields).Some?
    requires Decode(lua, Find(fields, key).value, Get(rows, NameKey(key))) != Some(value)
    ensures key in DecodeFields(lua, rows, fields).value && DecodeFields(lua, rows, fields).value[key] != value
    decreases fields
  {
    match fields
    case End =>
    case Field(k, _, rest) =>
      if k != key {
        FieldSpoils(lua, rest, key, rows, value);
      }
  }

  lemma {:induction false} NamesPlain(fields: Fields, key: string)
    requires WellFormedFields(fields) && PlainFields(fields) && Find(fields, key).Some?
    ensures WellFormed(Find(fields, key).value) && Plain(Find(fields, key).value)
    ensures AllInhabited(fields) ==> Inhabited(Find(fields, key).value)
    decreases fields
  {
    match fields
    case End =>
    case Field(k, _, rest) =>
      if k != key {
        NamesPlain(rest, key);
      }
  }

  /** Samples of all fields but one, which gets the given value. */
  lemma {:induction false} SampleWith(lua: Runtime, fields: Fields, key: string, value: Value, start: Rows)
    returns (values: map<string, Value>)
    requires WellFormedFields(fields) && PlainFields(fields) && AllInhabited(fields)
    requires Find(fields, key).Some? && Encode(lua, Find(fields, key).value, value).Some?
    ensures key in values && values[key] == value
    ensures ParsesFields(fields, values) && EncodeFields(lua, fields, values, start).Some?
  {
    SampleReady(lua, fields);
    values := SampleFields(fields)[key := value];
    ReadyWith(lua, fields, SampleFields(fields), key, value);
    FindIsNamed(fields, key);
    assert values.Keys == Names(fields);
    RecordProjects(lua, fields, values, start);
  }

  lemma {:induction false} StoredAt(lua: Runtime, fields: Fields, values: map<string, Value>, rows: Rows, key: string)
    requires Stored(lua, fields, values, rows) && Find(fields, key).Some?
    ensures key in values && Encode(lua, Find(fields, key).value, values[key]) == Some(Get(rows, NameKey(key)))
    decreases fields
  {
    match fields
    case End =>
    case Field(k, _, rest) =>
      if k != key {
        StoredAt(lua, rest, values, rows, key);
      }
  }

  /** A record with a value that does not survive does not survive, whatever the table started as. */
  lemma {:induction false} RecordSpoils(
    lua: Runtime, fields: Fields, key: string, values: map<string, Value>, start: Rows, extra: Option<string>)
    requires WellFormedFields(fields) && Find(fields, key).Some? && key in values
    requires EncodeFields(lua, fields, values, start).Some? && Breaks(lua, Find(fields, key).value, values[key])
    ensures var out := EncodeFields(lua, fields, values, start).value;
            out.LTable? && DecodeRecord(lua, out.rows, fields, extra) != Some(values)
  {
    EncodeStores(lua, fields, values, start);
    var rows := EncodeFields(lua, fields, values, start).value.rows;
    StoredAt(lua, fields, values, rows, key);
    if DecodeFields(lua, rows, fields).Some? {
      FieldSpoils(lua, fields, key, rows, values[key]);
    }
  }

  lemma {:induction false} TableBreaks(lua: Runtime, fields: Fields, values: map<string, Value>)
    requires ParsesFields(fields, values) && EncodeFields(lua, fields, values, map[]).Some?
    requires var out := EncodeFields(lua, fields, values, map[]).value;
             out.LTable? && DecodeRecord(lua, out.rows, fields, None) != Some(values)
    ensures Breaks(lua, Table(fields), VTable(values))
  {
  }

  // ---------------------------------------------------------------- variants

  /** A record payload with a field in the tag's place: some value of it hides the tag. */
  lemma {:induction false} HidingSample(lua: Runtime, schema: Type, tag: string) returns (value: Value)
    requires Plain(schema) && WellFormed(schema) && Inhabited(schema) && IsKey(tag)
    ensures Encode(lua, schema, value).Some? && ValueText(lua, Encode(lua, schema, value).value) != Some(tag)
  {
    SampleProjects(lua, schema);
    Utf8.RoundTrip("");
    assert Decimal(0)[0] != Decimal(1)[0];
    value := Sample(schema);
    if schema.I64? && IntText(0) == tag {
      value := VI64(1);
    } else if schema.U64? && IntText(0) == tag {
      value := VU64(1);
    } else if schema.F64? && IntText(0) == tag {
      value := VF64(Finite(1.0));
    } else if schema.Table? {
      EncodeStores(lua, schema.fields, value.fields, map[]);
    } else if schema.Variant? {
      PayloadIsTable(lua, schema.variants, value.tag, value.payload);
    }
  }

  /** The variant's table does not read as the variant when it does not show the tag or spoils the payload. */
  lemma {:induction false} VariantBreaks(lua: Runtime, variants: Fields, tag: string, payload: Value)
    requires PayloadProjects(lua, variants, tag, payload)
    requires EncodePayload(lua, variants, tag, payload).value.LTable?
    requires var rows := EncodePayload(lua, variants, tag, payload).value.rows;
             || ValueText(lua, Get(rows, NameKey("kind"))) != Some(tag)
             || DecodePayload(lua, variants, tag, rows) != Some(payload)
    ensures Breaks(lua, Variant(variants), VVariant(tag, payload))
  {
    assert Parses(Variant(variants), VVariant(tag, payload));
  }

  lemma {:induction false} PayloadProjection(lua: Runtime, variants: Fields, tag: string, payload: Value, rows: Rows)
    requires Find(variants, tag).Some?
    ensures var schema := Find(variants, tag).value;
            EncodePayload(lua, variants, tag, payload) ==
              (if schema.Unit? && payload.VUnit? then Some(LTable(TagRows(tag)))
               else if schema.Table? && payload.VTable? then EncodeFields(lua, schema.fields, payload.fields, TagRows(tag))
               else
                 var inner := Encode(lua, schema, payload);
                 if inner.None? then None else Some(LTable(Set(TagRows(tag), NameKey("value"), inner.value))))
    ensures var schema := Find(variants, tag).value;
            DecodePayload(lua, variants, tag, rows) ==
              (if schema.Table? then
                 var values := DecodeRecord(lua, rows, schema.fields, Some("kind"));
                 if values.None? then None else Some(VTable(values.value))
               else if schema.Unit? then Some(VUnit)
               else Decode(lua, schema, Get(rows, NameKey("value"))))
    decreases variants
  {
    match variants
    case End =>
    case Field(key, _, rest) =>
      if key != tag {
        PayloadProjection(lua, rest, tag, payload, rows);
      }
  }

  lemma {:induction false} OtherPayloadBreaks(lua: Runtime, variants: Fields, tag: string, payload: Value)
    requires WellFormedFields(variants) && Find(variants, tag).Some? && !Find(variants, tag).value.Table?
    requires Breaks(lua, Find(variants, tag).value, payload)
    ensures Breaks(lua, Variant(variants), VVariant(tag, payload))
  {
    var schema := Find(variants, tag).value;
    var inner := Encode(lua, schema, payload).value;
    PayloadAt(lua, variants, tag, payload);
    var rows := Set(TagRows(tag), NameKey("value"), inner);
    SetKeeps(TagRows(tag), "value", inner);
    PayloadProjection(lua, variants, tag, payload, rows);
    VariantBreaks(lua, variants, tag, payload);
  }

  lemma {:induction false} RecordPayloadBreaks(
    lua: Runtime, variants: Fields, tag: string, fields: Fields, values: map<string, Value>)
    requires WellFormedFields(variants) && Find(variants, tag) == Some(Table(fields))
    requires ParsesFields(fields, values) && EncodeFields(lua, fields, values, TagRows(tag)).Some?
    requires var out := EncodeFields(lua, fields, values, TagRows(tag)).value;
             && out.LTable?
             && (|| ValueText(lua, Get(out.rows, NameKey("kind"))) != Some(tag)
                 || DecodeRecord(lua, out.rows, fields, Some("kind")) != Some(values))
    ensures Breaks(lua, Variant(variants), VVariant(tag, VTable(values)))
  {
    EncodedIsReady(lua, fields, values, TagRows(tag));
    ReadyEncodes(lua, fields, values, map[]);
    PayloadAt(lua, variants, tag, VTable(values));
    var out := EncodeFields(lua, fields, values, TagRows(tag)).value;
    PayloadProjection(lua, variants, tag, VTable(values), out.rows);
    VariantBreaks(lua, variants, tag, VTable(values));
  }

  // ---------------------------------------------------------------- the counterexample

  lemma {:induction false} InexactField(fields: Fields) returns (key: string)
    requires WellFormedFields(fields) && !AllExact(fields)
    ensures Find(fields, key).Some? && !Exact(Find(fields, key).value) && Find(fields, key).value < fields
    decreases fields
  {
    match fields
    case Field(k, schema, rest) =>
      if Exact(schema) {
        key := InexactField(rest);
      } else {
        key := k;
      }
  }

  lemma {:induction false} InexactPayload(variants: Fields) returns (tag: string)
    requires WellFormedFields(variants) && !PayloadsExact(variants)
    ensures Find(variants, tag).Some? && IsKey(tag)
    ensures var schema := Find(variants, tag).value; !Exact(schema) || !KindIsFree(schema)
    decreases variants
  {
    match variants
    case Field(key, schema, rest) =>
      if Exact(schema) && KindIsFree(schema) {
        tag := InexactPayload(rest);
      } else {
        tag := key;
      }
  }

  lemma {:induction false} FindIsSmaller(fields: Fields, key: string)
    requires Find(fields, key).Some?
    ensures Find(fields, key).value < fields
    decreases fields
  {
    match fields
    case End =>
    case Field(k, _, rest) =>
      if k != key {
        FindIsSmaller(rest, key);
      }
  }

  lemma {:induction false} LostElement(lua: Runtime, item: Type) returns (value: Value)
    requires WellFormed(item) && Plain(item) && Enumerates(lua) && (!Exact(item) || Nilable(item))
    ensures Lost(lua, item, value)
    decreases item, 2
  {
    if Nilable(item) {
      NilIsLost(lua, item);
      value := NilSample(item);
    } else {
      value := Counterexample(lua, item);
    }
  }

  lemma {:induction false} RecordCounterexample(lua: Runtime, fields: Fields, start: Rows, extra: Option<string>)
    returns (values: map<string, Value>)
    requires WellFormedFields(fields) && PlainFields(fields) && Enumerates(lua)
    requires AllInhabited(fields) && !AllExact(fields)
    ensures ParsesFields(fields, values) && EncodeFields(lua, fields, values, start).Some?
    ensures var out := EncodeFields(lua, fields, values, start).value;
            out.LTable? && DecodeRecord(lua, out.rows, fields, extra) != Some(values)
    decreases fields, 0
  {
    var key := InexactField(fields);
    NamesPlain(fields, key);
    var value := Counterexample(lua, Find(fields, key).value);
    values := SampleWith(lua, fields, key, value, start);
    RecordSpoils(lua, fields, key, values, start, extra);
  }

  lemma {:induction false} HiddenTag(lua: Runtime, fields: Fields, tag: string) returns (values: map<string, Value>)
    requires WellFormedFields(fields) && PlainFields(fields) && AllInhabited(fields)
    requires Find(fields, "kind").Some? && IsKey(tag)
    ensures ParsesFields(fields, values) && EncodeFields(lua, fields, values, TagRows(tag)).Some?
    ensures var out := EncodeFields(lua, fields, values, TagRows(tag)).value;
            out.LTable? && ValueText(lua, Get(out.rows, NameKey("kind"))) != Some(tag)
  {
    NamesPlain(fields, "kind");
    var value := HidingSample(lua, Find(fields, "kind").value, tag);
    values := SampleWith(lua, fields, "kind", value, TagRows(tag));
    EncodeStores(lua, fields, values, TagRows(tag));
    StoredAt(lua, fields, values, EncodeFields(lua, fields, values, TagRows(tag)).value.rows, "kind");
  }

  lemma {:induction false} VariantCounterexample(lua: Runtime, variants: Fields) returns (value: Value)
    requires WellFormedFields(variants) && PlainFields(variants) && Enumerates(lua) && !PayloadsExact(variants)
    ensures Breaks(lua, Variant(variants), value)
    decreases variants, 0
  {
    var tag := InexactPayload(variants);
    var schema := Find(variants, tag).value;
    NamesPlain(variants, tag);
    FindIsSmaller(variants, tag);
    if !schema.Table? {
      var payload := Counterexample(lua, schema);
      OtherPayloadBreaks(lua, variants, tag, payload);
      value := VVariant(tag, payload);
    } else if Exact(schema) {
      var values := HiddenTag(lua, schema.fields, tag);
      RecordPayloadBreaks(lua, variants, tag, schema.fields, values);
      value := VVariant(tag, VTable(values));
    } else {
      var values := RecordCounterexample(lua, schema.fields, TagRows(tag), Some("kind"));
      RecordPayloadBreaks(lua, variants, tag, schema.fields, values);
      value := VVariant(tag, VTable(values));
    }
  }

  /** A schema that is not exact has a value that projects to Lua and is not recovered. */
  lemma {:induction false} Counterexample(lua: Runtime, schema: Type) returns (value: Value)
    requires WellFormed(schema) && Plain(schema) && Enumerates(lua) && !Exact(schema)
    ensures Breaks(lua, schema, value)
    decreases schema, 1
  {
    match schema
    case Optional(item) =>
      var inner := LostElement(lua, item);
      OptionBreaks(lua, item, inner);
      value := VSome(inner);
    case Array(item, len) =>
      var inner := LostElement(lua, item);
      RepeatBreaks(lua, item, inner, len);
      value := VList(Repeat(inner, len));
    case List(item) =>
      var inner := LostElement(lua, item);
      RepeatBreaks(lua, item, inner, 1);
      value := VList(Repeat(inner, 1));
    case Map(item) =>
      var inner := LostElement(lua, item);
      MapBreaks(lua, item, "", inner);
      value := VMap(map["" := inner]);
    case Table(fields) =>
      var values := RecordCounterexample(lua, fields, map[], None);
      TableBreaks(lua, fields, values);
      value := VTable(values);
    case Variant(variants) => value := VariantCounterexample(lua, variants);
  }

  /** Every value that projects is recovered, exactly when the schema is exact. */
  lemma {:induction false} RoundTripsIffExact(lua: Runtime, schema: Type)
    requires WellFormed(schema) && Plain(schema) && Enumerates(lua)
    ensures (forall value :: Encode(lua, schema, value).Some?
                             ==> Decode(lua, schema, Encode(lua, schema, value).value) == Some(value))
            <==> Exact(schema)
  {
    if Exact(schema) {
      forall value | Encode(lua, schema, value).Some?
        ensures Decode(lua, schema, Encode(lua, schema, value).value) == Some(value)
      {
        RoundTrip(lua, schema, value);
      }
    } else {
      var value := Counterexample(lua, schema);
      assert Breaks(lua, schema, value);
    }
  }
}
