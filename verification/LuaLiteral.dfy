/** Schemas printed as Lua table literals, and a reader of Lua table literals that gets them back. */
module LuaLiteral {
  import opened Wrappers
  import opened Schema
  import opened Text

  // ---------------------------------------------------------------- the printer

  /** `str::replace` of one character. */
  function Replace(s: string, c: char, text: string): string {
    if s == "" then "" else (if s[0] == c then text else [s[0]]) + Replace(s[1..], c, text)
  }

  const BACKSLASH: char := '\\'
  const QUOTE: char := '\"'

  function LuaString(value: string): string {
    [QUOTE] + Replace(Replace(value, BACKSLASH, [BACKSLASH, BACKSLASH]), QUOTE, [BACKSLASH, QUOTE]) + [QUOTE]
  }

  datatype Kind =
    | KAny | KNever | KUnit | KBool | KI64 | KU64 | KF64 | KString | KBytes
    | KOption | KArray | KList | KMap | KTable | KVariant | KCallable | KObject

  function KindText(kind: Kind): string {
    match kind
    case KAny => "any"
    case KNever => "never"
    case KUnit => "unit"
    case KBool => "bool"
    case KI64 => "i64"
    case KU64 => "u64"
    case KF64 => "f64"
    case KString => "string"
    case KBytes => "bytes"
    case KOption => "option"
    case KArray => "array"
    case KList => "list"
    case KMap => "map"
    case KTable => "table"
    case KVariant => "variant"
    case KCallable => "callable"
    case KObject => "object"
  }

  /** The literal of one kind with the text of its further entries. */
  function Literal(kind: Kind, entries: string): string {
    NamedLiteral(KindText(kind), entries)
  }

  function NamedLiteral(name: string, entries: string): string {
    "{ " + "kind" + " = " + ([QUOTE] + name + [QUOTE]) + entries + " }"
  }

  /** A further entry of a literal. */
  function Named(name: string, text: string): string {
    ", " + name + " = " + text
  }

  function SchemaLiteral(schema: Type): string
    decreases schema, 0
  {
    match schema
    case Any => Literal(KAny, "")
    case Never => Literal(KNever, "")
    case Unit => Literal(KUnit, "")
    case Bool => Literal(KBool, "")
    case I64 => Literal(KI64, "")
    case U64 => Literal(KU64, "")
    case F64 => Literal(KF64, "")
    case String => Literal(KString, "")
    case Bytes => Literal(KBytes, "")
    case Optional(item) => Literal(KOption, Named("item", SchemaLiteral(item)))
    case Array(item, len) => Literal(KArray, Named("item", SchemaLiteral(item)) + Named("len", Decimal(len)))
    case List(item) => Literal(KList, Named("item", SchemaLiteral(item)))
    case Map(item) => Literal(KMap, Named("item", SchemaLiteral(item)))
    case Table(fields) => Literal(KTable, Named("fields", "{ " + FieldsLiteral(fields) + " }"))
    case Variant(variants) => Literal(KVariant, Named("variants", "{ " + FieldsLiteral(variants) + " }"))
    case Callable(contract, input, output) =>
      Literal(KCallable, Named("contract", LuaString(contract))
                         + (Named("input", SchemaLiteral(input)) + Named("output", SchemaLiteral(output))))
    case Object(contract) => Literal(KObject, Named("contract", LuaString(contract)))
  }

  function FieldText(key: string, text: string): string {
    "[" + LuaString(key) + "]" + " = " + text
  }

  /** The entries joined by ", ". */
  function FieldsLiteral(fields: Fields): string
    decreases fields
  {
    match fields
    case End => ""
    case Field(key, schema, rest) =>
      FieldText(key, SchemaLiteral(schema)) + if rest.End? then "" else ", " + FieldsLiteral(rest)
  }

  // ---------------------------------------------------------------- the reader

  /** What a Lua table literal of strings, numerals and tables denotes, entries in source order. */
  datatype Lua = LString(text: string) | LNumber(n: nat) | LTable(entries: Entries)
  datatype Entries = NoEntry | Entry(key: string, value: Lua, rest: Entries)

  predicate IsSpace(c: char) {
    c == ' ' || c == '\t' || c == '\n' || c == '\r'
  }

  function Skip(s: string): (r: string)
    ensures |r| <= |s| && (r != "" ==> !IsSpace(r[0]))
  {
    if s != "" && IsSpace(s[0]) then Skip(s[1..]) else s
  }

  predicate IsWordStart(c: char) {
    IsLetter(c) || c == '_'
  }

  predicate IsWordPart(c: char) {
    IsWordStart(c) || IsDigit(c)
  }

  /** The longest prefix of word characters, and what follows. */
  function ReadWord(s: string): (r: (string, string))
    ensures s == r.0 + r.1
  {
    if s != "" && IsWordPart(s[0]) then
      var (word, rest) := ReadWord(s[1..]);
      ([s[0]] + word, rest)
    else ("", s)
  }

  function ReadDigits(s: string): (r: (string, string))
    ensures s == r.0 + r.1 && forall i :: 0 <= i < |r.0| ==> IsDigit(r.0[i])
  {
    if s != "" && IsDigit(s[0]) then
      var (digits, rest) := ReadDigits(s[1..]);
      ([s[0]] + digits, rest)
    else ("", s)
  }

  function NumberOf(digits: string): nat
    requires forall i :: 0 <= i < |digits| ==> IsDigit(digits[i])
  {
    if digits == "" then 0
    else
      assert IsDigit(digits[|digits| - 1]);
      NumberOf(digits[..|digits| - 1]) * 10 + (digits[|digits| - 1] - '0') as nat
  }

  /** The rest of a quoted string after its opening quote; a raw line break is an error, as in Lua. */
  function ReadQuoted(s: string): (r: Option<(string, string)>)
    ensures r.Some? ==> |r.value.1| < |s|
  {
    if s == "" || s[0] == '\n' || s[0] == '\r' then None
    else if s[0] == QUOTE then Some(("", s[1..]))
    else if s[0] == BACKSLASH then
      if |s| < 2 || (s[1] != BACKSLASH && s[1] != QUOTE) then None
      else
        var rest := ReadQuoted(s[2..]);
        if rest.None? then None else Some(([s[1]] + rest.value.0, rest.value.1))
    else
      var rest := ReadQuoted(s[1..]);
      if rest.None? then None else Some(([s[0]] + rest.value.0, rest.value.1))
  }

  function ReadValue(s: string): (r: Option<(Lua, string)>)
    ensures r.Some? ==> |r.value.1| < |s|
    decreases |s|, 0
  {
    var t := Skip(s);
    if t == "" then None
    else if t[0] == QUOTE then
      var r := ReadQuoted(t[1..]);
      if r.None? then None else Some((LString(r.value.0), r.value.1))
    else if IsDigit(t[0]) then
      var (digits, rest) := ReadDigits(t);
      Some((LNumber(NumberOf(digits)), rest))
    else if t[0] == '{' then
      var r := ReadEntries(t[1..]);
      if r.None? then None else Some((LTable(r.value.0), r.value.1))
    else None
  }

  function Expect(s: string, c: char): (r: Option<string>)
    ensures r.Some? ==> |r.value| < |s|
  {
    var t := Skip(s);
    if t != "" && t[0] == c then Some(t[1..]) else None
  }

  /** An entry's key: a word, or a quoted string in brackets. */
  function ReadKey(s: string): (r: Option<(string, string)>)
    ensures r.Some? ==> |r.value.1| < |s|
  {
    var t := Skip(s);
    if t == "" then None
    else if IsWordStart(t[0]) then Some(ReadWord(t))
    else if t[0] == '[' then
      var quote := Expect(t[1..], QUOTE);
      if quote.None? then None
      else
        var key := ReadQuoted(quote.value);
        if key.None? then None
        else
          var rest := Expect(key.value.1, ']');
          if rest.None? then None else Some((key.value.0, rest.value))
    else None
  }

  /** The entries up to and with the closing brace. */
  function ReadEntries(s: string): (r: Option<(Entries, string)>)
    ensures r.Some? ==> |r.value.1| < |s|
    decreases |s|, 1
  {
    var close := Expect(s, '}');
    if close.Some? then Some((NoEntry, close.value))
    else
      var key := ReadKey(s);
      if key.None? then None
      else
        var equals := Expect(key.value.1, '=');
        if equals.None? then None
        else
          var value := ReadValue(equals.value);
          if value.None? then None else ReadMore(key.value.0, value.value.0, value.value.1)
  }

  /** After an entry: a comma and more entries, or the closing brace. */
  function ReadMore(key: string, value: Lua, s: string): (r: Option<(Entries, string)>)
    ensures r.Some? ==> |r.value.1| < |s|
    decreases |s|, 2
  {
    var comma, close := Expect(s, ','), Expect(s, '}');
    if comma.Some? then
      var more := ReadEntries(comma.value);
      if more.None? then None else Some((Entry(key, value, more.value.0), more.value.1))
    else if close.Some? then Some((Entry(key, value, NoEntry), close.value))
    else None
  }

  // ---------------------------------------------------------------- strings

  /** Each backslash and each quote with a backslash before it. */
  function Escape(s: string): string {
    if s == "" then ""
    else (if s[0] == BACKSLASH || s[0] == QUOTE then [BACKSLASH, s[0]] else [s[0]]) + Escape(s[1..])
  }

  lemma {:induction false} ReplaceConcat(a: string, b: string, c: char, text: string)
    ensures Replace(a + b, c, text) == Replace(a, c, text) + Replace(b, c, text)
    decreases |a|
  {
    if a == "" {
      assert a + b == b;
    } else {
      assert (a + b)[1..] == a[1..] + b;
      ReplaceConcat(a[1..], b, c, text);
    }
  }

  /** The two replacements, one after the other, are one escape per character. */
  lemma {:induction false} ReplaceTwiceIsEscape(s: string)
    ensures Replace(Replace(s, BACKSLASH, [BACKSLASH, BACKSLASH]), QUOTE, [BACKSLASH, QUOTE]) == Escape(s)
    decreases |s|
  {
    if s != "" {
      var head := if s[0] == BACKSLASH then [BACKSLASH, BACKSLASH] else [s[0]];
      var rest := Replace(s[1..], BACKSLASH, [BACKSLASH, BACKSLASH]);
      ReplaceConcat(head, rest, QUOTE, [BACKSLASH, QUOTE]);
      ReplaceTwiceIsEscape(s[1..]);
      assert Replace([s[0]], QUOTE, [BACKSLASH, QUOTE]) == if s[0] == QUOTE then [BACKSLASH, QUOTE] else [s[0]] by {
        assert [s[0]][1..] == "";
      }
      if s[0] == BACKSLASH {
        assert [BACKSLASH, BACKSLASH][1..] == [BACKSLASH];
        assert Replace([BACKSLASH], QUOTE, [BACKSLASH, QUOTE]) == [BACKSLASH];
      }
    }
  }

  predicate OneLine(s: string) {
    forall i :: 0 <= i < |s| ==> s[i] != '\n' && s[i] != '\r'
  }

  lemma {:induction false} QuotedRoundTrip(s: string, rest: string)
    requires OneLine(s)
    ensures ReadQuoted(Escape(s) + [QUOTE] + rest) == Some((s, rest))
    decreases |s|
  {
    var tail := [QUOTE] + rest;
    assert Escape(s) + [QUOTE] + rest == Escape(s) + tail;
    if s == "" {
      assert (Escape(s) + tail)[1..] == rest;
    } else {
      QuotedRoundTrip(s[1..], rest);
      assert Escape(s[1..]) + [QUOTE] + rest == Escape(s[1..]) + tail;
      assert s == [s[0]] + s[1..];
      OneCharQuoted(s, tail);
    }
  }

  /** The first character of a quoted text, escaped or not, reads back before the others. */
  lemma {:induction false} OneCharQuoted(s: string, tail: string)
    requires s != "" && s[0] != '\n' && s[0] != '\r'
    ensures ReadQuoted(Escape(s) + tail) ==
              match ReadQuoted(Escape(s[1..]) + tail)
              case None => None
              case Some((others, rest)) => Some(([s[0]] + others, rest))
  {
    var text, more := Escape(s) + tail, Escape(s[1..]) + tail;
    if s[0] == BACKSLASH || s[0] == QUOTE {
      assert text == [BACKSLASH, s[0]] + more;
      assert text[2..] == more;
    } else {
      assert text == [s[0]] + more;
      assert text[1..] == more;
    }
  }

  lemma {:induction false} StringRoundTrip(s: string, rest: string)
    requires OneLine(s)
    ensures ReadValue(LuaString(s) + rest) == Some((LString(s), rest))
  {
    ReplaceTwiceIsEscape(s);
    var text := LuaString(s) + rest;
    assert text == [QUOTE] + (Escape(s) + [QUOTE] + rest);
    assert text[1..] == Escape(s) + [QUOTE] + rest;
    QuotedRoundTrip(s, rest);
  }

  // ---------------------------------------------------------------- words, numerals, separators

  lemma {:induction false} WordRoundTrip(word: string, rest: string)
    requires forall i :: 0 <= i < |word| ==> IsWordPart(word[i])
    requires rest == "" || !IsWordPart(rest[0])
    ensures ReadWord(word + rest) == (word, rest)
    decreases |word|
  {
    if word == "" {
      assert word + rest == rest;
    } else {
      assert (word + rest)[1..] == word[1..] + rest;
      assert word == [word[0]] + word[1..];
      WordRoundTrip(word[1..], rest);
    }
  }

  lemma {:induction false} DigitsRoundTrip(digits: string, rest: string)
    requires forall i :: 0 <= i < |digits| ==> IsDigit(digits[i])
    requires rest == "" || !IsDigit(rest[0])
    ensures ReadDigits(digits + rest) == (digits, rest)
    decreases |digits|
  {
    if digits == "" {
      assert digits + rest == rest;
    } else {
      assert (digits + rest)[1..] == digits[1..] + rest;
      assert digits == [digits[0]] + digits[1..];
      DigitsRoundTrip(digits[1..], rest);
    }
  }

  lemma {:induction false} NumberOfDecimal(n: nat)
    ensures NumberOf(Decimal(n)) == n
    decreases n
  {
    var d := Decimal(n);
    if n < 10 {
      assert d[..0] == "";
    } else {
      assert d[..|d| - 1] == Decimal(n / 10);
      NumberOfDecimal(n / 10);
    }
  }

  lemma {:induction false} NumberRoundTrip(n: nat, rest: string)
    requires rest == "" || !IsDigit(rest[0])
    ensures ReadValue(Decimal(n) + rest) == Some((LNumber(n), rest))
  {
    DigitsRoundTrip(Decimal(n), rest);
    NumberOfDecimal(n);
  }

  lemma {:induction false} ValueAfterSpace(s: string)
    ensures ReadValue(" " + s) == ReadValue(s) && ReadEntries(" " + s) == ReadEntries(s)
    ensures forall c :: Expect(" " + s, c) == Expect(s, c)
  {
    assert (" " + s)[1..] == s;
    assert Skip(" " + s) == Skip(s);
    assert forall c :: Expect(" " + s, c) == Expect(s, c);
    assert ReadKey(" " + s) == ReadKey(s);
  }

  lemma {:induction false} ExpectHead(c: char, s: string)
    requires !IsSpace(c)
    ensures Expect([c] + s, c) == Some(s)
    ensures forall d :: d != c ==> Expect([c] + s, d) == None
  {
    assert ([c] + s)[1..] == s;
  }

  // ---------------------------------------------------------------- entries

  predicate IsWord(name: string) {
    name != "" && IsWordStart(name[0]) && forall i :: 0 <= i < |name| ==> IsWordPart(name[i])
  }

  /** Reading `key = value` and what follows, when the value and what follows are known to read. */
  lemma {:induction false} EntryReads(head: string, key: string, text: string, value: Lua, tail: string)
    requires ReadKey(head + (" = " + text + tail)) == Some((key, " = " + text + tail))
    requires Expect(head + (" = " + text + tail), '}') == None
    requires ReadValue(text + tail) == Some((value, tail))
    ensures ReadEntries(head + (" = " + text + tail)) == ReadMore(key, value, tail)
  {
    var after := " = " + text + tail;
    assert after == " " + (['='] + (" " + (text + tail)));
    ValueAfterSpace(['='] + (" " + (text + tail)));
    ExpectHead('=', " " + (text + tail));
    ValueAfterSpace(text + tail);
  }

  lemma {:induction false} NamedEntryReads(name: string, text: string, value: Lua, tail: string)
    requires IsWord(name) && ReadValue(text + tail) == Some((value, tail))
    ensures ReadEntries(name + (" = " + text + tail)) == ReadMore(name, value, tail)
  {
    var after := " = " + text + tail;
    WordRoundTrip(name, after);
    assert (name + after)[0] == name[0];
    EntryReads(name, name, text, value, tail);
  }

  lemma {:induction false} BracketEntryReads(key: string, text: string, value: Lua, tail: string)
    requires OneLine(key) && ReadValue(text + tail) == Some((value, tail))
    ensures ReadEntries("[" + LuaString(key) + "]" + (" = " + text + tail)) == ReadMore(key, value, tail)
  {
    var after := " = " + text + tail;
    var head := "[" + LuaString(key) + "]";
    ReplaceTwiceIsEscape(key);
    var quoted := Escape(key) + [QUOTE] + ([']'] + after);
    assert head + after == ['['] + ([QUOTE] + quoted);
    assert (head + after)[1..] == [QUOTE] + quoted;
    ExpectHead(QUOTE, quoted);
    QuotedRoundTrip(key, [']'] + after);
    ExpectHead(']', after);
    EntryReads(head, key, text, value, tail);
  }

  /** One more entry after a comma. */
  lemma {:induction false} MoreReads(key: string, value: Lua, s: string)
    ensures ReadMore(key, value, ", " + s) ==
              match ReadEntries(s)
              case None => None
              case Some((entries, rest)) => Some((Entry(key, value, entries), rest))
  {
    assert ", " + s == [','] + (" " + s);
    ExpectHead(',', " " + s);
    ValueAfterSpace(s);
  }

  lemma {:induction false} CloseReads(s: string)
    ensures ReadEntries(" }" + s) == Some((NoEntry, s))
    ensures forall key, value :: ReadMore(key, value, " }" + s) == Some((Entry(key, value, NoEntry), s))
  {
    assert " }" + s == " " + (['}'] + s);
    ValueAfterSpace(['}'] + s);
    ExpectHead('}', s);
  }

  // ---------------------------------------------------------------- schemas as Lua values

  function Tagged(kind: Kind, entries: Entries): Lua {
    NamedTable(KindText(kind), entries)
  }

  function NamedTable(name: string, entries: Entries): Lua {
    LTable(Entry("kind", LString(name), entries))
  }

  /** The Lua table a schema's literal denotes. */
  function AsLua(schema: Type): Lua {
    match schema
    case Any => Tagged(KAny, NoEntry)
    case Never => Tagged(KNever, NoEntry)
    case Unit => Tagged(KUnit, NoEntry)
    case Bool => Tagged(KBool, NoEntry)
    case I64 => Tagged(KI64, NoEntry)
    case U64 => Tagged(KU64, NoEntry)
    case F64 => Tagged(KF64, NoEntry)
    case String => Tagged(KString, NoEntry)
    case Bytes => Tagged(KBytes, NoEntry)
    case Optional(item) => Tagged(KOption, Entry("item", AsLua(item), NoEntry))
    case Array(item, len) => Tagged(KArray, Entry("item", AsLua(item), Entry("len", LNumber(len), NoEntry)))
    case List(item) => Tagged(KList, Entry("item", AsLua(item), NoEntry))
    case Map(item) => Tagged(KMap, Entry("item", AsLua(item), NoEntry))
    case Table(fields) => Tagged(KTable, Entry("fields", LTable(FieldsAsLua(fields)), NoEntry))
    case Variant(variants) => Tagged(KVariant, Entry("variants", LTable(FieldsAsLua(variants)), NoEntry))
    case Callable(contract, input, output) =>
      Tagged(KCallable, Entry("contract", LString(contract),
                              Entry("input", AsLua(input), Entry("output", AsLua(output), NoEntry))))
    case Object(contract) => Tagged(KObject, Entry("contract", LString(contract), NoEntry))
  }

  function FieldsAsLua(fields: Fields): Entries {
    match fields
    case End => NoEntry
    case Field(key, schema, rest) => Entry(key, AsLua(schema), FieldsAsLua(rest))
  }

  /** Keys and contract ids contain no line break; their constructors allow no control character. */
  predicate Printable(schema: Type) {
    match schema
    case Optional(item) => Printable(item)
    case Array(item, _) => Printable(item)
    case List(item) => Printable(item)
    case Map(item) => Printable(item)
    case Table(fields) => PrintableFields(fields)
    case Variant(variants) => PrintableFields(variants)
    case Callable(contract, input, output) => OneLine(contract) && Printable(input) && Printable(output)
    case Object(contract) => OneLine(contract)
    case _ => true
  }

  predicate PrintableFields(fields: Fields) {
    match fields
    case End => true
    case Field(key, schema, rest) => OneLine(key) && Printable(schema) && PrintableFields(rest)
  }

  /** Nothing that the string printer would escape, and no line break. */
  predicate Plain(s: string) {
    OneLine(s) && forall i :: 0 <= i < |s| ==> s[i] != BACKSLASH && s[i] != QUOTE
  }

  lemma {:induction false} KindIsPlain(kind: Kind)
    ensures Plain(KindText(kind))
  {
  }

  lemma {:induction false} PlainUnescaped(s: string)
    requires forall i :: 0 <= i < |s| ==> s[i] != BACKSLASH && s[i] != QUOTE
    ensures Escape(s) == s
    decreases |s|
  {
    if s != "" {
      PlainUnescaped(s[1..]);
    }
  }

  lemma {:induction false} PlainRoundTrip(name: string, tail: string)
    requires Plain(name)
    ensures ReadValue([QUOTE] + name + [QUOTE] + tail) == Some((LString(name), tail))
  {
    ReplaceTwiceIsEscape(name);
    PlainUnescaped(name);
    StringRoundTrip(name, tail);
  }

  /** After any entry, this text and a closing brace read as these further entries. */
  ghost predicate Continues(text: string, entries: Entries, rest: string) {
    forall key, value :: ReadMore(key, value, text + (" }" + rest)) == Some((Entry(key, value, entries), rest))
  }

  lemma {:induction false} NoMore(rest: string)
    ensures Continues("", NoEntry, rest)
  {
    assert "" + (" }" + rest) == " }" + rest;
    CloseReads(rest);
  }

  lemma {:induction false} Regroup(a: string, b: string, c: string, d: string, e: string, f: string, g: string)
    ensures (a + b + c + d + e + f) + g == a + (b + (c + d + (e + (f + g))))
    ensures (a + b + c + d + e) + (f + g) == a + (b + (c + d + (e + (f + g))))
  {
    assert (a + b + c + d + e) + (f + g) == a + (b + (c + d + (e + (f + g))));
    assert (a + b + c + d + e + f) + g == (a + b + c + d + e) + (f + g);
  }

  /** One named entry in front of entries that read. */
  lemma {:induction false} OneMore(name: string, text: string, value: Lua, more: string, entries: Entries, rest: string)
    requires IsWord(name) && Continues(more, entries, rest)
    requires ReadValue(text + (more + (" }" + rest))) == Some((value, more + (" }" + rest)))
    ensures Continues(Named(name, text) + more, Entry(name, value, entries), rest)
  {
    var tail := more + (" }" + rest);
    NamedEntryReads(name, text, value, tail);
    var s := name + (" = " + text + tail);
    Regroup(", ", name, " = ", text, more, " }", rest);
    forall key, first
      ensures ReadMore(key, first, ", " + s) == Some((Entry(key, first, Entry(name, value, entries)), rest))
    {
      MoreReads(key, first, s);
    }
  }

  /** A literal reads back when its further entries do. */
  lemma {:induction false} LiteralReads(name: string, text: string, entries: Entries, rest: string)
    requires Plain(name) && Continues(text, entries, rest)
    ensures ReadValue(NamedLiteral(name, text) + rest) == Some((NamedTable(name, entries), rest))
  {
    var quoted := [QUOTE] + name + [QUOTE];
    var tail := text + (" }" + rest);
    PlainRoundTrip(name, tail);
    KindIsWord();
    NamedEntryReads("kind", quoted, LString(name), tail);
    var inner := "kind" + (" = " + quoted + tail);
    BraceReads(inner);
    Regroup("{ ", "kind", " = ", quoted, text, " }", rest);
  }

  lemma {:induction false} BraceReads(inner: string)
    ensures ReadValue(['{', ' '] + inner) ==
              match ReadEntries(inner)
              case None => None
              case Some((entries, rest)) => Some((LTable(entries), rest))
  {
    var all := ['{', ' '] + inner;
    assert all[1..] == " " + inner;
    ValueAfterSpace(inner);
  }

  lemma {:induction false} KindIsWord()
    ensures IsWord("kind")
  {
  }

  lemma {:induction false} NamesAreWords()
    ensures IsWord("item") && IsWord("len") && IsWord("fields") && IsWord("variants")
    ensures IsWord("contract") && IsWord("input") && IsWord("output")
  {
  }

  // ---------------------------------------------------------------- printing and reading back

  lemma {:induction false} LeafReads(kind: Kind, rest: string)
    ensures ReadValue(Literal(kind, "") + rest) == Some((Tagged(kind, NoEntry), rest))
  {
    NoMore(rest);
    KindIsPlain(kind);
    LiteralReads(KindText(kind), "", NoEntry, rest);
  }

  /** A literal with one entry besides its kind. */
  lemma {:induction false} SingleReads(kind: Kind, name: string, text: string, value: Lua, rest: string)
    requires IsWord(name) && ReadValue(text + (" }" + rest)) == Some((value, " }" + rest))
    ensures ReadValue(Literal(kind, Named(name, text)) + rest)
         == Some((Tagged(kind, Entry(name, value, NoEntry)), rest))
  {
    LastEntry(name, text, value, rest);
    KindIsPlain(kind);
    LiteralReads(KindText(kind), Named(name, text), Entry(name, value, NoEntry), rest);
  }

  lemma {:induction false} LastEntry(name: string, text: string, value: Lua, rest: string)
    requires IsWord(name) && ReadValue(text + (" }" + rest)) == Some((value, " }" + rest))
    ensures Continues(Named(name, text), Entry(name, value, NoEntry), rest)
  {
    NoMore(rest);
    assert "" + (" }" + rest) == " }" + rest;
    OneMore(name, text, value, "", NoEntry, rest);
    assert Named(name, text) + "" == Named(name, text);
  }

  /** An array's literal, given that its item reads. */
  lemma {:induction false} ArrayReads(item: string, itemValue: Lua, len: nat, rest: string)
    requires var more := Named("len", Decimal(len)) + (" }" + rest);
             ReadValue(item + more) == Some((itemValue, more))
    ensures ReadValue(Literal(KArray, Named("item", item) + Named("len", Decimal(len))) + rest)
         == Some((Tagged(KArray, Entry("item", itemValue, Entry("len", LNumber(len), NoEntry))), rest))
  {
    NamesAreWords();
    var more, last := Named("len", Decimal(len)), Entry("len", LNumber(len), NoEntry);
    NumberRoundTrip(len, " }" + rest);
    LastEntry("len", Decimal(len), LNumber(len), rest);
    OneMore("item", item, itemValue, more, last, rest);
    KindIsPlain(KArray);
    LiteralReads(KindText(KArray), Named("item", item) + more, Entry("item", itemValue, last), rest);
  }

  /** A callable's literal, given that its input and its output read. */
  lemma {:induction false} CallableReads(
    contract: string, input: string, inputValue: Lua, output: string, outputValue: Lua, rest: string)
    requires OneLine(contract)
    requires ReadValue(output + (" }" + rest)) == Some((outputValue, " }" + rest))
    requires var more := Named("output", output) + (" }" + rest);
             ReadValue(input + more) == Some((inputValue, more))
    ensures ReadValue(Literal(KCallable, Named("contract", LuaString(contract))
                                         + (Named("input", input) + Named("output", output))) + rest)
         == Some((Tagged(KCallable, Entry("contract", LString(contract), Entry("input", inputValue,
                                          Entry("output", outputValue, NoEntry)))), rest))
  {
    NamesAreWords();
    LastEntry("output", output, outputValue, rest);
    var more, last := Named("output", output), Entry("output", outputValue, NoEntry);
    OneMore("input", input, inputValue, more, last, rest);
    ContractReads(contract, Named("input", input) + more, Entry("input", inputValue, last), rest);
  }

  lemma {:induction false} ContractReads(contract: string, more: string, entries: Entries, rest: string)
    requires OneLine(contract) && Continues(more, entries, rest)
    ensures ReadValue(Literal(KCallable, Named("contract", LuaString(contract)) + more) + rest)
         == Some((Tagged(KCallable, Entry("contract", LString(contract), entries)), rest))
  {
    NamesAreWords();
    StringRoundTrip(contract, more + (" }" + rest));
    OneMore("contract", LuaString(contract), LString(contract), more, entries, rest);
    KindIsPlain(KCallable);
    LiteralReads(KindText(KCallable), Named("contract", LuaString(contract)) + more,
                 Entry("contract", LString(contract), entries), rest);
  }

  lemma {:induction false} FieldTextThen(key: string, text: string, tail: string)
    ensures FieldText(key, text) + tail == "[" + LuaString(key) + "]" + (" = " + text + tail)
  {
  }

  lemma {:induction false} LastFieldReads(key: string, text: string, value: Lua, rest: string)
    requires OneLine(key) && ReadValue(text + (" }" + rest)) == Some((value, " }" + rest))
    ensures ReadEntries(FieldText(key, text) + (" }" + rest)) == Some((Entry(key, value, NoEntry), rest))
  {
    var tail := " }" + rest;
    CloseReads(rest);
    BracketEntryReads(key, text, value, tail);
    FieldTextThen(key, text, tail);
  }

  lemma {:induction false} NextFieldReads(key: string, text: string, value: Lua, more: string)
    requires OneLine(key) && ReadValue(text + (", " + more)) == Some((value, ", " + more))
    ensures ReadEntries(FieldText(key, text) + (", " + more)) ==
              match ReadEntries(more)
              case None => None
              case Some((entries, rest)) => Some((Entry(key, value, entries), rest))
  {
    var tail := ", " + more;
    MoreReads(key, value, more);
    BracketEntryReads(key, text, value, tail);
    FieldTextThen(key, text, tail);
  }

  lemma {:induction false} FieldsRead(fields: Fields, rest: string)
    requires PrintableFields(fields)
    ensures ReadEntries(FieldsLiteral(fields) + (" }" + rest)) == Some((FieldsAsLua(fields), rest))
    decreases fields, 0
  {
    match fields
    case End => NoFieldReads(rest);
    case Field(key, schema, others) =>
      if others.End? {
        SchemaReads(schema, " }" + rest);
        LastFieldReads(key, SchemaLiteral(schema), AsLua(schema), rest);
        assert FieldsLiteral(fields) == FieldText(key, SchemaLiteral(schema));
      } else {
        FieldsRead(others, rest);
        var more := FieldsLiteral(others) + (" }" + rest);
        SchemaReads(schema, ", " + more);
        NextFieldReads(key, SchemaLiteral(schema), AsLua(schema), more);
        FieldsLiteralAfter(key, schema, others, " }" + rest);
      }
  }

  lemma {:induction false} NoFieldReads(rest: string)
    ensures ReadEntries("" + (" }" + rest)) == Some((NoEntry, rest))
  {
    CloseReads(rest);
    assert "" + (" }" + rest) == " }" + rest;
  }

  lemma {:induction false} FieldsLiteralAfter(key: string, schema: Type, others: Fields, tail: string)
    requires !others.End?
    ensures FieldsLiteral(Field(key, schema, others)) + tail
         == FieldText(key, SchemaLiteral(schema)) + (", " + (FieldsLiteral(others) + tail))
  {
    var head, more := FieldText(key, SchemaLiteral(schema)), FieldsLiteral(others);
    assert FieldsLiteral(Field(key, schema, others)) == head + (", " + more);
    assert (head + (", " + more)) + tail == head + (", " + (more + tail));
  }

  lemma {:induction false} BracedReads(text: string, entries: Entries, after: string)
    requires ReadEntries(text + (" }" + after)) == Some((entries, after))
    ensures ReadValue("{ " + text + " }" + after) == Some((LTable(entries), after))
  {
    BraceReads(text + (" }" + after));
    assert "{ " + text + " }" + after == ['{', ' '] + (text + (" }" + after));
  }

  lemma {:induction false} MembersRead(kind: Kind, name: string, fields: Fields, rest: string)
    requires PrintableFields(fields) && IsWord(name)
    ensures ReadValue(Literal(kind, Named(name, "{ " + FieldsLiteral(fields) + " }")) + rest)
         == Some((Tagged(kind, Entry(name, LTable(FieldsAsLua(fields)), NoEntry)), rest))
    decreases fields, 1
  {
    FieldsRead(fields, " }" + rest);
    BracedReads(FieldsLiteral(fields), FieldsAsLua(fields), " }" + rest);
    SingleReads(kind, name, "{ " + FieldsLiteral(fields) + " }", LTable(FieldsAsLua(fields)), rest);
  }

  /** The literal of a schema, followed by any text, reads as the schema's table and leaves that text. */
  lemma {:induction false} SchemaReads(schema: Type, rest: string)
    requires Printable(schema)
    ensures ReadValue(SchemaLiteral(schema) + rest) == Some((AsLua(schema), rest))
    decreases schema, 0
  {
    NamesAreWords();
    match schema
    case Optional(item) =>
      SchemaReads(item, " }" + rest);
      SingleReads(KOption, "item", SchemaLiteral(item), AsLua(item), rest);
    case List(item) =>
      SchemaReads(item, " }" + rest);
      SingleReads(KList, "item", SchemaLiteral(item), AsLua(item), rest);
    case Map(item) =>
      SchemaReads(item, " }" + rest);
      SingleReads(KMap, "item", SchemaLiteral(item), AsLua(item), rest);
    case Array(item, len) =>
      SchemaReads(item, Named("len", Decimal(len)) + (" }" + rest));
      ArrayReads(SchemaLiteral(item), AsLua(item), len, rest);
    case Table(fields) => MembersRead(KTable, "fields", fields, rest);
    case Variant(variants) => MembersRead(KVariant, "variants", variants, rest);
    case Callable(contract, input, output) =>
      SchemaReads(output, " }" + rest);
      SchemaReads(input, Named("output", SchemaLiteral(output)) + (" }" + rest));
      CallableReads(contract, SchemaLiteral(input), AsLua(input), SchemaLiteral(output), AsLua(output), rest);
    case Object(contract) =>
      StringRoundTrip(contract, " }" + rest);
      SingleReads(KObject, "contract", LuaString(contract), LString(contract), rest);
    case Any => LeafReads(KAny, rest);
    case Never => LeafReads(KNever, rest);
    case Unit => LeafReads(KUnit, rest);
    case Bool => LeafReads(KBool, rest);
    case I64 => LeafReads(KI64, rest);
    case U64 => LeafReads(KU64, rest);
    case F64 => LeafReads(KF64, rest);
    case String => LeafReads(KString, rest);
    case Bytes => LeafReads(KBytes, rest);
  }

  /** The word for each schema. */
  function Word(schema: Type): string {
    match schema
    case Any => "any"
    case Never => "never"
    case Unit => "unit"
    case Bool => "bool"
    case I64 => "i64"
    case U64 => "u64"
    case F64 => "f64"
    case String => "string"
    case Bytes => "bytes"
    case Optional(_) => "option"
    case Array(_, _) => "array"
    case List(_) => "list"
    case Map(_) => "map"
    case Table(_) => "table"
    case Variant(_) => "variant"
    case Callable(_, _, _) => "callable"
    case Object(_) => "object"
  }

  function KindFor(schema: Type): Kind {
    match schema
    case Any => KAny
    case Never => KNever
    case Unit => KUnit
    case Bool => KBool
    case I64 => KI64
    case U64 => KU64
    case F64 => KF64
    case String => KString
    case Bytes => KBytes
    case Optional(_) => KOption
    case Array(_, _) => KArray
    case List(_) => KList
    case Map(_) => KMap
    case Table(_) => KTable
    case Variant(_) => KVariant
    case Callable(_, _, _) => KCallable
    case Object(_) => KObject
  }

  lemma {:induction false} WordOfKind(schema: Type)
    ensures KindText(KindFor(schema)) == Word(schema)
  {
  }

  lemma {:induction false} TaggedAs(schema: Type, text: string)
    requires text == KindText(KindFor(schema))
    ensures AsLua(schema).LTable? && AsLua(schema).entries.Entry?
    ensures AsLua(schema).entries.key == "kind" && AsLua(schema).entries.value == LString(text)
  {
  }

  /** The table that is read off a printed schema says its kind in this word, as its first entry. */
  lemma {:induction false} WordIsRead(schema: Type, rest: string)
    requires Printable(schema)
    ensures var read := ReadValue(SchemaLiteral(schema) + rest);
            && read.Some? && read.value.0.LTable? && read.value.0.entries.Entry?
            && read.value.0.entries.key == "kind" && read.value.0.entries.value == LString(Word(schema))
  {
    SchemaReads(schema, rest);
    WordOfKind(schema);
    TaggedAs(schema, Word(schema));
  }

  // ---------------------------------------------------------------- the schema a table describes

  function Size(value: Lua): nat {
    match value
    case LTable(entries) => 1 + EntriesSize(entries)
    case _ => 0
  }

  function EntriesSize(entries: Entries): nat {
    match entries
    case NoEntry => 0
    case Entry(_, value, rest) => 1 + Size(value) + EntriesSize(rest)
  }

  function Get(entries: Entries, key: string): (r: Option<Lua>)
    ensures r.Some? ==> Size(r.value) < EntriesSize(entries)
  {
    match entries
    case NoEntry => None
    case Entry(k, value, rest) => if k == key then Some(value) else Get(rest, key)
  }

  ghost function KindOf(text: string): Option<Kind> {
    if kind :| KindText(kind) == text then Some(kind) else None
  }

  function StringIn(value: Option<Lua>): Option<string> {
    if value.Some? && value.value.LString? then Some(value.value.text) else None
  }

  /** Schema tables are read by entry name, so the order of their entries does not matter. */
  ghost function FromLua(value: Lua): Option<Type>
    decreases Size(value), 0
  {
    if !value.LTable? then None
    else
      var kindText := StringIn(Get(value.entries, "kind"));
      if kindText.None? then None
      else
        var kind := KindOf(kindText.value);
        if kind.None? then None else FromEntries(kind.value, value.entries)
  }

  ghost function FromEntries(kind: Kind, entries: Entries): Option<Type>
    decreases EntriesSize(entries), 2
  {
    match kind
    case KAny => Some(Any)
    case KNever => Some(Never)
    case KUnit => Some(Unit)
    case KBool => Some(Bool)
    case KI64 => Some(I64)
    case KU64 => Some(U64)
    case KF64 => Some(F64)
    case KString => Some(String)
    case KBytes => Some(Bytes)
    case KOption =>
      var item := NamedSchema(entries, "item");
      if item.None? then None else Some(Optional(item.value))
    case KArray =>
      var item, len := NamedSchema(entries, "item"), Get(entries, "len");
      if item.None? || len.None? || !len.value.LNumber? then None else Some(Array(item.value, len.value.n))
    case KList =>
      var item := NamedSchema(entries, "item");
      if item.None? then None else Some(List(item.value))
    case KMap =>
      var item := NamedSchema(entries, "item");
      if item.None? then None else Some(Map(item.value))
    case KTable =>
      var fields := NamedFields(entries, "fields");
      if fields.None? then None else Some(Table(fields.value))
    case KVariant =>
      var variants := NamedFields(entries, "variants");
      if variants.None? then None else Some(Variant(variants.value))
    case KCallable =>
      var contract, input, output :=
        StringIn(Get(entries, "contract")), NamedSchema(entries, "input"), NamedSchema(entries, "output");
      if contract.None? || input.None? || output.None? then None
      else Some(Callable(contract.value, input.value, output.value))
    case KObject =>
      var contract := StringIn(Get(entries, "contract"));
      if contract.None? then None else Some(Object(contract.value))
  }

  ghost function NamedSchema(entries: Entries, name: string): Option<Type>
    decreases EntriesSize(entries), 1
  {
    var value := Get(entries, name);
    if value.None? then None else FromLua(value.value)
  }

  ghost function NamedFields(entries: Entries, name: string): Option<Fields>
    decreases EntriesSize(entries), 1
  {
    var value := Get(entries, name);
    if value.None? || !value.value.LTable? then None else FieldsFromEntries(value.value.entries)
  }

  ghost function FieldsFromEntries(entries: Entries): Option<Fields>
    decreases EntriesSize(entries), 0
  {
    match entries
    case NoEntry => Some(End)
    case Entry(key, value, rest) =>
      var schema, others := FromLua(value), FieldsFromEntries(rest);
      if schema.None? || others.None? then None else Some(Field(key, schema.value, others.value))
  }

  /** Length and first two letters tell the kinds apart. */
  function Letters(kind: Kind): (int, char, char) {
    match kind
    case KAny => (3, 'a', 'n')
    case KNever => (5, 'n', 'e')
    case KUnit => (4, 'u', 'n')
    case KBool => (4, 'b', 'o')
    case KI64 => (3, 'i', '6')
    case KU64 => (3, 'u', '6')
    case KF64 => (3, 'f', '6')
    case KString => (6, 's', 't')
    case KBytes => (5, 'b', 'y')
    case KOption => (6, 'o', 'p')
    case KArray => (5, 'a', 'r')
    case KList => (4, 'l', 'i')
    case KMap => (3, 'm', 'a')
    case KTable => (5, 't', 'a')
    case KVariant => (7, 'v', 'a')
    case KCallable => (8, 'c', 'a')
    case KObject => (6, 'o', 'b')
  }

  lemma {:induction false} KindLetters(kind: Kind)
    ensures |KindText(kind)| >= 2 && Letters(kind) == (|KindText(kind)|, KindText(kind)[0], KindText(kind)[1])
  {
  }

  lemma {:induction false} KindRoundTrip(kind: Kind)
    ensures KindOf(KindText(kind)) == Some(kind)
  {
    forall other: Kind | KindText(other) == KindText(kind)
      ensures other == kind
    {
      KindLetters(kind);
      KindLetters(other);
    }
  }

  lemma {:induction false} NamesDiffer()
    ensures "kind" != "item" && "kind" != "len" && "kind" != "fields" && "kind" != "variants"
    ensures "kind" != "contract" && "kind" != "input" && "kind" != "output"
    ensures "item" != "len" && "contract" != "input" && "contract" != "output" && "input" != "output"
  {
    assert "kind"[0] != "item"[0] && "kind"[1] != "len"[1] && "kind"[0] != "fields"[0];
    assert "contract"[0] != "input"[0] && "contract"[0] != "output"[0] && "input"[0] != "output"[0];
  }

  lemma {:induction false} TaggedDescribes(kind: Kind, entries: Entries)
    ensures FromLua(Tagged(kind, entries)) == FromEntries(kind, Tagged(kind, entries).entries)
    ensures forall name :: name != "kind" ==> Get(Tagged(kind, entries).entries, name) == Get(entries, name)
  {
    KindRoundTrip(kind);
  }

  lemma {:induction false} SecondEntry(first: Lua, name: string, value: Lua, more: Entries)
    requires name != "kind"
    ensures Get(Entry("kind", first, Entry(name, value, more)), name) == Some(value)
  {
    assert Get(Entry(name, value, more), name) == Some(value);
  }

  lemma {:induction false} ItemDescribes(kind: Kind, value: Lua, item: Type)
    requires FromLua(value) == Some(item)
    ensures kind == KOption ==> FromLua(Tagged(kind, Entry("item", value, NoEntry))) == Some(Optional(item))
    ensures kind == KList ==> FromLua(Tagged(kind, Entry("item", value, NoEntry))) == Some(List(item))
    ensures kind == KMap ==> FromLua(Tagged(kind, Entry("item", value, NoEntry))) == Some(Map(item))
  {
    NamesDiffer();
    SecondEntry(LString(KindText(kind)), "item", value, NoEntry);
    TaggedDescribes(kind, Entry("item", value, NoEntry));
    assert NamedSchema(Tagged(kind, Entry("item", value, NoEntry)).entries, "item") == Some(item);
  }

  lemma {:induction false} ArrayDescribes(value: Lua, item: Type, len: nat)
    requires FromLua(value) == Some(item)
    ensures FromLua(Tagged(KArray, Entry("item", value, Entry("len", LNumber(len), NoEntry)))) == Some(Array(item, len))
  {
    NamesDiffer();
    var last := Entry("len", LNumber(len), NoEntry);
    SecondEntry(LString(KindText(KArray)), "item", value, last);
    TaggedDescribes(KArray, Entry("item", value, last));
    assert Get(Entry("item", value, last), "len") == Get(last, "len") == Some(LNumber(len));
    assert NamedSchema(Tagged(KArray, Entry("item", value, last)).entries, "item") == Some(item);
  }

  lemma {:induction false} FieldsDescribe(members: Entries, fields: Fields)
    requires FieldsFromEntries(members) == Some(fields)
    ensures FromLua(Tagged(KTable, Entry("fields", LTable(members), NoEntry))) == Some(Table(fields))
  {
    NamesDiffer();
    SecondEntry(LString(KindText(KTable)), "fields", LTable(members), NoEntry);
    TaggedDescribes(KTable, Entry("fields", LTable(members), NoEntry));
  }

  lemma {:induction false} VariantsDescribe(members: Entries, fields: Fields)
    requires FieldsFromEntries(members) == Some(fields)
    ensures FromLua(Tagged(KVariant, Entry("variants", LTable(members), NoEntry))) == Some(Variant(fields))
  {
    NamesDiffer();
    SecondEntry(LString(KindText(KVariant)), "variants", LTable(members), NoEntry);
    TaggedDescribes(KVariant, Entry("variants", LTable(members), NoEntry));
  }

  lemma {:induction false} ObjectDescribes(contract: string)
    ensures FromLua(Tagged(KObject, Entry("contract", LString(contract), NoEntry))) == Some(Object(contract))
  {
    NamesDiffer();
    SecondEntry(LString(KindText(KObject)), "contract", LString(contract), NoEntry);
    TaggedDescribes(KObject, Entry("contract", LString(contract), NoEntry));
  }

  lemma {:induction false} CallableDescribes(contract: string, inputValue: Lua, input: Type, outputValue: Lua, output: Type)
    requires FromLua(inputValue) == Some(input) && FromLua(outputValue) == Some(output)
    ensures FromLua(Tagged(KCallable, Entry("contract", LString(contract), Entry("input", inputValue,
                                            Entry("output", outputValue, NoEntry)))))
         == Some(Callable(contract, input, output))
  {
    NamesDiffer();
    var last := Entry("output", outputValue, NoEntry);
    var entries := Entry("contract", LString(contract), Entry("input", inputValue, last));
    TaggedDescribes(KCallable, entries);
    assert Get(entries, "contract") == Some(LString(contract));
    assert Get(last, "output") == Some(outputValue);
    assert Get(entries, "output") == Get(last, "output");
    assert Get(entries, "input") == Some(inputValue);
  }

  lemma {:induction false} TableDescribesSchema(schema: Type)
    ensures FromLua(AsLua(schema)) == Some(schema)
    decreases schema
  {
    match schema
    case Optional(item) =>
      TableDescribesSchema(item);
      ItemDescribes(KOption, AsLua(item), item);
    case Array(item, len) =>
      TableDescribesSchema(item);
      ArrayDescribes(AsLua(item), item, len);
    case List(item) =>
      TableDescribesSchema(item);
      ItemDescribes(KList, AsLua(item), item);
    case Map(item) =>
      TableDescribesSchema(item);
      ItemDescribes(KMap, AsLua(item), item);
    case Table(fields) =>
      TableDescribesFields(fields);
      FieldsDescribe(FieldsAsLua(fields), fields);
    case Variant(variants) =>
      TableDescribesFields(variants);
      VariantsDescribe(FieldsAsLua(variants), variants);
    case Callable(contract, input, output) =>
      TableDescribesSchema(input);
      TableDescribesSchema(output);
      CallableDescribes(contract, AsLua(input), input, AsLua(output), output);
    case Object(contract) => ObjectDescribes(contract);
    case _ => AtomDescribes(schema);
  }

  lemma {:induction false} AtomDescribes(schema: Type)
    requires schema.Any? || schema.Never? || schema.Unit? || schema.Bool? || schema.I64? || schema.U64?
             || schema.F64? || schema.String? || schema.Bytes?
    ensures FromLua(AsLua(schema)) == Some(schema)
  {
    match schema
    case Any => TaggedDescribes(KAny, NoEntry);
    case Never => TaggedDescribes(KNever, NoEntry);
    case Unit => TaggedDescribes(KUnit, NoEntry);
    case Bool => TaggedDescribes(KBool, NoEntry);
    case I64 => TaggedDescribes(KI64, NoEntry);
    case U64 => TaggedDescribes(KU64, NoEntry);
    case F64 => TaggedDescribes(KF64, NoEntry);
    case String => TaggedDescribes(KString, NoEntry);
    case Bytes => TaggedDescribes(KBytes, NoEntry);
  }

  lemma {:induction false} TableDescribesFields(fields: Fields)
    ensures FieldsFromEntries(FieldsAsLua(fields)) == Some(fields)
    decreases fields
  {
    match fields
    case End =>
    case Field(_, schema, rest) =>
      TableDescribesSchema(schema);
      TableDescribesFields(rest);
  }

  ghost function ReadSchema(s: string): Option<(Type, string)> {
    match ReadValue(s)
    case None => None
    case Some((value, rest)) =>
      match FromLua(value)
      case None => None
      case Some(schema) => Some((schema, rest))
  }

  /** Printing a schema and reading it back, whatever follows it, gives that schema and what follows. */
  lemma {:induction false} PrintedSchemaReadsBack(schema: Type, rest: string)
    requires Printable(schema)
    ensures ReadSchema(SchemaLiteral(schema) + rest) == Some((schema, rest))
  {
    SchemaReads(schema, rest);
    TableDescribesSchema(schema);
  }

  /** No schema's literal is another schema's literal with something after it. */
  lemma {:induction false} LiteralsAreUnambiguous(a: Type, b: Type, x: string, y: string)
    requires Printable(a) && Printable(b) && SchemaLiteral(a) + x == SchemaLiteral(b) + y
    ensures a == b && x == y
  {
    PrintedSchemaReadsBack(a, x);
    PrintedSchemaReadsBack(b, y);
  }
}
