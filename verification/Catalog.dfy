/** The models an ACP agent lists in its configuration options, and the selection of one of them. */
module Catalog {
  import opened Wrappers
  import opened Text

  datatype Json =
    | JString(text: string)
    | JArray(items: seq<Json>)
    | JObject(members: map<string, Json>)
    | JOther

  function Member(value: Json, key: string): Option<Json> {
    if value.JObject? && key in value.members then Some(value.members[key]) else None
  }

  function AsText(value: Option<Json>): Option<string> {
    if value.Some? && value.value.JString? then Some(value.value.text) else None
  }

  /** A select option's value and the name shown for it. */
  datatype Choice = Choice(value: string, name: string)

  datatype Failure = NotAnArray | NoModelOption | NotASelect | NoId | BadModelId | NotAdvertised

  // ---------------------------------------------------------------- collecting the values

  /** The values in the tree, outer before inner and left before right. */
  function Collected(value: Json): seq<Choice>
    decreases value, 1
  {
    match value
    case JArray(items) => CollectedAll(value, |items|)
    case JObject(members) => Own(value) + (if "options" in members then Collected(members["options"]) else [])
    case _ => []
  }

  function Own(value: Json): seq<Choice> {
    var text := AsText(Member(value, "value"));
    if text.None? then []
    else
      var name := AsText(Member(value, "name"));
      [Choice(text.value, if name.Some? then name.value else text.value)]
  }

  /** The values of the first n items. */
  function CollectedAll(value: Json, n: nat): seq<Choice>
    requires value.JArray? && n <= |value.items|
    decreases value, 0, n
  {
    if n == 0 then [] else CollectedAll(value, n - 1) + Collected(value.items[n - 1])
  }

  class Output {
    var choices: seq<Choice>

    constructor ()
      ensures choices == []
    {
      choices := [];
    }
  }

  method CollectSelectValues(value: Json, output: Output)
    modifies output
    ensures output.choices == old(output.choices) + Collected(value)
    decreases value, 1
  {
    if value.JArray? {
      CollectItems(value, output);
    } else if value.JObject? {
      CollectMembers(value, output);
    }
  }

  method CollectMembers(value: Json, output: Output)
    requires value.JObject?
    modifies output
    ensures output.choices == old(output.choices) + Collected(value)
    decreases value, 0
  {
    CollectOwn(value, output);
    if "options" in value.members {
      ghost var own := output.choices;
      CollectSelectValues(value.members["options"], output);
      AppendTwice(old(output.choices), Own(value), Collected(value.members["options"]));
      assert output.choices == own + Collected(value.members["options"]);
    }
  }

  lemma {:induction false} AppendTwice(a: seq<Choice>, b: seq<Choice>, c: seq<Choice>)
    ensures a + b + c == a + (b + c)
  {
  }

  method CollectOwn(value: Json, output: Output)
    modifies output
    ensures output.choices == old(output.choices) + Own(value)
  {
    var text := AsText(Member(value, "value"));
    if text.Some? {
      var name := AsText(Member(value, "name"));
      output.choices := output.choices + [Choice(text.value, if name.Some? then name.value else text.value)];
    }
  }

  method CollectItems(value: Json, output: Output)
    requires value.JArray?
    modifies output
    ensures output.choices == old(output.choices) + CollectedAll(value, |value.items|)
    decreases value, 0
  {
    var i := 0;
    while i < |value.items|
      invariant i <= |value.items| && output.choices == old(output.choices) + CollectedAll(value, i)
    {
      CollectSelectValues(value.items[i], output);
      i := i + 1;
    }
  }

  predicate ContainsSelectValue(value: Json, desired: string)
    decreases value
  {
    match value
    case JArray(items) => exists i :: 0 <= i < |items| && ContainsSelectValue(items[i], desired)
    case JObject(members) =>
      AsText(Member(value, "value")) == Some(desired)
      || ("options" in members && ContainsSelectValue(members["options"], desired))
    case _ => false
  }

  /** Some choice has the value. */
  predicate Lists(choices: seq<Choice>, value: string) {
    exists i :: 0 <= i < |choices| && choices[i].value == value
  }

  lemma {:induction false} ListsConcat(a: seq<Choice>, b: seq<Choice>, value: string)
    ensures Lists(a + b, value) <==> Lists(a, value) || Lists(b, value)
  {
    if Lists(a, value) {
      var i :| 0 <= i < |a| && a[i].value == value;
      assert (a + b)[i].value == value;
    }
    if Lists(b, value) {
      var i :| 0 <= i < |b| && b[i].value == value;
      assert (a + b)[|a| + i].value == value;
    }
  }

  /** The search and the collection see the same values. */
  lemma {:induction false} ContainsIffCollected(value: Json, desired: string)
    ensures ContainsSelectValue(value, desired) <==> Lists(Collected(value), desired)
    decreases value, 1
  {
    match value
    case JArray(items) => ItemsContain(value, |items|, desired);
    case JObject(members) =>
      var inner := if "options" in members then Collected(members["options"]) else [];
      if "options" in members {
        ContainsIffCollected(members["options"], desired);
      }
      ListsConcat(Own(value), inner, desired);
      assert Lists(Own(value), desired) <==> AsText(Member(value, "value")) == Some(desired) by {
        if AsText(Member(value, "value")) == Some(desired) {
          assert Own(value)[0].value == desired;
        }
      }
    case _ =>
  }

  lemma {:induction false} ItemsContain(value: Json, n: nat, desired: string)
    requires value.JArray? && n <= |value.items|
    ensures (exists i :: 0 <= i < n && ContainsSelectValue(value.items[i], desired))
            <==> Lists(CollectedAll(value, n), desired)
    decreases value, 0, n
  {
    if n > 0 {
      ItemsContain(value, n - 1, desired);
      ContainsIffCollected(value.items[n - 1], desired);
      ListsConcat(CollectedAll(value, n - 1), Collected(value.items[n - 1]), desired);
    }
  }

  // ---------------------------------------------------------------- the model descriptors

  /** The first option whose category is `model`. */
  function FindModelOption(options: Json): Result<Json, Failure> {
    if !options.JArray? then Err(NotAnArray) else FirstModelOption(options.items)
  }

  function FirstModelOption(items: seq<Json>): Result<Json, Failure> {
    if items == [] then Err(NoModelOption)
    else if AsText(Member(items[0], "category")) == Some("model") then Ok(items[0])
    else FirstModelOption(items[1..])
  }

  /** Identifiers are not empty and use a fixed set of ASCII characters. */
  predicate IsIdentifier(text: string) {
    text != "" && forall i :: 0 <= i < |text| ==> IsIdentifierChar(text[i])
  }

  predicate IsIdentifierChar(c: char) {
    IsLetter(c) || IsDigit(c) || c in {'.', '_', '-', '/', ':', '@'}
  }

  /** The choice with the first occurrence of its value. */
  predicate IsFirst(choices: seq<Choice>, i: nat)
    requires i < |choices|
  {
    forall j :: 0 <= j < i ==> choices[j].value != choices[i].value
  }

  /** The positions of the first occurrences. */
  function Firsts(choices: seq<Choice>): (r: seq<nat>)
    ensures forall a :: 0 <= a < |r| ==> r[a] < |choices|
    decreases |choices|
  {
    if choices == [] then []
    else
      var last := |choices| - 1;
      Firsts(choices[..last]) + if IsFirst(choices, last) then [last] else []
  }

  function FirstOccurrences(choices: seq<Choice>): (r: seq<Choice>)
    ensures |r| == |Firsts(choices)| && forall a :: 0 <= a < |r| ==> r[a] == choices[Firsts(choices)[a]]
  {
    var firsts := Firsts(choices);
    seq(|firsts|, a requires 0 <= a < |firsts| => choices[firsts[a]])
  }

  /** The listed models, or the failure that replaces the whole list. */
  function Models(options: Json): Result<seq<Choice>, Failure> {
    match FindModelOption(options)
    case Err(failure) => Err(failure)
    case Ok(option) =>
      match Member(option, "options")
      case None => Err(NotASelect)
      case Some(select) =>
        if forall i :: 0 <= i < |Collected(select)| ==> IsIdentifier(Collected(select)[i].value)
        then Ok(FirstOccurrences(Collected(select)))
        else Err(BadModelId)
  }

  lemma {:induction false} FirstOccurrencesStep(choices: seq<Choice>)
    requires choices != []
    ensures var last := |choices| - 1;
            FirstOccurrences(choices)
            == FirstOccurrences(choices[..last]) + if IsFirst(choices, last) then [choices[last]] else []
  {
  }

  /** Keeps the first occurrence of every value, unless some value is no identifier. */
  method KeepFirst(choices: seq<Choice>) returns (kept: Option<seq<Choice>>)
    ensures kept == if forall i :: 0 <= i < |choices| ==> IsIdentifier(choices[i].value)
                    then Some(FirstOccurrences(choices)) else None
  {
    var seen: set<string> := {};
    var models: seq<Choice> := [];
    var i := 0;
    while i < |choices|
      invariant i <= |choices|
      invariant forall value :: value in seen <==> exists j :: 0 <= j < i && choices[j].value == value
      invariant models == FirstOccurrences(choices[..i])
      invariant forall j :: 0 <= j < i ==> IsIdentifier(choices[j].value)
    {
      FirstOccurrencesStep(choices[..i + 1]);
      assert choices[..i + 1][..i] == choices[..i];
      if choices[i].value !in seen {
        seen := seen + {choices[i].value};
        if !IsIdentifier(choices[i].value) {
          return None;
        }
        models := models + [choices[i]];
      }
      i := i + 1;
    }
    assert choices[..|choices|] == choices;
    return Some(models);
  }

  method ModelDescriptors(options: Json) returns (models: Result<seq<Choice>, Failure>)
    ensures models == Models(options)
  {
    var option := FindModelOption(options);
    if option.Err? {
      return Err(option.error);
    }
    var select := Member(option.value, "options");
    if select.None? {
      return Err(NotASelect);
    }
    var output := new Output();
    CollectSelectValues(select.value, output);
    assert output.choices == Collected(select.value);
    var kept := KeepFirst(output.choices);
    return if kept.Some? then Ok(kept.value) else Err(BadModelId);
  }

  // ---------------------------------------------------------------- what the listing is

  /** The positions kept increase, and are all the first occurrences. */
  lemma {:induction false} FirstsAre(choices: seq<Choice>)
    ensures var firsts := Firsts(choices);
            && (forall a :: 0 <= a < |firsts| ==> IsFirst(choices, firsts[a]))
            && (forall a, b :: 0 <= a < b < |firsts| ==> firsts[a] < firsts[b])
            && (forall i :: 0 <= i < |choices| && IsFirst(choices, i) ==> i in firsts)
    decreases |choices|
  {
    if choices != [] {
      var last, before := |choices| - 1, choices[..|choices| - 1];
      FirstsAre(before);
      forall i | 0 <= i < last
        ensures IsFirst(choices, i) <==> IsFirst(before, i)
      {
      }
    }
  }

  lemma {:induction false} FirstOf(choices: seq<Choice>, value: string) returns (i: nat)
    requires Lists(choices, value)
    ensures i < |choices| && choices[i].value == value && IsFirst(choices, i)
  {
    i := 0;
    while choices[i].value != value
      invariant i < |choices| && forall j :: 0 <= j < i ==> choices[j].value != value
      invariant exists k :: i <= k < |choices| && choices[k].value == value
      decreases |choices| - i
    {
      i := i + 1;
    }
  }

  /** Each value exactly once, with the name of its first occurrence, in the order of first occurrences. */
  lemma {:induction false} FirstOccurrencesAre(choices: seq<Choice>)
    ensures var kept := FirstOccurrences(choices);
            && (forall value :: Lists(kept, value) <==> Lists(choices, value))
            && (forall a, b :: 0 <= a < b < |kept| ==> kept[a].value != kept[b].value)
            && (forall a, b :: 0 <= a < b < |kept| ==> Firsts(choices)[a] < Firsts(choices)[b])
  {
    var kept, firsts := FirstOccurrences(choices), Firsts(choices);
    FirstsAre(choices);
    forall value
      ensures Lists(kept, value) <==> Lists(choices, value)
    {
      if Lists(choices, value) {
        var i := FirstOf(choices, value);
        var a :| 0 <= a < |firsts| && firsts[a] == i;
        assert kept[a].value == value;
      }
      if Lists(kept, value) {
        var a :| 0 <= a < |kept| && kept[a].value == value;
        assert choices[firsts[a]].value == value;
      }
    }
  }

  // ---------------------------------------------------------------- selecting one model

  datatype Selection = Selection(configId: string, current: Option<string>)

  function ExactModelSelection(options: Json, desired: string): Result<Selection, Failure> {
    match FindModelOption(options)
    case Err(failure) => Err(failure)
    case Ok(option) =>
      var id := AsText(Member(option, "id"));
      if id.None? then Err(NoId)
      else
        match Member(option, "options")
        case None => Err(NotASelect)
        case Some(select) =>
          if ContainsSelectValue(select, desired)
          then Ok(Selection(id.value, AsText(Member(option, "currentValue"))))
          else Err(NotAdvertised)
  }

  /** The model option has a text id. */
  predicate HasId(options: Json) {
    match FindModelOption(options)
    case Err(_) => false
    case Ok(option) => AsText(Member(option, "id")).Some?
  }

  /** When the listing succeeds, a model is listed exactly when selecting it succeeds. */
  lemma {:induction false} ListedIffSelectable(options: Json, desired: string)
    requires Models(options).Ok? && HasId(options)
    ensures Lists(Models(options).value, desired) <==> ExactModelSelection(options, desired).Ok?
  {
    var select := Member(FindModelOption(options).value, "options").value;
    ContainsIffCollected(select, desired);
    FirstOccurrencesAre(Collected(select));
  }

  // ---------------------------------------------------------------- which option, and under which name

  predicate HasText(value: Json, key: string, text: string) {
    value.JObject? && key in value.members && value.members[key] == JString(text)
  }

  /** The option is the first of the category `model`. */
  predicate IsModelOption(options: Json, i: nat) {
    && options.JArray? && i < |options.items| && HasText(options.items[i], "category", "model")
    && forall j :: 0 <= j < i ==> !HasText(options.items[j], "category", "model")
  }

  lemma {:induction false} ModelOptionIs(options: Json, i: nat)
    requires IsModelOption(options, i)
    ensures FindModelOption(options) == Ok(options.items[i])
  {
    FirstModelOptionIs(options.items, i);
  }

  lemma {:induction false} FirstModelOptionIs(items: seq<Json>, i: nat)
    requires i < |items| && HasText(items[i], "category", "model")
    requires forall j :: 0 <= j < i ==> !HasText(items[j], "category", "model")
    ensures FirstModelOption(items) == Ok(items[i])
    decreases i
  {
    CategoryIs(items[0]);
    if i > 0 {
      FirstModelOptionIs(items[1..], i - 1);
    }
  }

  lemma {:induction false} CategoryIs(item: Json)
    ensures AsText(Member(item, "category")) == Some("model") <==> HasText(item, "category", "model")
  {
  }

  /** Listing and selecting look at the first option of the category `model`, and fail without one. */
  lemma {:induction false} ModelOptionIff(options: Json)
    ensures FindModelOption(options).Ok? <==> exists i: nat :: IsModelOption(options, i)
    ensures forall i: nat :: IsModelOption(options, i) ==> FindModelOption(options) == Ok(options.items[i])
    ensures FindModelOption(options) == Err(NotAnArray) <==> !options.JArray?
  {
    forall i: nat | IsModelOption(options, i)
      ensures FindModelOption(options) == Ok(options.items[i])
    {
      ModelOptionIs(options, i);
    }
    if FindModelOption(options).Ok? {
      var i := FoundAt(options.items);
      assert IsModelOption(options, i);
    }
    if options.JArray? && FirstModelOption(options.items).Err? {
      NoneFound(options.items);
    }
  }

  lemma {:induction false} FoundAt(items: seq<Json>) returns (i: nat)
    requires FirstModelOption(items).Ok?
    ensures i < |items| && HasText(items[i], "category", "model")
    ensures forall j :: 0 <= j < i ==> !HasText(items[j], "category", "model")
    decreases |items|
  {
    CategoryIs(items[0]);
    if HasText(items[0], "category", "model") {
      return 0;
    }
    var later := FoundAt(items[1..]);
    i := later + 1;
    assert forall j :: 0 < j < i ==> items[j] == items[1..][j - 1];
  }

  lemma {:induction false} NoneFound(items: seq<Json>)
    requires FirstModelOption(items).Err?
    ensures FirstModelOption(items) == Err(NoModelOption)
    decreases |items|
  {
    if items != [] {
      NoneFound(items[1..]);
    }
  }

  /** The name shown with an object's value: its own `name`, if that is a text, and otherwise the value. */
  function ShownName(members: map<string, Json>, value: string): string {
    if "name" in members && members["name"].JString? then members["name"].text else value
  }

  /** The name at the first place where the value stands, looking at an object before its options. */
  function NameAt(tree: Json, value: string): Option<string>
    decreases tree, 1
  {
    match tree
    case JArray(items) => NameWithin(tree, 0, value)
    case JObject(members) =>
      if HasText(tree, "value", value) then Some(ShownName(members, value))
      else if "options" in members then NameAt(members["options"], value) else None
    case _ => None
  }

  /** The same among the items from number i on. */
  function NameWithin(tree: Json, i: nat, value: string): Option<string>
    requires tree.JArray? && i <= |tree.items|
    decreases tree, 0, |tree.items| - i
  {
    if i == |tree.items| then None
    else if NameAt(tree.items[i], value).Some? then NameAt(tree.items[i], value)
    else NameWithin(tree, i + 1, value)
  }

  /** The name of the first choice with the value. */
  function FirstName(choices: seq<Choice>, value: string): Option<string> {
    if choices == [] then None
    else if choices[0].value == value then Some(choices[0].name) else FirstName(choices[1..], value)
  }

  lemma {:induction false} FirstNameConcat(a: seq<Choice>, b: seq<Choice>, value: string)
    ensures FirstName(a + b, value) == if FirstName(a, value).Some? then FirstName(a, value) else FirstName(b, value)
    decreases |a|
  {
    if a == [] {
      assert a + b == b;
    } else {
      assert (a + b)[1..] == a[1..] + b;
      FirstNameConcat(a[1..], b, value);
    }
  }

  lemma {:induction false} FirstNameIs(choices: seq<Choice>, i: nat)
    requires i < |choices| && IsFirst(choices, i)
    ensures FirstName(choices, choices[i].value) == Some(choices[i].name)
    decreases i
  {
    if i > 0 {
      assert choices[0].value != choices[i].value;
      assert forall j :: 0 <= j < i - 1 ==> choices[1..][j] == choices[j + 1];
      FirstNameIs(choices[1..], i - 1);
    }
  }

  lemma {:induction false} NameIsFirst(tree: Json, value: string)
    ensures NameAt(tree, value) == FirstName(Collected(tree), value)
    decreases tree, 1
  {
    match tree
    case JArray(items) =>
      NamesAreFirst(tree, |items|, value);
      assert NameWithin(tree, |items|, value) == None;
    case JObject(members) =>
      var inner := if "options" in members then Collected(members["options"]) else [];
      if "options" in members {
        NameIsFirst(members["options"], value);
      }
      FirstNameConcat(Own(tree), inner, value);
      OwnName(tree, value);
    case _ =>
  }

  lemma {:induction false} OwnName(tree: Json, value: string)
    requires tree.JObject?
    ensures FirstName(Own(tree), value) == if HasText(tree, "value", value) then Some(ShownName(tree.members, value)) else None
  {
    var own := Own(tree);
    if own != [] {
      assert own[1..] == [];
    }
  }

  /** The first n items and those after them. */
  lemma {:induction false} NamesAreFirst(tree: Json, n: nat, value: string)
    requires tree.JArray? && n <= |tree.items|
    ensures var first := FirstName(CollectedAll(tree, n), value);
            NameWithin(tree, 0, value) == if first.Some? then first else NameWithin(tree, n, value)
    decreases tree, 0, n
  {
    if n > 0 {
      NamesAreFirst(tree, n - 1, value);
      NameIsFirst(tree.items[n - 1], value);
      FirstNameConcat(CollectedAll(tree, n - 1), Collected(tree.items[n - 1]), value);
    }
  }

  /** When the listing succeeds, each value in the option's tree is listed, with the name at its first place. */
  lemma {:induction false} ListedNames(options: Json, i: nat)
    requires IsModelOption(options, i) && Models(options).Ok?
    ensures var (option, models) := (options.items[i], Models(options).value);
            && "options" in option.members
            && (forall a :: 0 <= a < |models| ==>
                  NameAt(option.members["options"], models[a].value) == Some(models[a].name))
            && (forall value :: Lists(models, value) <==> NameAt(option.members["options"], value).Some?)
  {
    ModelOptionIs(options, i);
    var select := options.items[i].members["options"];
    var choices := Collected(select);
    FirstOccurrencesAre(choices);
    forall a | 0 <= a < |FirstOccurrences(choices)|
      ensures NameAt(select, FirstOccurrences(choices)[a].value) == Some(FirstOccurrences(choices)[a].name)
    {
      NameIsFirst(select, FirstOccurrences(choices)[a].value);
      KeptName(choices, a);
    }
    forall value
      ensures Lists(choices, value) <==> NameAt(select, value).Some?
    {
      NameIsFirst(select, value);
      ListedHasName(choices, value);
    }
  }

  lemma {:induction false} KeptName(choices: seq<Choice>, a: nat)
    requires a < |FirstOccurrences(choices)|
    ensures var kept := FirstOccurrences(choices)[a];
            FirstName(choices, kept.value) == Some(kept.name)
  {
    KeptIsFirst(choices, a);
    FirstNameIs(choices, Firsts(choices)[a]);
  }

  lemma {:induction false} KeptIsFirst(choices: seq<Choice>, a: nat)
    requires a < |Firsts(choices)|
    ensures IsFirst(choices, Firsts(choices)[a])
    decreases |choices|
  {
    var before := choices[..|choices| - 1];
    if a < |Firsts(before)| {
      KeptIsFirst(before, a);
      forall j | 0 <= j < Firsts(before)[a]
        ensures choices[j].value != choices[Firsts(before)[a]].value
      {
        assert before[j] == choices[j];
      }
    }
  }

  lemma {:induction false} ListedHasName(choices: seq<Choice>, value: string)
    ensures Lists(choices, value) <==> FirstName(choices, value).Some?
    decreases |choices|
  {
    if choices != [] {
      ListedHasName(choices[1..], value);
      ListsConcat([choices[0]], choices[1..], value);
      assert [choices[0]] + choices[1..] == choices;
      assert choices[0].value == value ==> [choices[0]][0].value == value;
    }
  }

  /** A model is selected in that option exactly if the option has a text id and offers the value. */
  lemma {:induction false} SelectedIff(options: Json, i: nat, desired: string)
    requires IsModelOption(options, i)
    ensures var (members, selected) := (options.items[i].members, ExactModelSelection(options, desired));
            && (selected.Ok? <==> "id" in members && members["id"].JString? && "options" in members
                                  && NameAt(members["options"], desired).Some?)
            && (selected.Ok? ==> HasText(options.items[i], "id", selected.value.configId)
                                 && forall text :: selected.value.current == Some(text) <==>
                                                   HasText(options.items[i], "currentValue", text))
  {
    ModelOptionIs(options, i);
    var members := options.items[i].members;
    if "options" in members {
      ContainsIffCollected(members["options"], desired);
      NameIsFirst(members["options"], desired);
      ListedHasName(Collected(members["options"]), desired);
    }
  }

  /** Somewhere in the tree stands a value that no model id can have. */
  ghost predicate OffersNoIdentifier(select: Json) {
    exists value :: ContainsSelectValue(select, value) && !IsIdentifier(value)
  }

  /**
   * The listing fails, for all models at once, exactly when there is no model option, the option has no `options`,
   * or some value in its tree is no identifier.
   */
  lemma {:induction false} ListingFailsIff(options: Json)
    ensures Models(options).Err? <==>
              match FindModelOption(options)
              case Err(_) => true
              case Ok(option) =>
                match Member(option, "options")
                case None => true
                case Some(select) => OffersNoIdentifier(select)
  {
    if FindModelOption(options).Ok? && Member(FindModelOption(options).value, "options").Some? {
      var select := Member(FindModelOption(options).value, "options").value;
      ValuesAreChoices(select);
      assert Models(options).Err? <==>
               !(forall i :: 0 <= i < |Collected(select)| ==> IsIdentifier(Collected(select)[i].value));
    }
  }

  lemma {:induction false} ValuesAreChoices(select: Json)
    ensures OffersNoIdentifier(select) <==>
              exists i :: 0 <= i < |Collected(select)| && !IsIdentifier(Collected(select)[i].value)
  {
    var choices := Collected(select);
    if OffersNoIdentifier(select) {
      var value :| ContainsSelectValue(select, value) && !IsIdentifier(value);
      ContainsIffCollected(select, value);
    }
    if i :| 0 <= i < |choices| && !IsIdentifier(choices[i].value) {
      ContainsIffCollected(select, choices[i].value);
      assert Lists(choices, choices[i].value);
    }
  }

  function Offer(value: string): Json {
    JObject(map["value" := JString(value)])
  }

  /** One model option that offers two values. */
  function TwoOffers(good: string, bad: string): Json {
    JArray([JObject(map["category" := JString("model"), "id" := JString("m"), "options" := JArray([Offer(good), Offer(bad)])])])
  }

  /** One value with a space hides every model from the listing, while the other model can still be selected. */
  lemma {:induction false} OneBadValueHidesAll()
    ensures Models(TwoOffers("a", " ")) == Err(BadModelId)
    ensures ExactModelSelection(TwoOffers("a", " "), "a").Ok? && IsIdentifier("a")
  {
    var options := TwoOffers("a", " ");
    var select := JArray([Offer("a"), Offer(" ")]);
    assert "category"[0] == 'c' && "id"[0] == 'i' && "options"[0] == 'o';
    assert Member(options.items[0], "options") == Some(select);
    assert ContainsSelectValue(select.items[0], "a");
    assert ContainsSelectValue(select.items[1], " ");
    assert " "[0] == ' ' && !IsIdentifierChar(' ');
    assert !IsIdentifier(" ");
    assert OffersNoIdentifier(select);
    ListingFailsIff(options);
  }
}
