/**
 Semantic values with their mapping order kept, the search for the first difference between two of
 them, and the proof that the search is exact: it finds nothing exactly when the two values are the
 same JSON, and what it reports is really there and really different.
 */
module OrderedValues {
  import opened Wrappers

  /** A JSON number; the transcript's own fields are all naturals. */
  type OtherNumber(==,!new)
  datatype Number = Natural(n: nat) | Other(number: OtherNumber)

  datatype Field = Field(name: string, value: OrderedValue)

  datatype OrderedValue =
    | Null
    | Bool(flag: bool)
    | Numeric(number: Number)
    | Text(text: string)
    | Sequence(items: seq<OrderedValue>)
    | Mapping(fields: seq<Field>)

  datatype Json =
    | JsonNull
    | JsonBool(flag: bool)
    | JsonNumber(number: Number)
    | JsonString(text: string)
    | JsonArray(items: seq<Json>)
    | JsonObject(fields: map<string, Json>)

  /** Collecting fields into an object forgets their order; a repeated name keeps its last value. */
  function IntoJson(value: OrderedValue): Json
    decreases value, 0
  {
    match value
    case Null => JsonNull
    case Bool(flag) => JsonBool(flag)
    case Numeric(number) => JsonNumber(number)
    case Text(text) => JsonString(text)
    case Sequence(items) => JsonArray(ItemsIntoJson(items))
    case Mapping(fields) => JsonObject(FieldsIntoJson(fields))
  }

  function ItemsIntoJson(items: seq<OrderedValue>): (r: seq<Json>)
    ensures |r| == |items|
    ensures forall k | 0 <= k < |items| :: r[k] == IntoJson(items[k])
    decreases items, 1
  {
    if items == [] then [] else [IntoJson(items[0])] + ItemsIntoJson(items[1..])
  }

  function FieldsIntoJson(fields: seq<Field>): map<string, Json>
    decreases fields, 1
  {
    if fields == [] then map[]
    else
      var last := fields[|fields| - 1];
      FieldsIntoJson(fields[..|fields| - 1])[last.name := IntoJson(last.value)]
  }

  ghost predicate DistinctNames(fields: seq<Field>) {
    forall j, k | 0 <= j < k < |fields| :: fields[j].name != fields[k].name
  }

  /** No mapping anywhere in the value repeats a name. */
  ghost predicate Distinct(value: OrderedValue)
    decreases value
  {
    match value
    case Sequence(items) => forall k | 0 <= k < |items| :: Distinct(items[k])
    case Mapping(fields) => DistinctNames(fields) && forall k | 0 <= k < |fields| :: Distinct(fields[k].value)
    case _ => true
  }

  // ----- Paths -----

  datatype PathStep = At(index: nat) | Named(name: string)

  function Digit(d: nat): char
    requires d < 10
  {
    "0123456789"[d]
  }

  function Decimal(n: nat): string {
    if n < 10 then [Digit(n)] else Decimal(n / 10) + [Digit(n % 10)]
  }

  function IndexPath(path: string, index: nat): string {
    path + "[" + Decimal(index) + "]"
  }

  function JoinPath(parent: string, child: string): string {
    if parent == "" then child else parent + "." + child
  }

  function Extend(path: string, step: PathStep): string {
    match step
    case At(index) => IndexPath(path, index)
    case Named(name) => JoinPath(path, name)
  }

  /** The text of a path below a parent. */
  function Render(parent: string, steps: seq<PathStep>): string
    decreases |steps|
  {
    if steps == [] then parent else Render(Extend(parent, steps[0]), steps[1..])
  }

  function FindField(fields: seq<Field>, name: string): (r: Option<OrderedValue>)
    ensures r.Some? ==> exists k :: 0 <= k < |fields| && fields[k] == Field(name, r.value)
    ensures r.None? <==> forall k | 0 <= k < |fields| :: fields[k].name != name
  {
    if fields == [] then None
    else if fields[0].name == name then Some(fields[0].value)
    else FindField(fields[1..], name)
  }

  function ItemAt(items: seq<OrderedValue>, index: nat): Option<OrderedValue> {
    if index < |items| then Some(items[index]) else None
  }

  /** One step down from a value, if there is anything there. */
  function Child(value: Option<OrderedValue>, step: PathStep): Option<OrderedValue> {
    match (value, step)
    case (Some(Sequence(items)), At(index)) => ItemAt(items, index)
    case (Some(Mapping(fields)), Named(name)) => FindField(fields, name)
    case _ => None
  }

  function Follow(value: Option<OrderedValue>, steps: seq<PathStep>): Option<OrderedValue>
    decreases |steps|
  {
    if steps == [] then value else Follow(Child(value, steps[0]), steps[1..])
  }

  // ----- The search -----

  datatype ValueDifference = ValueDifference(path: string, expected: Option<Json>, actual: Option<Json>)

  function OptionIntoJson(value: Option<OrderedValue>): Option<Json> {
    match value
    case None => None
    case Some(present) => Some(IntoJson(present))
  }

  function Leaf(expected: Option<OrderedValue>, actual: Option<OrderedValue>, path: string): ValueDifference {
    ValueDifference(path, OptionIntoJson(expected), OptionIntoJson(actual))
  }

  function Longer(left: nat, right: nat): nat {
    if left < right then right else left
  }

  function FirstDifference(expected: OrderedValue, actual: OrderedValue, path: string): Option<ValueDifference>
    decreases expected, 0, 0
  {
    match (expected, actual)
    case (Sequence(left), Sequence(right)) => ItemsDifference(left, right, 0, path)
    case (Mapping(left), Mapping(right)) =>
      var inExpected := FieldsDifference(left, right, 0, path);
      if inExpected.Some? then inExpected else MissingDifference(left, right, 0, path)
    case _ => if expected == actual then None else Some(Leaf(Some(expected), Some(actual), path))
  }

  /** The element loop, which runs to the end of the longer sequence. */
  function ItemsDifference(left: seq<OrderedValue>, right: seq<OrderedValue>, index: nat, path: string)
    : Option<ValueDifference>
    decreases left, 1, Longer(|left|, |right|) - index
  {
    if index >= Longer(|left|, |right|) then None
    else
      var here := if index < |left| && index < |right| then
                    FirstDifference(left[index], right[index], IndexPath(path, index))
                  else Some(Leaf(ItemAt(left, index), ItemAt(right, index), IndexPath(path, index)));
      if here.Some? then here else ItemsDifference(left, right, index + 1, path)
  }

  /** The loop over the expected fields, each matched with the first actual field of its name. */
  function FieldsDifference(left: seq<Field>, right: seq<Field>, index: nat, path: string): Option<ValueDifference>
    decreases left, 1, |left| - index
  {
    if index >= |left| then None
    else
      var field, found := left[index], FindField(right, left[index].name);
      var fieldPath := JoinPath(path, field.name);
      var here := if found.Some? then FirstDifference(field.value, found.value, fieldPath)
                  else Some(Leaf(Some(field.value), None, fieldPath));
      if here.Some? then here else FieldsDifference(left, right, index + 1, path)
  }

  /** The loop over the actual fields for a name the expected mapping does not have. */
  function MissingDifference(left: seq<Field>, right: seq<Field>, index: nat, path: string): Option<ValueDifference>
    decreases |right| - index
  {
    if index >= |right| then None
    else if FindField(left, right[index].name).None? then
      Some(Leaf(None, Some(right[index].value), JoinPath(path, right[index].name)))
    else MissingDifference(left, right, index + 1, path)
  }

  // ----- Objects as maps of their fields -----

  lemma {:induction false} FieldsBecomeMap(fields: seq<Field>)
    requires DistinctNames(fields)
    ensures forall name :: name in FieldsIntoJson(fields) <==> FindField(fields, name).Some?
    ensures forall name | name in FieldsIntoJson(fields) ::
              FieldsIntoJson(fields)[name] == IntoJson(FindField(fields, name).value)
    decreases |fields|
  {
    if fields != [] {
      var n := |fields| - 1;
      FieldsBecomeMap(fields[..n]);
      forall name ensures FindField(fields, name) ==
          if fields[n].name == name then Some(fields[n].value) else FindField(fields[..n], name)
      {
        FindInPrefix(fields, name);
      }
    }
  }

  lemma {:induction false} FindInPrefix(fields: seq<Field>, name: string)
    requires DistinctNames(fields) && fields != []
    ensures var n := |fields| - 1;
            FindField(fields, name) ==
            if fields[n].name == name then Some(fields[n].value) else FindField(fields[..n], name)
    decreases |fields|
  {
    var n := |fields| - 1;
    if n > 0 {
      assert fields[..n][1..] == fields[1..][..n - 1];
      FindInPrefix(fields[1..], name);
    }
  }

  /** With distinct names, finding a field's own name finds that field. */
  lemma {:induction false} FindsItself(fields: seq<Field>, k: nat)
    requires DistinctNames(fields) && k < |fields|
    ensures FindField(fields, fields[k].name) == Some(fields[k].value)
  {
    var found := FindField(fields, fields[k].name);
    var j :| 0 <= j < |fields| && fields[j] == Field(fields[k].name, found.value);
    assert j == k;
  }

  // ----- The search is exact -----

  lemma {:induction false} NoDifferenceIsSameJson(expected: OrderedValue, actual: OrderedValue, path: string)
    requires Distinct(expected) && Distinct(actual)
    ensures FirstDifference(expected, actual, path) == None <==> IntoJson(expected) == IntoJson(actual)
    decreases expected, 0, 0
  {
    hide ItemsIntoJson, FieldsIntoJson, FindField, DistinctNames, ItemsAgreeFrom, FieldAgrees, ItemsDifference,
      FieldsDifference, MissingDifference;
    match (expected, actual)
    case (Sequence(left), Sequence(right)) =>
      ItemsExact(left, right, 0, path);
      ItemsAgree(left, right);
    case (Mapping(left), Mapping(right)) =>
      FieldsExact(left, right, 0, path);
      MissingExact(left, right, 0, path);
      ObjectsAgree(left, right);
    case _ =>
  }

  ghost predicate ItemAgrees(left: seq<OrderedValue>, right: seq<OrderedValue>, k: nat) {
    k < |left| && k < |right| && IntoJson(left[k]) == IntoJson(right[k])
  }

  ghost predicate ItemsAgreeFrom(left: seq<OrderedValue>, right: seq<OrderedValue>, index: nat) {
    forall k | index <= k < Longer(|left|, |right|) :: ItemAgrees(left, right, k)
  }

  lemma ItemsAgree(left: seq<OrderedValue>, right: seq<OrderedValue>)
    ensures ItemsAgreeFrom(left, right, 0) <==> ItemsIntoJson(left) == ItemsIntoJson(right)
  {
    hide IntoJson;
    if ItemsAgreeFrom(left, right, 0) {
      assert |left| < |right| ==> ItemAgrees(left, right, |left|);
      assert |right| < |left| ==> ItemAgrees(left, right, |right|);
      forall k | 0 <= k < |left| ensures ItemsIntoJson(left)[k] == ItemsIntoJson(right)[k] {
        assert ItemAgrees(left, right, k);
      }
      assert ItemsIntoJson(left) == ItemsIntoJson(right);
    }
    if ItemsIntoJson(left) == ItemsIntoJson(right) {
      forall k | 0 <= k < |left| ensures ItemAgrees(left, right, k) {
        assert ItemsIntoJson(left)[k] == ItemsIntoJson(right)[k];
      }
      assert |ItemsIntoJson(left)| == |left| && |ItemsIntoJson(right)| == |right|;
    }
  }

  lemma {:induction false} ItemsExact(left: seq<OrderedValue>, right: seq<OrderedValue>, index: nat, path: string)
    requires forall k | 0 <= k < |left| :: Distinct(left[k])
    requires forall k | 0 <= k < |right| :: Distinct(right[k])
    ensures ItemsDifference(left, right, index, path) == None <==> ItemsAgreeFrom(left, right, index)
    decreases left, 1, Longer(|left|, |right|) - index
  {
    hide IntoJson, FirstDifference, Distinct, IndexPath;
    if index < Longer(|left|, |right|) {
      if index < |left| && index < |right| {
        NoDifferenceIsSameJson(left[index], right[index], IndexPath(path, index));
      }
      ItemsExact(left, right, index + 1, path);
      assert ItemsAgreeFrom(left, right, index) <==>
             ItemAgrees(left, right, index) && ItemsAgreeFrom(left, right, index + 1);
    }
  }

  ghost predicate FieldAgrees(field: Field, right: seq<Field>) {
    var found := FindField(right, field.name);
    found.Some? && IntoJson(field.value) == IntoJson(found.value)
  }

  lemma {:induction false} FieldsExact(left: seq<Field>, right: seq<Field>, index: nat, path: string)
    requires forall k | 0 <= k < |left| :: Distinct(left[k].value)
    requires forall k | 0 <= k < |right| :: Distinct(right[k].value)
    ensures FieldsDifference(left, right, index, path) == None <==>
            (forall k | index <= k < |left| :: FieldAgrees(left[k], right))
    decreases left, 1, |left| - index
  {
    if index < |left| {
      var found := FindField(right, left[index].name);
      if found.Some? {
        NoDifferenceIsSameJson(left[index].value, found.value, JoinPath(path, left[index].name));
      }
      FieldsExact(left, right, index + 1, path);
    }
  }

  lemma {:induction false} MissingExact(left: seq<Field>, right: seq<Field>, index: nat, path: string)
    ensures MissingDifference(left, right, index, path) == None <==>
            (forall k | index <= k < |right| :: FindField(left, right[k].name).Some?)
    decreases |right| - index
  {
    if index < |right| {
      MissingExact(left, right, index + 1, path);
    }
  }

  ghost predicate FieldsAgree(left: seq<Field>, right: seq<Field>) {
    && (forall k | 0 <= k < |left| :: FieldAgrees(left[k], right))
    && (forall k | 0 <= k < |right| :: FindField(left, right[k].name).Some?)
  }

  lemma ObjectsAgree(left: seq<Field>, right: seq<Field>)
    requires DistinctNames(left) && DistinctNames(right)
    ensures FieldsIntoJson(left) == FieldsIntoJson(right) <==> FieldsAgree(left, right)
  {
    hide IntoJson, FieldsIntoJson, FieldsAgree, FindField, DistinctNames;
    if FieldsIntoJson(left) == FieldsIntoJson(right) {
      SameObjectFieldsAgree(left, right);
    }
    if FieldsAgree(left, right) {
      AgreeingFieldsSameObject(left, right);
    }
  }

  lemma SameObjectFieldsAgree(left: seq<Field>, right: seq<Field>)
    requires DistinctNames(left) && DistinctNames(right)
    requires FieldsIntoJson(left) == FieldsIntoJson(right)
    ensures FieldsAgree(left, right)
  {
    hide IntoJson, FieldsIntoJson, DistinctNames;
    FieldsBecomeMap(left);
    FieldsBecomeMap(right);
    forall k | 0 <= k < |left| ensures FieldAgrees(left[k], right) {
      FindsItself(left, k);
      assert left[k].name in FieldsIntoJson(right);
    }
    forall k | 0 <= k < |right| ensures FindField(left, right[k].name).Some? {
      FindsItself(right, k);
      assert right[k].name in FieldsIntoJson(left);
    }
  }

  lemma AgreeingFieldsSameObject(left: seq<Field>, right: seq<Field>)
    requires DistinctNames(left) && DistinctNames(right)
    requires FieldsAgree(left, right)
    ensures FieldsIntoJson(left) == FieldsIntoJson(right)
  {
    hide IntoJson, FieldsIntoJson, DistinctNames;
    FieldsBecomeMap(left);
    FieldsBecomeMap(right);
    forall name ensures FindField(left, name).Some? <==> FindField(right, name).Some?
                ensures FindField(left, name).Some? ==>
                        IntoJson(FindField(left, name).value) == IntoJson(FindField(right, name).value)
    {
      if FindField(left, name).Some? {
        var k :| 0 <= k < |left| && left[k] == Field(name, FindField(left, name).value);
        assert FieldAgrees(left[k], right);
      }
    }
  }

  // ----- What is reported is there -----

  /** A reported difference is what the two values hold at one path, and they hold different JSON there. */
  ghost predicate Reports(expected: OrderedValue, actual: OrderedValue, path: string, steps: seq<PathStep>,
                          difference: ValueDifference) {
    && difference.path == Render(path, steps)
    && difference.expected == OptionIntoJson(Follow(Some(expected), steps))
    && difference.actual == OptionIntoJson(Follow(Some(actual), steps))
    && difference.expected != difference.actual
  }

  lemma {:induction false} DifferenceIsReal(expected: OrderedValue, actual: OrderedValue, path: string)
    returns (steps: seq<PathStep>)
    requires Distinct(expected) && Distinct(actual)
    requires FirstDifference(expected, actual, path).Some?
    ensures Reports(expected, actual, path, steps, FirstDifference(expected, actual, path).value)
    decreases expected, 0, 0
  {
    steps := [];
    match (expected, actual)
    case (Sequence(left), Sequence(right)) =>
      var index, rest := ItemDifferenceIsReal(left, right, 0, path);
      steps := [At(index)] + rest;
    case (Mapping(left), Mapping(right)) =>
      if FieldsDifference(left, right, 0, path).Some? {
        var index, rest := FieldDifferenceIsReal(left, right, 0, path);
        FindsItself(left, index);
        steps := [Named(left[index].name)] + rest;
        assert steps[1..] == rest;
      } else {
        var index := MissingIsReal(left, right, 0, path);
        FindsItself(right, index);
        steps := [Named(right[index].name)];
        assert steps[1..] == [];
      }
    case _ =>
      DifferentLeaves(expected, actual, path);
  }

  lemma DifferentLeaves(expected: OrderedValue, actual: OrderedValue, path: string)
    requires Distinct(expected) && Distinct(actual)
    requires FirstDifference(expected, actual, path).Some?
    ensures IntoJson(expected) != IntoJson(actual)
  {
    NoDifferenceIsSameJson(expected, actual, path);
  }

  lemma {:induction false} ItemDifferenceIsReal(left: seq<OrderedValue>, right: seq<OrderedValue>, from: nat,
                                                path: string)
    returns (index: nat, rest: seq<PathStep>)
    requires forall k | 0 <= k < |left| :: Distinct(left[k])
    requires forall k | 0 <= k < |right| :: Distinct(right[k])
    requires ItemsDifference(left, right, from, path).Some?
    ensures var difference := ItemsDifference(left, right, from, path).value;
            && difference.path == Render(IndexPath(path, index), rest)
            && difference.expected == OptionIntoJson(Follow(ItemAt(left, index), rest))
            && difference.actual == OptionIntoJson(Follow(ItemAt(right, index), rest))
            && difference.expected != difference.actual
    decreases left, 1, Longer(|left|, |right|) - from
  {
    index, rest := from, [];
    if from < |left| && from < |right| {
      if FirstDifference(left[from], right[from], IndexPath(path, from)).Some? {
        rest := DifferenceIsReal(left[from], right[from], IndexPath(path, from));
      } else {
        index, rest := ItemDifferenceIsReal(left, right, from + 1, path);
      }
    }
  }

  lemma {:induction false} FieldDifferenceIsReal(left: seq<Field>, right: seq<Field>, from: nat, path: string)
    returns (index: nat, rest: seq<PathStep>)
    requires forall k | 0 <= k < |left| :: Distinct(left[k].value)
    requires forall k | 0 <= k < |right| :: Distinct(right[k].value)
    requires FieldsDifference(left, right, from, path).Some?
    ensures index < |left|
    ensures var difference := FieldsDifference(left, right, from, path).value;
            && difference.path == Render(JoinPath(path, left[index].name), rest)
            && difference.expected == OptionIntoJson(Follow(Some(left[index].value), rest))
            && difference.actual == OptionIntoJson(Follow(FindField(right, left[index].name), rest))
            && difference.expected != difference.actual
    decreases left, 1, |left| - from
  {
    index, rest := from, [];
    var found := FindField(right, left[from].name);
    if found.Some? {
      var fieldPath := JoinPath(path, left[from].name);
      if FirstDifference(left[from].value, found.value, fieldPath).Some? {
        rest := DifferenceIsReal(left[from].value, found.value, fieldPath);
      } else {
        index, rest := FieldDifferenceIsReal(left, right, from + 1, path);
      }
    }
  }

  lemma {:induction false} MissingIsReal(left: seq<Field>, right: seq<Field>, from: nat, path: string)
    returns (index: nat)
    requires MissingDifference(left, right, from, path).Some?
    ensures index < |right| && FindField(left, right[index].name).None?
    ensures MissingDifference(left, right, from, path) ==
            Some(Leaf(None, Some(right[index].value), JoinPath(path, right[index].name)))
    decreases |right| - from
  {
    index := from;
    if FindField(left, right[from].name).Some? {
      index := MissingIsReal(left, right, from + 1, path);
    }
  }

  /** Which transcript is called expected does not matter to whether a difference is found. */
  lemma SearchIsSymmetric(one: OrderedValue, other: OrderedValue, path: string)
    requires Distinct(one) && Distinct(other)
    ensures FirstDifference(one, other, path).Some? <==> FirstDifference(other, one, path).Some?
  {
    NoDifferenceIsSameJson(one, other, path);
    NoDifferenceIsSameJson(other, one, path);
  }
}
