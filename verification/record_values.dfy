/** The semantic value of each record, and the proof that it tells any two different records apart. */
module RecordValues {
  import opened Wrappers
  import opened WireState
  import opened Records
  import opened OrderedValues

  /** Distinct names everywhere, and different values give different JSON. */
  ghost predicate FaithfulOn<T(!new)>(encode: T -> OrderedValue) {
    && (forall value :: Distinct(encode(value)))
    && (forall one, other :: IntoJson(encode(one)) == IntoJson(encode(other)) ==> one == other)
  }

  /** How the values carried inside records are serialized, and the message when a record does not serialize. */
  datatype Serializer = Serializer(
    failure: RecordV1 -> Option<string>,
    metadata: HeaderMetadataV1 -> OrderedValue,
    state: StateProjectionV1 -> OrderedValue,
    action: ActionV1 -> OrderedValue,
    event: EventV1 -> OrderedValue,
    error: ErrorV1 -> OrderedValue,
    player: PlayerIdV1 -> OrderedValue,
    reason: LossReasonV1 -> OrderedValue)
  {
    ghost predicate Faithful() {
      && FaithfulOn(metadata) && FaithfulOn(state) && FaithfulOn(action) && FaithfulOn(event)
      && FaithfulOn(error) && FaithfulOn(player) && FaithfulOn(reason)
    }
  }

  function Count(n: nat): OrderedValue {
    Numeric(Natural(n))
  }

  function RequirementValue(requirement: SetRequirementV1): OrderedValue {
    Mapping([Field("set", Text(requirement.setCode)), Field("revision", Count(requirement.revision))])
  }

  function RequirementsValue(requirements: seq<SetRequirementV1>): OrderedValue {
    Sequence(seq(|requirements|, k requires 0 <= k < |requirements| => RequirementValue(requirements[k])))
  }

  function Names(record: RecordV1): seq<string> {
    match record
    case Header(_) => ["sequence", "record", "format", "format_version", "metadata"]
    case MatchCreated(_) => ["sequence", "record", "required_sets", "initial_state", "state_digest"]
    case Action(_) => ["sequence", "record", "step", "action"]
    case Event(_) => ["sequence", "record", "step", "index", "event"]
    case StepCompleted(_) => ["sequence", "record", "step", "event_count", "state_digest"]
    case StepRejected(_) => ["sequence", "record", "step", "error", "state_digest"]
    case FinalState(_) => ["sequence", "record", "final_state", "state_digest"]
    case MatchCompleted(_) =>
      ["sequence", "record", "step_count", "event_count", "state_digest", "winner", "reason"]
  }

  function Values(serializer: Serializer, record: RecordV1): (r: seq<OrderedValue>)
    ensures |r| == |Names(record)|
  {
    match record
    case Header(v) =>
      [Count(v.sequence), Text("header"), Text(v.format), Count(v.formatVersion), serializer.metadata(v.metadata)]
    case MatchCreated(v) =>
      [Count(v.sequence), Text("match_created"), RequirementsValue(v.requiredSets),
       serializer.state(v.initialState), Text(v.stateDigest)]
    case Action(v) => [Count(v.sequence), Text("action"), Count(v.step), serializer.action(v.action)]
    case Event(v) =>
      [Count(v.sequence), Text("event"), Count(v.step), Count(v.index), serializer.event(v.event)]
    case StepCompleted(v) =>
      [Count(v.sequence), Text("step_completed"), Count(v.step), Count(v.eventCount), Text(v.stateDigest)]
    case StepRejected(v) =>
      [Count(v.sequence), Text("step_rejected"), Count(v.step), serializer.error(v.error), Text(v.stateDigest)]
    case FinalState(v) =>
      [Count(v.sequence), Text("final_state"), serializer.state(v.finalState), Text(v.stateDigest)]
    case MatchCompleted(v) =>
      [Count(v.sequence), Text("match_completed"), Count(v.stepCount), Count(v.eventCount), Text(v.stateDigest),
       serializer.player(v.winner), serializer.reason(v.reason)]
  }

  function Fields(serializer: Serializer, record: RecordV1): (r: seq<Field>)
    ensures |r| == |Names(record)|
  {
    var names, values := Names(record), Values(serializer, record);
    seq(|names|, k requires 0 <= k < |names| => Field(names[k], values[k]))
  }

  /** Drops every field of one name and keeps the rest in order. */
  function Retain(fields: seq<Field>, name: string): seq<Field> {
    if fields == [] then []
    else
      var before, last := Retain(fields[..|fields| - 1], name), fields[|fields| - 1];
      if last.name == name then before else before + [last]
  }

  function RemoveMappingField(value: OrderedValue, name: string): OrderedValue {
    match value
    case Mapping(fields) => Mapping(Retain(fields, name))
    case _ => value
  }

  function RecordValue(serializer: Serializer, includeMetadata: bool, record: RecordV1): OrderedValue {
    var value := Mapping(Fields(serializer, record));
    if !includeMetadata && record.Header? then RemoveMappingField(value, "metadata") else value
  }

  /** The same record, apart from header metadata when that is not compared. */
  ghost predicate SameRecord(includeMetadata: bool, one: RecordV1, other: RecordV1) {
    if !includeMetadata && one.Header? && other.Header? then
      one.header == other.header.(metadata := one.header.metadata)
    else one == other
  }

  // ----- Objects whose fields line up -----

  lemma {:induction false} AlignedObjects(left: seq<Field>, right: seq<Field>)
    requires |left| == |right| && DistinctNames(left)
    requires forall k | 0 <= k < |left| :: left[k].name == right[k].name
    ensures FieldsIntoJson(left) == FieldsIntoJson(right) <==>
            forall k | 0 <= k < |left| :: IntoJson(left[k].value) == IntoJson(right[k].value)
  {
    hide IntoJson, FieldsIntoJson;
    FieldsBecomeMap(left);
    FieldsBecomeMap(right);
    if FieldsIntoJson(left) == FieldsIntoJson(right) {
      forall k | 0 <= k < |left| ensures IntoJson(left[k].value) == IntoJson(right[k].value) {
        FindsItself(left, k);
        FindsItself(right, k);
        assert left[k].name in FieldsIntoJson(left);
      }
    }
    if forall k | 0 <= k < |left| :: IntoJson(left[k].value) == IntoJson(right[k].value) {
      forall k | 0 <= k < |left| ensures FieldAgrees(left[k], right) {
        FindsItself(right, k);
      }
      forall k | 0 <= k < |right| ensures FindField(left, right[k].name).Some? {
        FindsItself(left, k);
      }
      AgreeingFieldsSameObject(left, right);
    }
  }

  lemma NamesAreDistinct(record: RecordV1)
    ensures forall j, k | 0 <= j < k < |Names(record)| :: Names(record)[j] != Names(record)[k]
  {
  }

  // ----- Dropping header metadata -----

  lemma {:induction false} RetainKeeps(fields: seq<Field>, name: string)
    requires forall k | 0 <= k < |fields| :: fields[k].name != name
    ensures Retain(fields, name) == fields
  {
    if fields != [] {
      RetainKeeps(fields[..|fields| - 1], name);
      assert fields == fields[..|fields| - 1] + [fields[|fields| - 1]];
    }
  }

  /** The fields that are compared: all of them, or all but the header's metadata, which comes last. */
  function ComparedFields(serializer: Serializer, includeMetadata: bool, record: RecordV1): (r: seq<Field>)
    ensures r <= Fields(serializer, record) && |r| >= 2
  {
    var fields := Fields(serializer, record);
    if !includeMetadata && record.Header? then fields[..4] else fields
  }

  lemma RecordValueIsMapping(serializer: Serializer, includeMetadata: bool, record: RecordV1)
    ensures RecordValue(serializer, includeMetadata, record) ==
            Mapping(ComparedFields(serializer, includeMetadata, record))
  {
    if !includeMetadata && record.Header? {
      var fields := Fields(serializer, record);
      NamesAreDistinct(record);
      assert fields[4].name == Names(record)[4] == "metadata";
      forall k | 0 <= k < 4 ensures fields[..4][k].name != "metadata" {
        assert fields[k].name == Names(record)[k];
      }
      RetainKeeps(fields[..4], "metadata");
    }
  }

  // ----- Records are told apart -----

  lemma RequirementsAreDistinct(requirements: seq<SetRequirementV1>)
    ensures Distinct(RequirementsValue(requirements))
  {
    forall k | 0 <= k < |requirements| ensures Distinct(RequirementsValue(requirements).items[k]) {
      var fields := RequirementValue(requirements[k]).fields;
      assert |fields[0].name| == 3 && |fields[1].name| == 8;
      assert Distinct(fields[0].value) && Distinct(fields[1].value);
    }
  }

  lemma RecordIsDistinct(serializer: Serializer, includeMetadata: bool, record: RecordV1)
    requires serializer.Faithful()
    ensures DistinctNames(ComparedFields(serializer, includeMetadata, record))
    ensures Distinct(RecordValue(serializer, includeMetadata, record))
  {
    hide Retain, RequirementsValue, IntoJson;
    var fields := ComparedFields(serializer, includeMetadata, record);
    RecordValueIsMapping(serializer, includeMetadata, record);
    NamesAreDistinct(record);
    assert forall k | 0 <= k < |fields| :: fields[k].name == Names(record)[k];
    ValuesAreDistinct(serializer, record);
    assert forall k | 0 <= k < |fields| :: fields[k].value == Values(serializer, record)[k];
  }

  lemma ValuesAreDistinct(serializer: Serializer, record: RecordV1)
    requires serializer.Faithful()
    ensures forall k | 0 <= k < |Values(serializer, record)| :: Distinct(Values(serializer, record)[k])
  {
    hide RequirementsValue, IntoJson;
    if record.MatchCreated? {
      RequirementsAreDistinct(record.created.requiredSets);
    }
  }

  lemma RequirementTold(one: SetRequirementV1, other: SetRequirementV1)
    ensures IntoJson(RequirementValue(one)) == IntoJson(RequirementValue(other)) <==> one == other
  {
    hide FieldsIntoJson;
    var left, right := RequirementValue(one).fields, RequirementValue(other).fields;
    assert |left[0].name| == 3 && |left[1].name| == 8;
    AlignedObjects(left, right);
    if IntoJson(RequirementValue(one)) == IntoJson(RequirementValue(other)) {
      assert IntoJson(left[0].value) == IntoJson(right[0].value);
      assert IntoJson(left[1].value) == IntoJson(right[1].value);
    }
  }

  lemma RequirementsTold(one: seq<SetRequirementV1>, other: seq<SetRequirementV1>)
    ensures IntoJson(RequirementsValue(one)) == IntoJson(RequirementsValue(other)) <==> one == other
  {
    hide RequirementValue;
    var left, right := RequirementsValue(one).items, RequirementsValue(other).items;
    if ItemsIntoJson(left) == ItemsIntoJson(right) {
      assert |left| == |right|;
      forall k | 0 <= k < |one| ensures one[k] == other[k] {
        assert ItemsIntoJson(left)[k] == ItemsIntoJson(right)[k];
        RequirementTold(one[k], other[k]);
      }
    }
  }

  predicate SameKind(one: RecordV1, other: RecordV1) {
    match one
    case Header(_) => other.Header?
    case MatchCreated(_) => other.MatchCreated?
    case Action(_) => other.Action?
    case Event(_) => other.Event?
    case StepCompleted(_) => other.StepCompleted?
    case StepRejected(_) => other.StepRejected?
    case FinalState(_) => other.FinalState?
    case MatchCompleted(_) => other.MatchCompleted?
  }

  lemma SecondNamesKind(serializer: Serializer, includeMetadata: bool, record: RecordV1)
    ensures ComparedFields(serializer, includeMetadata, record)[1] == Field("record", Values(serializer, record)[1])
  {
    assert Fields(serializer, record)[1].name == Names(record)[1] == "record";
  }

  lemma KindIsKept(serializer: Serializer, includeMetadata: bool, record: RecordV1)
    requires serializer.Faithful()
    ensures var json := FieldsIntoJson(ComparedFields(serializer, includeMetadata, record));
            "record" in json && json["record"] == IntoJson(Values(serializer, record)[1])
  {
    SecondNamesKind(serializer, includeMetadata, record);
    hide FieldsIntoJson, RecordValue, IntoJson, Distinct, DistinctNames, FindField, ComparedFields, Values;
    var fields := ComparedFields(serializer, includeMetadata, record);
    RecordIsDistinct(serializer, includeMetadata, record);
    FieldsBecomeMap(fields);
    FindsItself(fields, 1);
    assert "record" in FieldsIntoJson(fields);
  }

  lemma KindsAreTold(serializer: Serializer, includeMetadata: bool, one: RecordV1, other: RecordV1)
    requires serializer.Faithful() && !SameKind(one, other)
    ensures FieldsIntoJson(ComparedFields(serializer, includeMetadata, one)) !=
            FieldsIntoJson(ComparedFields(serializer, includeMetadata, other))
  {
    hide FieldsIntoJson, ComparedFields, SameKind, Values;
    KindIsKept(serializer, includeMetadata, one);
    KindIsKept(serializer, includeMetadata, other);
    KindTexts(serializer, one, other);
  }

  lemma KindTexts(serializer: Serializer, one: RecordV1, other: RecordV1)
    requires !SameKind(one, other)
    ensures Values(serializer, one)[1].Text? && Values(serializer, other)[1].Text?
    ensures Values(serializer, one)[1] != Values(serializer, other)[1]
  {
  }

  ghost predicate SameJson(these: seq<OrderedValue>, those: seq<OrderedValue>, count: nat)
    requires count <= |these| == |those|
  {
    forall k | 0 <= k < count :: IntoJson(these[k]) == IntoJson(those[k])
  }

  function ComparedCount(includeMetadata: bool, record: RecordV1): (r: nat)
    ensures r <= |Names(record)|
  {
    if !includeMetadata && record.Header? then 4 else |Names(record)|
  }

  /** The values of two records of one kind give the same JSON throughout exactly for the same record. */
  lemma ValuesAreTold(serializer: Serializer, includeMetadata: bool, one: RecordV1, other: RecordV1)
    requires serializer.Faithful() && SameKind(one, other)
    ensures SameJson(Values(serializer, one), Values(serializer, other), ComparedCount(includeMetadata, one)) <==>
            SameRecord(includeMetadata, one, other)
  {
    hide SameJson, SameRecord, Values, Serializer.Faithful;
    if SameJson(Values(serializer, one), Values(serializer, other), ComparedCount(includeMetadata, one)) {
      if one.MatchCreated? {
        CreationsAreTold(serializer, includeMetadata, one, other);
      } else {
        SameValuesSameRecord(serializer, includeMetadata, one, other);
      }
    }
    if SameRecord(includeMetadata, one, other) {
      SameRecordSameValues(serializer, includeMetadata, one, other);
    }
  }

  lemma SameRecordSameValues(serializer: Serializer, includeMetadata: bool, one: RecordV1, other: RecordV1)
    requires SameKind(one, other) && SameRecord(includeMetadata, one, other)
    ensures SameJson(Values(serializer, one), Values(serializer, other), ComparedCount(includeMetadata, one))
  {
    hide RequirementsValue, IntoJson;
    if one.Header? {
      assert forall k | 0 <= k < 4 :: Values(serializer, one)[k] == Values(serializer, other)[k];
    }
  }

  lemma CreationsAreTold(serializer: Serializer, includeMetadata: bool, one: RecordV1, other: RecordV1)
    requires serializer.Faithful() && one.MatchCreated? && other.MatchCreated?
    requires SameJson(Values(serializer, one), Values(serializer, other), ComparedCount(includeMetadata, one))
    ensures SameRecord(includeMetadata, one, other)
  {
    hide RequirementsValue;
    var these, those := Values(serializer, one), Values(serializer, other);
    RequirementsTold(one.created.requiredSets, other.created.requiredSets);
    assert IntoJson(these[0]) == IntoJson(those[0]) && IntoJson(these[2]) == IntoJson(those[2]);
    assert IntoJson(these[3]) == IntoJson(those[3]) && IntoJson(these[4]) == IntoJson(those[4]);
  }

  lemma SameValuesSameRecord(serializer: Serializer, includeMetadata: bool, one: RecordV1, other: RecordV1)
    requires serializer.Faithful() && SameKind(one, other) && !one.MatchCreated?
    requires SameJson(Values(serializer, one), Values(serializer, other), ComparedCount(includeMetadata, one))
    ensures SameRecord(includeMetadata, one, other)
  {
    hide RequirementsValue;
    var these, those := Values(serializer, one), Values(serializer, other);
    var count := ComparedCount(includeMetadata, one);
    assert IntoJson(these[0]) == IntoJson(those[0]) && IntoJson(these[2]) == IntoJson(those[2])
      && IntoJson(these[3]) == IntoJson(those[3]);
    assert count > 4 ==> IntoJson(these[4]) == IntoJson(those[4]);
    assert count > 6 ==> IntoJson(these[5]) == IntoJson(those[5]) && IntoJson(these[6]) == IntoJson(those[6]);
  }

  /** Comparing two records finds a difference exactly when they are not the same record. */
  lemma RecordsExact(serializer: Serializer, includeMetadata: bool, one: RecordV1, other: RecordV1, path: string)
    requires serializer.Faithful()
    ensures Distinct(RecordValue(serializer, includeMetadata, one))
    ensures Distinct(RecordValue(serializer, includeMetadata, other))
    ensures var left := RecordValue(serializer, includeMetadata, one);
            var right := RecordValue(serializer, includeMetadata, other);
            FirstDifference(left, right, path).None? <==> SameRecord(includeMetadata, one, other)
  {
    hide FieldsIntoJson, FirstDifference, ComparedFields, Distinct, RecordValue;
    RecordValueIsMapping(serializer, includeMetadata, one);
    RecordValueIsMapping(serializer, includeMetadata, other);
    RecordIsDistinct(serializer, includeMetadata, one);
    RecordIsDistinct(serializer, includeMetadata, other);
    NoDifferenceIsSameJson(RecordValue(serializer, includeMetadata, one),
      RecordValue(serializer, includeMetadata, other), path);
    if SameKind(one, other) {
      AlignedFields(serializer, includeMetadata, one, other);
      ValuesAreTold(serializer, includeMetadata, one, other);
    } else {
      KindsAreTold(serializer, includeMetadata, one, other);
    }
  }

  lemma AlignedFields(serializer: Serializer, includeMetadata: bool, one: RecordV1, other: RecordV1)
    requires serializer.Faithful() && SameKind(one, other)
    ensures FieldsIntoJson(ComparedFields(serializer, includeMetadata, one)) ==
            FieldsIntoJson(ComparedFields(serializer, includeMetadata, other)) <==>
            SameJson(Values(serializer, one), Values(serializer, other), ComparedCount(includeMetadata, one))
  {
    hide FieldsIntoJson, IntoJson, Values, RecordValue, Distinct;
    var left := ComparedFields(serializer, includeMetadata, one);
    var right := ComparedFields(serializer, includeMetadata, other);
    var these, those := Values(serializer, one), Values(serializer, other);
    RecordIsDistinct(serializer, includeMetadata, one);
    assert Names(one) == Names(other);
    AlignedObjects(left, right);
    assert |left| == ComparedCount(includeMetadata, one);
    assert forall k | 0 <= k < |left| :: left[k].value == these[k] && right[k].value == those[k];
  }
}
