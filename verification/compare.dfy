/**
 Semantic comparison of two transcripts: the flattening loops, the record-by-record search, and the
 proofs that it answers equal exactly for the same transcript and otherwise reports the first real
 difference.
 */
module Compare {
  import opened Wrappers
  import opened Records
  import opened Parser
  import opened Contract
  import opened OrderedValues
  import opened RecordValues

  datatype RecordView =
    RecordView(sequence: nat, step: Option<nat>, eventIndex: Option<nat>, path: string, value: RecordV1)

  datatype TranscriptDifference = TranscriptDifference(
    sequence: nat,
    step: Option<nat>,
    eventIndex: Option<nat>,
    path: string,
    expected: Option<Json>,
    actual: Option<Json>)

  datatype TranscriptComparison = Equal | Different(difference: TranscriptDifference)

  datatype TranscriptComparisonError = ValueEncoding(message: string)

  // ----- Flattening, with the place of every record -----

  function StepPath(k: nat, place: string): string {
    "steps[" + Decimal(k) + "]." + place
  }

  function EventView(k: nat, position: nat, event: EventRecordV1): RecordView {
    RecordView(event.sequence, Some(event.step), Some(event.index),
      StepPath(k, "result.events[" + Decimal(position) + "]"), Event(event))
  }

  function EventViews(k: nat, events: seq<EventRecordV1>): (r: seq<RecordView>)
    ensures |r| == |events|
  {
    seq(|events|, position requires 0 <= position < |events| => EventView(k, position, events[position]))
  }

  function ActionView(k: nat, action: ActionRecordV1): RecordView {
    RecordView(action.sequence, Some(action.step), None, StepPath(k, "action"), Action(action))
  }

  function StepViews(k: nat, step: TranscriptStepV1): seq<RecordView> {
    [ActionView(k, step.action)] +
    match step.result
    case Accepted(events, completion) =>
      EventViews(k, events) +
      [RecordView(completion.sequence, Some(completion.step), None, StepPath(k, "result.completion"),
        StepCompleted(completion))]
    case Rejected(rejection) =>
      [RecordView(rejection.sequence, Some(rejection.step), None, StepPath(k, "result.rejection"),
        StepRejected(rejection))]
  }

  function StepsViews(steps: seq<TranscriptStepV1>): seq<RecordView> {
    if steps == [] then []
    else StepsViews(steps[..|steps| - 1]) + StepViews(|steps| - 1, steps[|steps| - 1])
  }

  function OpeningViews(transcript: TranscriptV1): seq<RecordView> {
    [RecordView(transcript.header.sequence, None, None, "header", Header(transcript.header)),
     RecordView(transcript.matchCreated.sequence, None, None, "match_created", MatchCreated(transcript.matchCreated))]
  }

  function ClosingViews(transcript: TranscriptV1): seq<RecordView> {
    [RecordView(transcript.finalState.sequence, None, None, "final_state", FinalState(transcript.finalState)),
     RecordView(transcript.matchCompleted.sequence, None, None, "match_completed",
       MatchCompleted(transcript.matchCompleted))]
  }

  function Views(transcript: TranscriptV1): seq<RecordView> {
    OpeningViews(transcript) + StepsViews(transcript.steps) + ClosingViews(transcript)
  }

  /** The body of the step loop: the action, then its events and completion, or its rejection. */
  method PushStepRecords(records: seq<RecordView>, k: nat, step: TranscriptStepV1) returns (more: seq<RecordView>)
    ensures more == records + StepViews(k, step)
  {
    more := records + [ActionView(k, step.action)];
    match step.result {
      case Accepted(events, completion) =>
        for position := 0 to |events|
          invariant more == records + [ActionView(k, step.action)] + EventViews(k, events)[..position]
        {
          more := more + [EventView(k, position, events[position])];
        }
        more := more + [RecordView(completion.sequence, Some(completion.step), None,
                          StepPath(k, "result.completion"), StepCompleted(completion))];
      case Rejected(rejection) =>
        more := more + [RecordView(rejection.sequence, Some(rejection.step), None,
                          StepPath(k, "result.rejection"), StepRejected(rejection))];
    }
  }

  method TranscriptRecords(transcript: TranscriptV1) returns (records: seq<RecordView>)
    ensures records == Views(transcript)
    ensures Shows(records, Flatten(transcript))
  {
    hide StepViews, Shows, Flatten;
    records := [];
    records := records + [RecordView(transcript.header.sequence, None, None, "header", Header(transcript.header))];
    records := records + [RecordView(transcript.matchCreated.sequence, None, None, "match_created",
                            MatchCreated(transcript.matchCreated))];
    assert records == OpeningViews(transcript);
    var steps := transcript.steps;
    for k := 0 to |steps|
      invariant records == OpeningViews(transcript) + StepsViews(steps[..k])
    {
      records := PushStepRecords(records, k, steps[k]);
      assert steps[..k + 1][..k] == steps[..k];
    }
    assert steps[..|steps|] == steps;
    records := records + [RecordView(transcript.finalState.sequence, None, None, "final_state",
                            FinalState(transcript.finalState))];
    records := records + [RecordView(transcript.matchCompleted.sequence, None, None, "match_completed",
                            MatchCompleted(transcript.matchCompleted))];
    ViewsShowRecords(transcript);
  }

  /** A view carries one record together with that record's own numbers. */
  ghost predicate ShowsOne(view: RecordView, record: RecordV1) {
    && view.value == record
    && view.sequence == record.Sequence()
    && view.step == record.Step()
    && view.eventIndex == (if record.Event? then Some(record.event.index) else None)
  }

  ghost predicate Shows(views: seq<RecordView>, records: seq<RecordV1>) {
    |views| == |records| && forall k | 0 <= k < |records| :: ShowsOne(views[k], records[k])
  }

  lemma ShowsAppend(views: seq<RecordView>, records: seq<RecordV1>, moreViews: seq<RecordView>,
                    moreRecords: seq<RecordV1>)
    requires Shows(views, records) && Shows(moreViews, moreRecords)
    ensures Shows(views + moreViews, records + moreRecords)
  {
    forall k | 0 <= k < |records + moreRecords| ensures ShowsOne((views + moreViews)[k], (records + moreRecords)[k]) {
      if k >= |records| {
        assert ShowsOne(moreViews[k - |records|], moreRecords[k - |records|]);
      }
    }
  }

  lemma EventViewsShowRecords(k: nat, events: seq<EventRecordV1>)
    ensures Shows(EventViews(k, events), EventRecords(events))
  {
  }

  lemma StepViewsShowRecords(k: nat, step: TranscriptStepV1)
    ensures Shows(StepViews(k, step), StepRecords(step))
  {
    var action, started := [ActionView(k, step.action)], [Action(step.action)];
    assert Shows(action, started);
    if step.result.Accepted? {
      var Accepted(events, completion) := step.result;
      var last := [RecordView(completion.sequence, Some(completion.step), None, StepPath(k, "result.completion"),
                     StepCompleted(completion))];
      assert Shows(last, [StepCompleted(completion)]);
      EventViewsShowRecords(k, events);
      hide Shows, EventViews, EventRecords;
      ShowsAppend(action, started, EventViews(k, events), EventRecords(events));
      ShowsAppend(action + EventViews(k, events), started + EventRecords(events), last, [StepCompleted(completion)]);
      assert StepViews(k, step) == action + EventViews(k, events) + last;
    }
  }

  lemma {:induction false} StepsViewsShowRecords(steps: seq<TranscriptStepV1>)
    ensures Shows(StepsViews(steps), StepsRecords(steps))
  {
    if steps != [] {
      hide Shows, StepViews, StepRecords;
      var n := |steps| - 1;
      StepsViewsShowRecords(steps[..n]);
      StepViewsShowRecords(n, steps[n]);
      ShowsAppend(StepsViews(steps[..n]), StepsRecords(steps[..n]), StepViews(n, steps[n]), StepRecords(steps[n]));
    }
  }

  lemma ViewsShowRecords(transcript: TranscriptV1)
    ensures Shows(Views(transcript), Flatten(transcript))
  {
    StepsViewsShowRecords(transcript.steps);
    var opening := OpeningRecords(transcript.header, transcript.matchCreated);
    ShowsAppend(OpeningViews(transcript), opening, StepsViews(transcript.steps), StepsRecords(transcript.steps));
    ShowsAppend(OpeningViews(transcript) + StepsViews(transcript.steps), opening + StepsRecords(transcript.steps),
      ClosingViews(transcript), [FinalState(transcript.finalState), MatchCompleted(transcript.matchCompleted)]);
  }

  // ----- The search over records -----

  function Value(serializer: Serializer, includeMetadata: bool, view: RecordView)
    : Result<OrderedValue, TranscriptComparisonError>
  {
    match serializer.failure(view.value)
    case Some(message) => Err(ValueEncoding(message))
    case None => Ok(RecordValue(serializer, includeMetadata, view.value))
  }

  function Least(one: nat, other: nat): nat {
    if one < other then one else other
  }

  function Or<T>(one: Option<T>, other: Option<T>): Option<T> {
    if one.Some? then one else other
  }

  function RecordDifference(expected: RecordView, actual: RecordView,
                            difference: ValueDifference): TranscriptDifference {
    TranscriptDifference(Least(expected.sequence, actual.sequence), Or(expected.step, actual.step),
      Or(expected.eventIndex, actual.eventIndex), difference.path, difference.expected, difference.actual)
  }

  function ViewAt(views: seq<RecordView>, index: nat): Option<RecordView> {
    if index < |views| then Some(views[index]) else None
  }

  function OptionalValue(serializer: Serializer, includeMetadata: bool, view: Option<RecordView>)
    : Result<Option<OrderedValue>, TranscriptComparisonError>
  {
    match view
    case None => Ok(None)
    case Some(present) => var value :- Value(serializer, includeMetadata, present); Ok(Some(value))
  }

  /** What is answered once every record both streams have is the same. */
  function CompareLengths(serializer: Serializer, includeMetadata: bool, expected: seq<RecordView>,
                          actual: seq<RecordView>)
    : Result<TranscriptComparison, TranscriptComparisonError>
  {
    var more, extra := ViewAt(expected, |actual|), ViewAt(actual, |expected|);
    if more.None? && extra.None? then Ok(Equal)
    else
      var context := Or(more, extra).value;
      var expectedValue :- OptionalValue(serializer, includeMetadata, more);
      var actualValue :- OptionalValue(serializer, includeMetadata, extra);
      Ok(Different(RecordDifference(if more.Some? then more.value else context,
        if extra.Some? then extra.value else context,
        Leaf(expectedValue, actualValue, context.path))))
  }

  function CompareFrom(serializer: Serializer, includeMetadata: bool, expected: seq<RecordView>,
                       actual: seq<RecordView>, index: nat)
    : Result<TranscriptComparison, TranscriptComparisonError>
    decreases |expected| - index
  {
    if index >= |expected| || index >= |actual| then CompareLengths(serializer, includeMetadata, expected, actual)
    else
      var expectedValue :- Value(serializer, includeMetadata, expected[index]);
      var actualValue :- Value(serializer, includeMetadata, actual[index]);
      match FirstDifference(expectedValue, actualValue, expected[index].path)
      case Some(difference) => Ok(Different(RecordDifference(expected[index], actual[index], difference)))
      case None => CompareFrom(serializer, includeMetadata, expected, actual, index + 1)
  }

  function Comparison(serializer: Serializer, includeMetadata: bool, expected: TranscriptV1, actual: TranscriptV1)
    : Result<TranscriptComparison, TranscriptComparisonError>
  {
    CompareFrom(serializer, includeMetadata, Views(expected), Views(actual), 0)
  }

  /** One turn of the record loop: both values, the search, and on to the next record. */
  lemma CompareTurn(serializer: Serializer, includeMetadata: bool, expected: seq<RecordView>, actual: seq<RecordView>,
                    index: nat)
    requires index < |expected| && index < |actual|
    ensures var left := Value(serializer, includeMetadata, expected[index]);
            var right := Value(serializer, includeMetadata, actual[index]);
            CompareFrom(serializer, includeMetadata, expected, actual, index) ==
            if left.Err? then Err(left.error)
            else if right.Err? then Err(right.error)
            else
              match FirstDifference(left.value, right.value, expected[index].path)
              case Some(difference) => Ok(Different(RecordDifference(expected[index], actual[index], difference)))
              case None => CompareFrom(serializer, includeMetadata, expected, actual, index + 1)
  {
    hide Value, FirstDifference, RecordDifference, CompareLengths;
  }

  lemma CompareEnd(serializer: Serializer, includeMetadata: bool, expected: seq<RecordView>, actual: seq<RecordView>,
                   index: nat)
    requires index >= |expected| || index >= |actual|
    ensures CompareFrom(serializer, includeMetadata, expected, actual, index) ==
            CompareLengths(serializer, includeMetadata, expected, actual)
  {
  }

  method CompareParsedTranscripts(serializer: Serializer, includeMetadata: bool, expected: TranscriptV1,
                                  actual: TranscriptV1)
    returns (r: Result<TranscriptComparison, TranscriptComparisonError>)
    ensures r == Comparison(serializer, includeMetadata, expected, actual)
  {
    hide Views, Shows, Value, FirstDifference, RecordDifference, CompareLengths, CompareFrom;
    var expectedRecords := TranscriptRecords(expected);
    var actualRecords := TranscriptRecords(actual);
    var index := 0;
    while index < |expectedRecords| && index < |actualRecords|
      invariant index <= |expectedRecords| && index <= |actualRecords|
      invariant CompareFrom(serializer, includeMetadata, expectedRecords, actualRecords, 0) ==
                CompareFrom(serializer, includeMetadata, expectedRecords, actualRecords, index)
    {
      CompareTurn(serializer, includeMetadata, expectedRecords, actualRecords, index);
      var expectedRecord, actualRecord := expectedRecords[index], actualRecords[index];
      var expectedValue :- Value(serializer, includeMetadata, expectedRecord);
      var actualValue :- Value(serializer, includeMetadata, actualRecord);
      var difference := FirstDifference(expectedValue, actualValue, expectedRecord.path);
      if difference.Some? {
        return Ok(Different(RecordDifference(expectedRecord, actualRecord, difference.value)));
      }
      index := index + 1;
    }
    CompareEnd(serializer, includeMetadata, expectedRecords, actualRecords, index);
    return CompareLengths(serializer, includeMetadata, expectedRecords, actualRecords);
  }

  // ----- The flattener tells transcripts apart -----

  /** Neither stream is a proper prefix of the other: only the last record is `match_completed`. */
  lemma {:induction false} NoCompletionInside(steps: seq<TranscriptStepV1>, k: nat)
    requires k < |StepsRecords(steps)|
    ensures !StepsRecords(steps)[k].MatchCompleted?
  {
    var n := |steps| - 1;
    if k < |StepsRecords(steps[..n])| {
      NoCompletionInside(steps[..n], k);
    }
  }

  lemma CompletionOnlyLast(transcript: TranscriptV1, k: nat)
    requires k < |Flatten(transcript)|
    ensures Flatten(transcript)[k].MatchCompleted? <==> k == |Flatten(transcript)| - 1
  {
    var inside := StepsRecords(transcript.steps);
    if 2 <= k < 2 + |inside| {
      NoCompletionInside(transcript.steps, k - 2);
      assert Flatten(transcript)[k] == inside[k - 2];
    }
  }

  /** A flattened step starts with its action and holds no other. */
  lemma StepShape(step: TranscriptStepV1, k: nat)
    requires k < |StepRecords(step)|
    ensures k == 0 ==> StepRecords(step)[k] == Action(step.action)
    ensures k > 0 ==> !StepRecords(step)[k].Action?
  {
  }

  lemma StepIsTold(step: TranscriptStepV1, step': TranscriptStepV1)
    requires StepRecords(step) == StepRecords(step')
    ensures step == step'
  {
    var records := StepRecords(step);
    assert records[0] == Action(step.action) == Action(step'.action);
    var last := |records| - 1;
    if step.result.Accepted? {
      assert records[last] == StepCompleted(step.result.completion);
      assert step'.result.Accepted?;
      AcceptedEvents(step);
      AcceptedEvents(step');
      forall k | 0 <= k < |step.result.events| ensures step.result.events[k] == step'.result.events[k] {
        assert Event(step.result.events[k]) == records[k + 1] == Event(step'.result.events[k]);
      }
      assert step.result.events == step'.result.events;
    } else {
      assert records[last] == StepRejected(step.result.rejection);
    }
  }

  lemma AcceptedEvents(step: TranscriptStepV1)
    requires step.result.Accepted?
    ensures var records := StepRecords(step);
            && records[|records| - 1] == StepCompleted(step.result.completion)
            && |step.result.events| == |records| - 2
            && forall k | 0 <= k < |records| - 2 :: Event(step.result.events[k]) == records[k + 1]
  {
    var Accepted(events, completion) := step.result;
    var records, middle := StepRecords(step), EventRecords(events);
    assert records == [Action(step.action)] + middle + [StepCompleted(completion)];
    hide StepRecords;
    assert |records| == |middle| + 2;
    forall k | 0 <= k < |middle| ensures Event(events[k]) == records[k + 1] {
      assert middle[k] == records[k + 1];
    }
  }

  /** The last step is cut off a flattened run in one way only. */
  lemma LastStepIsTold(before: seq<RecordV1>, step: TranscriptStepV1, before': seq<RecordV1>, step': TranscriptStepV1)
    requires before + StepRecords(step) == before' + StepRecords(step')
    ensures before == before' && step == step'
  {
    hide StepRecords;
    var tail, tail' := StepRecords(step), StepRecords(step');
    SameStart(before, step, before', step');
    SameStart(before', step', before, step);
    assert before == (before + tail)[..|before|] == (before' + tail')[..|before|] == before';
    assert tail == (before + tail)[|before|..] == (before' + tail')[|before|..] == tail';
    StepIsTold(step, step');
  }

  lemma SameStart(before: seq<RecordV1>, step: TranscriptStepV1, before': seq<RecordV1>, step': TranscriptStepV1)
    requires before + StepRecords(step) == before' + StepRecords(step')
    ensures |before| <= |before'|
  {
    hide StepRecords;
    var whole := before + StepRecords(step);
    if |before'| < |before| {
      var k := |before| - |before'|;
      assert k < |StepRecords(step')|;
      assert whole[|before|] == StepRecords(step)[0] == StepRecords(step')[k];
      StepShape(step, 0);
      StepShape(step', k);
    }
  }

  lemma StepsRecordsSnoc(steps: seq<TranscriptStepV1>)
    requires steps != []
    ensures var n := |steps| - 1; StepsRecords(steps) == StepsRecords(steps[..n]) + StepRecords(steps[n])
    ensures StepsRecords(steps) != []
  {
  }

  lemma NoStepsNoRecords()
    ensures StepsRecords([]) == []
  {
  }

  lemma {:induction false} StepsAreTold(steps: seq<TranscriptStepV1>, steps': seq<TranscriptStepV1>)
    requires StepsRecords(steps) == StepsRecords(steps')
    ensures steps == steps'
  {
    hide StepRecords, StepsRecords;
    if steps != [] { StepsRecordsSnoc(steps); }
    if steps' != [] { StepsRecordsSnoc(steps'); }
    assert steps == [] || steps' == [] ==> StepsRecords([]) == [] by { NoStepsNoRecords(); }
    if steps != [] && steps' != [] {
      var n, n' := |steps| - 1, |steps'| - 1;
      LastStepIsTold(StepsRecords(steps[..n]), steps[n], StepsRecords(steps'[..n']), steps'[n']);
      StepsAreTold(steps[..n], steps'[..n']);
      assert steps == steps[..n] + [steps[n]] && steps' == steps'[..n'] + [steps'[n']];
    }
  }

  lemma FlattenIsInjective(one: TranscriptV1, other: TranscriptV1)
    requires Flatten(one) == Flatten(other)
    ensures one == other
  {
    var whole := Flatten(one);
    var last := |whole| - 1;
    assert whole[0] == Header(one.header) == Header(other.header);
    assert whole[1] == MatchCreated(one.matchCreated) == MatchCreated(other.matchCreated);
    assert whole[last] == MatchCompleted(one.matchCompleted) == MatchCompleted(other.matchCompleted);
    assert whole[last - 1] == FinalState(one.finalState) == FinalState(other.finalState);
    assert StepsRecords(one.steps) == whole[2..last - 1] == StepsRecords(other.steps);
    StepsAreTold(one.steps, other.steps);
  }

  // ----- The comparison is exact -----

  ghost predicate Encodes(serializer: Serializer, transcript: TranscriptV1) {
    forall record <- Flatten(transcript) :: serializer.failure(record).None?
  }

  ghost predicate SameTranscript(includeMetadata: bool, one: TranscriptV1, other: TranscriptV1) {
    if includeMetadata then one == other
    else one == other.(header := other.header.(metadata := one.header.metadata))
  }

  ghost predicate SameRecordsFrom(includeMetadata: bool, one: seq<RecordV1>, other: seq<RecordV1>, from: nat) {
    |one| == |other| && forall k | from <= k < |one| :: SameRecord(includeMetadata, one[k], other[k])
  }

  lemma SameRecordsSameTranscript(includeMetadata: bool, one: TranscriptV1, other: TranscriptV1)
    ensures SameRecordsFrom(includeMetadata, Flatten(one), Flatten(other), 0) <==>
            SameTranscript(includeMetadata, one, other)
  {
    var left, right := Flatten(one), Flatten(other);
    var renamed := if includeMetadata then other else other.(header := other.header.(metadata := one.header.metadata));
    assert Flatten(renamed)[1..] == right[1..];
    if SameRecordsFrom(includeMetadata, left, right, 0) {
      assert SameRecord(includeMetadata, left[0], right[0]);
      forall k | 0 < k < |left| ensures left[k] == right[k] {
        HeaderOnlyFirst(one, k);
        assert SameRecord(includeMetadata, left[k], right[k]);
      }
      assert left == Flatten(renamed);
      FlattenIsInjective(one, renamed);
    }
    if SameTranscript(includeMetadata, one, other) {
      assert left == Flatten(renamed);
      assert forall k | 0 < k < |left| :: left[k] == left[1..][k - 1] == right[1..][k - 1] == right[k];
    }
  }

  lemma {:induction false} NoHeaderInside(steps: seq<TranscriptStepV1>, k: nat)
    requires k < |StepsRecords(steps)|
    ensures !StepsRecords(steps)[k].Header?
  {
    var n := |steps| - 1;
    if k < |StepsRecords(steps[..n])| {
      NoHeaderInside(steps[..n], k);
    }
  }

  lemma HeaderOnlyFirst(transcript: TranscriptV1, k: nat)
    requires 0 < k < |Flatten(transcript)|
    ensures !Flatten(transcript)[k].Header?
  {
    var inside := StepsRecords(transcript.steps);
    if 2 <= k < 2 + |inside| {
      NoHeaderInside(transcript.steps, k - 2);
      assert Flatten(transcript)[k] == inside[k - 2];
    }
  }

  /** The difference names the records it was found in and carries what was found. */
  predicate NamesRecords(difference: TranscriptDifference, expected: RecordView, actual: RecordView,
                         found: ValueDifference) {
    && difference.sequence <= expected.sequence && difference.sequence <= actual.sequence
    && (difference.sequence == expected.sequence || difference.sequence == actual.sequence)
    && difference.step == (if expected.step.Some? then expected.step else actual.step)
    && difference.eventIndex == (if expected.eventIndex.Some? then expected.eventIndex else actual.eventIndex)
    && difference.path == found.path && difference.expected == found.expected && difference.actual == found.actual
  }

  /** What one answer of the comparison says about the two streams from some index on. */
  ghost predicate Explains(serializer: Serializer, includeMetadata: bool, expected: seq<RecordView>,
                           actual: seq<RecordView>, from: nat, k: nat,
                           answer: Result<TranscriptComparison, TranscriptComparisonError>) {
    && from <= k < |expected| && k < |actual|
    && (forall j | from <= j < k :: SameRecord(includeMetadata, expected[j].value, actual[j].value))
    && match answer
       case Ok(Equal) => false
       case Ok(Different(difference)) =>
         && !SameRecord(includeMetadata, expected[k].value, actual[k].value)
         && exists steps, found ::
              && Reports(RecordValue(serializer, includeMetadata, expected[k].value),
                         RecordValue(serializer, includeMetadata, actual[k].value), expected[k].path, steps, found)
              && NamesRecords(difference, expected[k], actual[k], found)
       case Err(ValueEncoding(message)) =>
         || serializer.failure(expected[k].value) == Some(message)
         || serializer.failure(actual[k].value) == Some(message)
  }

  /** Either every shared record is the same, or one index explains the answer. */
  lemma {:induction false} CompareFromExplained(serializer: Serializer, includeMetadata: bool,
                                                expected: seq<RecordView>, actual: seq<RecordView>, from: nat)
    returns (k: nat)
    requires serializer.Faithful()
    requires from <= |expected| && from <= |actual|
    ensures var answer := CompareFrom(serializer, includeMetadata, expected, actual, from);
            || Explains(serializer, includeMetadata, expected, actual, from, k, answer)
            || (&& answer == CompareLengths(serializer, includeMetadata, expected, actual)
                && k == Least(|expected|, |actual|)
                && forall j | from <= j < k ::
                     && SameRecord(includeMetadata, expected[j].value, actual[j].value)
                     && serializer.failure(expected[j].value).None? && serializer.failure(actual[j].value).None?)
    decreases |expected| - from
  {
    hide RecordValue, FirstDifference, SameRecord, Reports, CompareLengths, Distinct;
    k := from;
    if from < |expected| && from < |actual| {
      var one, other, path := expected[from].value, actual[from].value, expected[from].path;
      if serializer.failure(one).None? && serializer.failure(other).None? {
        RecordsExact(serializer, includeMetadata, one, other, path);
        var left := RecordValue(serializer, includeMetadata, one);
        var right := RecordValue(serializer, includeMetadata, other);
        if FirstDifference(left, right, path).None? {
          k := CompareFromExplained(serializer, includeMetadata, expected, actual, from + 1);
        } else {
          var steps := DifferenceIsReal(left, right, path);
        }
      }
    }
  }

  /** For any two transcripts one record of the shorter stream already differs, so lengths never decide. */
  lemma LengthsNeverDecide(includeMetadata: bool, expected: TranscriptV1, actual: TranscriptV1)
    requires |Flatten(expected)| != |Flatten(actual)|
    ensures exists k | 0 <= k < Least(|Flatten(expected)|, |Flatten(actual)|) ::
              !SameRecord(includeMetadata, Flatten(expected)[k], Flatten(actual)[k])
  {
    var k := Least(|Flatten(expected)|, |Flatten(actual)|) - 1;
    CompletionOnlyLast(expected, k);
    CompletionOnlyLast(actual, k);
    assert !SameRecord(includeMetadata, Flatten(expected)[k], Flatten(actual)[k]);
  }

  /**
   The comparison answers equal exactly for the same transcript, apart from header metadata when it
   is left out; any other answer is explained by the first records that are not the same.
   */
  lemma ComparisonIsExact(serializer: Serializer, includeMetadata: bool, expected: TranscriptV1, actual: TranscriptV1)
    returns (k: nat)
    requires serializer.Faithful()
    ensures var answer := Comparison(serializer, includeMetadata, expected, actual);
            && (answer == Ok(Equal) <==>
                && SameTranscript(includeMetadata, expected, actual)
                && Encodes(serializer, expected) && Encodes(serializer, actual))
            && (answer != Ok(Equal) ==>
                Explains(serializer, includeMetadata, Views(expected), Views(actual), 0, k, answer))
  {
    hide RecordValue, SameRecord, Reports, Views, Flatten, ShowsOne, CompareFrom, StepsRecords, StepsViews;
    k := CompareFromExplained(serializer, includeMetadata, Views(expected), Views(actual), 0);
    var views, views', records, records' := Views(expected), Views(actual), Flatten(expected), Flatten(actual);
    ViewsAreRecords(expected);
    ViewsAreRecords(actual);
    SameRecordsSameTranscript(includeMetadata, expected, actual);
    var answer := Comparison(serializer, includeMetadata, expected, actual);
    if Explains(serializer, includeMetadata, views, views', 0, k, answer) {
      assert views[k].value == records[k] && views'[k].value == records'[k];
      assert records[k] in records && records'[k] in records';
    } else {
      assert forall j | 0 <= j < k :: views[j].value == records[j] && views'[j].value == records'[j];
      if |records| != |records'| {
        LengthsNeverDecide(includeMetadata, expected, actual);
      }
    }
  }

  /** Which transcript is called expected does not matter to whether they are equal. */
  lemma EqualIsSymmetric(serializer: Serializer, includeMetadata: bool, one: TranscriptV1, other: TranscriptV1)
    requires serializer.Faithful()
    ensures Comparison(serializer, includeMetadata, one, other) == Ok(Equal) <==>
            Comparison(serializer, includeMetadata, other, one) == Ok(Equal)
  {
    hide Comparison, Explains, Encodes;
    var j := ComparisonIsExact(serializer, includeMetadata, one, other);
    var k := ComparisonIsExact(serializer, includeMetadata, other, one);
  }

  lemma ViewsAreRecords(transcript: TranscriptV1)
    ensures |Views(transcript)| == |Flatten(transcript)|
    ensures forall k | 0 <= k < |Flatten(transcript)| :: Views(transcript)[k].value == Flatten(transcript)[k]
  {
    hide Views, Flatten;
    ViewsShowRecords(transcript);
    assert forall k | 0 <= k < |Flatten(transcript)| :: ShowsOne(Views(transcript)[k], Flatten(transcript)[k]);
  }

  /**
   Under global numbering, as in every parsed transcript, the reported sequence is the position of
   the first record that differs.
   */
  lemma ReportedSequenceIsPosition(serializer: Serializer, includeMetadata: bool, expected: TranscriptV1,
                                   actual: TranscriptV1, k: nat, difference: TranscriptDifference)
    requires GlobalSequence(Flatten(expected)) && GlobalSequence(Flatten(actual))
    requires Explains(serializer, includeMetadata, Views(expected), Views(actual), 0, k, Ok(Different(difference)))
    ensures difference.sequence == k
    ensures difference.step == Or(Views(expected)[k].value.Step(), Views(actual)[k].value.Step())
  {
    var view, view' := Views(expected)[k], Views(actual)[k];
    ViewIsNumbered(expected, k);
    ViewIsNumbered(actual, k);
    hide Views, Flatten, Reports, SameRecord, RecordValue, GlobalSequence, Or;
    var found :| NamesRecords(difference, view, view', found);
  }

  lemma ViewIsNumbered(transcript: TranscriptV1, k: nat)
    requires GlobalSequence(Flatten(transcript)) && k < |Views(transcript)|
    ensures Views(transcript)[k].sequence == k && Views(transcript)[k].step == Views(transcript)[k].value.Step()
  {
    hide Views, Flatten;
    ViewsShowRecords(transcript);
    assert ShowsOne(Views(transcript)[k], Flatten(transcript)[k]);
  }
}
