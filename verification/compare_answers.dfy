/**
 Where a comparison points: the path of every record view leads to that very record in its
 transcript, indices in paths are written as plain decimal numbers, and every value of a record is
 serialized under its own name.
 */
module CompareAnswers {
  import opened Wrappers
  import opened Records
  import opened OrderedValues
  import opened RecordValues
  import opened Compare

  // ----- Decimal numbers -----

  function ValueOf(digits: string): int {
    if digits == "" then 0 else ValueOf(digits[..|digits| - 1]) * 10 + (digits[|digits| - 1] as int - '0' as int)
  }

  /** A number is written in decimal digits, without leading zeros, and reads back. */
  lemma {:induction false} DecimalReadsBack(n: nat)
    ensures Decimal(n) != "" && ValueOf(Decimal(n)) == n
    ensures forall k | 0 <= k < |Decimal(n)| :: '0' <= Decimal(n)[k] <= '9'
    ensures n > 0 ==> Decimal(n)[0] != '0'
  {
    if n >= 10 {
      DecimalReadsBack(n / 10);
      assert Decimal(n)[..|Decimal(n)| - 1] == Decimal(n / 10);
    } else {
      assert Decimal(n)[..0] == "";
    }
  }

  // ----- Places in a transcript -----

  datatype Place =
    | HeaderPlace
    | CreatedPlace
    | ActionPlace(step: nat)
    | EventPlace(step: nat, position: nat)
    | CompletionPlace(step: nat)
    | RejectionPlace(step: nat)
    | FinalPlace
    | CompletedPlace

  /** The record at a place, if there is one. */
  function RecordAt(transcript: TranscriptV1, place: Place): Option<RecordV1> {
    var steps := transcript.steps;
    match place
    case HeaderPlace => Some(Header(transcript.header))
    case CreatedPlace => Some(MatchCreated(transcript.matchCreated))
    case ActionPlace(i) => if i < |steps| then Some(Action(steps[i].action)) else None
    case EventPlace(i, j) =>
      if i < |steps| && steps[i].result.Accepted? && j < |steps[i].result.events| then
        Some(Event(steps[i].result.events[j]))
      else None
    case CompletionPlace(i) =>
      if i < |steps| && steps[i].result.Accepted? then Some(StepCompleted(steps[i].result.completion)) else None
    case RejectionPlace(i) =>
      if i < |steps| && steps[i].result.Rejected? then Some(StepRejected(steps[i].result.rejection)) else None
    case FinalPlace => Some(FinalState(transcript.finalState))
    case CompletedPlace => Some(MatchCompleted(transcript.matchCompleted))
  }

  function PathOf(place: Place): string {
    match place
    case HeaderPlace => "header"
    case CreatedPlace => "match_created"
    case ActionPlace(i) => "steps[" + Decimal(i) + "].action"
    case EventPlace(i, j) => "steps[" + Decimal(i) + "].result.events[" + Decimal(j) + "]"
    case CompletionPlace(i) => "steps[" + Decimal(i) + "].result.completion"
    case RejectionPlace(i) => "steps[" + Decimal(i) + "].result.rejection"
    case FinalPlace => "final_state"
    case CompletedPlace => "match_completed"
  }

  ghost predicate Leads(transcript: TranscriptV1, view: RecordView) {
    exists place :: view.path == PathOf(place) && RecordAt(transcript, place) == Some(view.value)
  }

  ghost predicate AllLead(transcript: TranscriptV1, views: seq<RecordView>) {
    forall k | 0 <= k < |views| :: Leads(transcript, views[k])
  }

  lemma LeadsTo(transcript: TranscriptV1, view: RecordView, place: Place)
    requires view.path == PathOf(place) && RecordAt(transcript, place) == Some(view.value)
    ensures Leads(transcript, view)
  {
  }

  lemma AllLeadAppend(transcript: TranscriptV1, left: seq<RecordView>, right: seq<RecordView>)
    requires AllLead(transcript, left) && AllLead(transcript, right)
    ensures AllLead(transcript, left + right)
  {
  }

  lemma OneLeads(transcript: TranscriptV1, view: RecordView, place: Place)
    requires view.path == PathOf(place) && RecordAt(transcript, place) == Some(view.value)
    ensures AllLead(transcript, [view])
  {
    LeadsTo(transcript, view, place);
  }

  lemma StepPathText(i: nat, place: string)
    ensures StepPath(i, place) == "steps[" + Decimal(i) + ("]." + place)
  {
    hide Decimal;
  }

  lemma ActionLeads(transcript: TranscriptV1, i: nat)
    requires i < |transcript.steps|
    ensures AllLead(transcript, [ActionView(i, transcript.steps[i].action)])
  {
    hide Decimal, StepPath, AllLead;
    StepPathText(i, "action");
    assert "]." + "action" == "].action";
    OneLeads(transcript, ActionView(i, transcript.steps[i].action), ActionPlace(i));
  }

  lemma EventsLead(transcript: TranscriptV1, i: nat)
    requires i < |transcript.steps| && transcript.steps[i].result.Accepted?
    ensures AllLead(transcript, EventViews(i, transcript.steps[i].result.events))
  {
    hide Leads;
    var events := transcript.steps[i].result.events;
    forall j | 0 <= j < |events| ensures Leads(transcript, EventViews(i, events)[j]) {
      EventLeads(transcript, i, j);
    }
  }

  lemma CompletionLeads(transcript: TranscriptV1, i: nat, view: RecordView)
    requires i < |transcript.steps| && transcript.steps[i].result.Accepted?
    requires view.path == StepPath(i, "result.completion")
    requires view.value == StepCompleted(transcript.steps[i].result.completion)
    ensures AllLead(transcript, [view])
  {
    hide Decimal, StepPath, AllLead;
    StepPathText(i, "result.completion");
    assert "]." + "result.completion" == "].result.completion";
    OneLeads(transcript, view, CompletionPlace(i));
  }

  lemma RejectionLeads(transcript: TranscriptV1, i: nat, view: RecordView)
    requires i < |transcript.steps| && transcript.steps[i].result.Rejected?
    requires view.path == StepPath(i, "result.rejection")
    requires view.value == StepRejected(transcript.steps[i].result.rejection)
    ensures AllLead(transcript, [view])
  {
    hide Decimal, StepPath, AllLead;
    StepPathText(i, "result.rejection");
    assert "]." + "result.rejection" == "].result.rejection";
    OneLeads(transcript, view, RejectionPlace(i));
  }

  lemma StepLeads(transcript: TranscriptV1, i: nat)
    requires i < |transcript.steps|
    ensures AllLead(transcript, StepViews(i, transcript.steps[i]))
  {
    hide AllLead, EventViews, ActionView, StepPath;
    var step := transcript.steps[i];
    var action := [ActionView(i, step.action)];
    ActionLeads(transcript, i);
    match step.result
    case Accepted(events, completion) =>
      var last := RecordView(completion.sequence, Some(completion.step), None, StepPath(i, "result.completion"),
        StepCompleted(completion));
      EventsLead(transcript, i);
      CompletionLeads(transcript, i, last);
      AllLeadAppend(transcript, EventViews(i, events), [last]);
      AllLeadAppend(transcript, action, EventViews(i, events) + [last]);
    case Rejected(rejection) =>
      var last := RecordView(rejection.sequence, Some(rejection.step), None, StepPath(i, "result.rejection"),
        StepRejected(rejection));
      RejectionLeads(transcript, i, last);
      AllLeadAppend(transcript, action, [last]);
  }

  lemma EventLeads(transcript: TranscriptV1, i: nat, j: nat)
    requires i < |transcript.steps| && transcript.steps[i].result.Accepted?
    requires j < |transcript.steps[i].result.events|
    ensures Leads(transcript, EventView(i, j, transcript.steps[i].result.events[j]))
  {
    hide Decimal;
    hide StepPath;
    var place := "result.events[" + Decimal(j) + "]";
    StepPathText(i, place);
    assert "]." + place == "].result.events[" + Decimal(j) + "]";
    assert "steps[" + Decimal(i) + ("].result.events[" + Decimal(j) + "]") == PathOf(EventPlace(i, j));
    LeadsTo(transcript, EventView(i, j, transcript.steps[i].result.events[j]), EventPlace(i, j));
  }

  lemma {:induction false} StepsLead(transcript: TranscriptV1, n: nat)
    requires n <= |transcript.steps|
    ensures AllLead(transcript, StepsViews(transcript.steps[..n]))
    decreases n
  {
    hide StepViews, Leads;
    if n > 0 {
      StepsLead(transcript, n - 1);
      StepLeads(transcript, n - 1);
      assert transcript.steps[..n][..n - 1] == transcript.steps[..n - 1];
    }
  }

  /** Every record that is compared is found in its transcript at the path it is reported under. */
  lemma PathsLeadToRecords(transcript: TranscriptV1)
    ensures AllLead(transcript, Views(transcript))
  {
    StepsLead(transcript, |transcript.steps|);
    assert transcript.steps[..|transcript.steps|] == transcript.steps;
    var opening, closing := OpeningViews(transcript), ClosingViews(transcript);
    OneLeads(transcript, opening[0], HeaderPlace);
    OneLeads(transcript, opening[1], CreatedPlace);
    OneLeads(transcript, closing[0], FinalPlace);
    OneLeads(transcript, closing[1], CompletedPlace);
    assert opening == [opening[0]] + [opening[1]] && closing == [closing[0]] + [closing[1]];
    hide AllLead, StepsViews;
    AllLeadAppend(transcript, [opening[0]], [opening[1]]);
    AllLeadAppend(transcript, [closing[0]], [closing[1]]);
    AllLeadAppend(transcript, opening, StepsViews(transcript.steps));
    AllLeadAppend(transcript, opening + StepsViews(transcript.steps), closing);
  }

  // ----- Names in a record -----

  /** What a record has to tell under a name. */
  function Told(serializer: Serializer, record: RecordV1, name: string): Option<OrderedValue> {
    if name == "sequence" then Some(Count(record.Sequence()))
    else if name == "record" then Some(Text(KindOf(record)))
    else if name == "step" then
      match record.Step()
      case Some(step) => Some(Count(step))
      case None => None
    else if name == "state_digest" then DigestOf(record)
    else
      match record
      case Header(header) =>
        if name == "format" then Some(Text(header.format))
        else if name == "format_version" then Some(Count(header.formatVersion))
        else if name == "metadata" then Some(serializer.metadata(header.metadata))
        else None
      case MatchCreated(created) =>
        if name == "required_sets" then Some(RequirementsValue(created.requiredSets))
        else if name == "initial_state" then Some(serializer.state(created.initialState))
        else None
      case Action(action) => if name == "action" then Some(serializer.action(action.action)) else None
      case Event(event) =>
        if name == "index" then Some(Count(event.index))
        else if name == "event" then Some(serializer.event(event.event))
        else None
      case StepCompleted(completion) => if name == "event_count" then Some(Count(completion.eventCount)) else None
      case StepRejected(rejection) => if name == "error" then Some(serializer.error(rejection.error)) else None
      case FinalState(final) => if name == "final_state" then Some(serializer.state(final.finalState)) else None
      case MatchCompleted(completed) =>
        if name == "step_count" then Some(Count(completed.stepCount))
        else if name == "event_count" then Some(Count(completed.eventCount))
        else if name == "winner" then Some(serializer.player(completed.winner))
        else if name == "reason" then Some(serializer.reason(completed.reason))
        else None
  }

  function KindOf(record: RecordV1): string {
    match record
    case Header(_) => "header"
    case MatchCreated(_) => "match_created"
    case Action(_) => "action"
    case Event(_) => "event"
    case StepCompleted(_) => "step_completed"
    case StepRejected(_) => "step_rejected"
    case FinalState(_) => "final_state"
    case MatchCompleted(_) => "match_completed"
  }

  function DigestOf(record: RecordV1): Option<OrderedValue> {
    match record
    case MatchCreated(created) => Some(Text(created.stateDigest))
    case StepCompleted(completion) => Some(Text(completion.stateDigest))
    case StepRejected(rejection) => Some(Text(rejection.stateDigest))
    case FinalState(final) => Some(Text(final.stateDigest))
    case MatchCompleted(completed) => Some(Text(completed.stateDigest))
    case _ => None
  }

  /** A record's mapping holds under each name just what the record tells there, and has no other names. */
  lemma FieldsAreNamed(serializer: Serializer, record: RecordV1, k: nat)
    requires k < |Fields(serializer, record)|
    ensures Told(serializer, record, Fields(serializer, record)[k].name) == Some(Fields(serializer, record)[k].value)
  {
    hide RequirementsValue;
  }
}
