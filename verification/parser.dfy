/**
 The strict transcript parser: one fold of the records through a seven-phase lifecycle.
 The functions say what each record does; the class and the methods below update the builder in
 place as the source does.
 */
module Parser {
  import opened Wrappers
  import opened WireState
  import opened Records

  datatype LifecycleError =
    | UnexpectedRecord(expectedName: string, foundName: string)
    | WrongSequence(expected: nat, found: nat)
    | WrongStep(expected: nat, found: nat)
    | WrongEventIndex(expected: nat, found: nat)
    | WrongEventCount(expected: nat, found: nat)
    | EventWithoutAction
    | ActionBeforeStepResult
    | RejectedStepHasEvents
    | RejectedDigestMismatch
    | InitialStateDigestMismatch
    | InvalidInitialStatus
    | MissingGameEnded
    | MultipleGameEnded
    | RecordAfterTerminalStep
    | FinalStateDigestMismatch
    | FinalStateNotEnded
    | OutcomeMismatch
    | CompletionStepCount(expected: nat, found: nat)
    | CompletionEventCount(expected: nat, found: nat)
    | CompletionDigestMismatch
    | RecordAfterCompletion
    | Incomplete(awaiting: string)

  datatype ParseErrorKind = Lifecycle(error: LifecycleError) | InvalidRecord

  datatype ParseContext = ParseContext(
    line: Option<nat>,
    sequence: Option<nat>,
    step: Option<nat>,
    eventIndex: Option<nat>,
    path: string)

  datatype ParseError = ParseError(kind: ParseErrorKind, context: ParseContext)

  datatype PendingStep = PendingStep(
    action: ActionRecordV1,
    events: seq<EventRecordV1>,
    gameEnded: Option<GameOutcomeV1>)

  datatype Phase =
    | AwaitHeader
    | AwaitMatchCreated
    | Ready
    | Pending(pending: PendingStep)
    | Terminal(outcome: GameOutcomeV1)
    | Final(outcome: GameOutcomeV1)
    | Complete

  /** The builder's fields as one value. */
  datatype Built = Built(
    header: Option<HeaderV1>,
    matchCreated: Option<MatchCreatedV1>,
    steps: seq<TranscriptStepV1>,
    finalState: Option<FinalStateV1>,
    matchCompleted: Option<MatchCompletedV1>,
    nextStep: nat,
    eventCount: nat,
    digest: Option<StateDigestV1>)

  datatype Progress = Progress(phase: Phase, built: Built)

  const START := Progress(AwaitHeader, Built(None, None, [], None, None, 1, 0, None))

  type Parsed<+T> = Result<T, ParseError>

  function RecordName(record: RecordV1): string {
    match record
    case Header(_) => "header"
    case MatchCreated(_) => "match_created"
    case Action(_) => "action"
    case Event(_) => "event"
    case StepCompleted(_) => "step_completed"
    case StepRejected(_) => "step_rejected"
    case FinalState(_) => "final_state"
    case MatchCompleted(_) => "match_completed"
  }

  function RecordContext(line: nat, record: RecordV1, path: string): ParseContext {
    ParseContext(Some(line), Some(record.Sequence()), record.Step(),
      if record.Event? then Some(record.event.index) else None, path)
  }

  function Fault(line: nat, record: RecordV1, path: string, error: LifecycleError): ParseError {
    ParseError(Lifecycle(error), RecordContext(line, record, path))
  }

  function Unexpected(line: nat, record: RecordV1, expected: string): ParseError {
    Fault(line, record, "record", UnexpectedRecord(expected, RecordName(record)))
  }

  /** `Ok` when the condition holds, the lifecycle fault otherwise. */
  function Demand(condition: bool, line: nat, record: RecordV1, path: string, error: LifecycleError): (r: Parsed<()>)
    ensures r.Ok? <==> condition
  {
    if condition then Ok(()) else Err(Fault(line, record, path, error))
  }

  function ComputeDigest(codec: Codec, line: nat, record: RecordV1, state: StateProjectionV1, path: string)
    : Parsed<StateDigestV1>
  {
    match codec.digest(state)
    case Ok(digest) => Ok(digest)
    case Err(_) => Err(ParseError(InvalidRecord, RecordContext(line, record, path)))
  }

  function ValidateInitialState(codec: Codec, line: nat, record: RecordV1, created: MatchCreatedV1): Parsed<()> {
    var _ :- Demand(created.initialState.status.PlayingV1?, line, record, "initial_state.status", InvalidInitialStatus);
    var computed :- ComputeDigest(codec, line, record, created.initialState, "initial_state");
    Demand(computed == created.stateDigest, line, record, "state_digest", InitialStateDigestMismatch)
  }

  function ValidateFinalState(codec: Codec, line: nat, record: RecordV1, final: FinalStateV1,
                              terminal: GameOutcomeV1, authoritative: Option<StateDigestV1>): Parsed<()> {
    var status := final.finalState.status;
    var _ :- Demand(status.EndedV1?, line, record, "final_state.status", FinalStateNotEnded);
    var _ :- Demand(status == EndedV1(terminal), line, record, "final_state.status.outcome", OutcomeMismatch);
    var computed :- ComputeDigest(codec, line, record, final.finalState, "final_state");
    Demand(authoritative == Some(final.stateDigest) && computed == final.stateDigest, line, record, "state_digest",
      FinalStateDigestMismatch)
  }

  function ValidateCompletion(line: nat, record: RecordV1, completed: MatchCompletedV1, terminal: GameOutcomeV1,
                              built: Built): Parsed<()> {
    var _ :- Demand(completed.stepCount == |built.steps|, line, record, "step_count",
      CompletionStepCount(|built.steps|, completed.stepCount));
    var _ :- Demand(completed.eventCount == built.eventCount, line, record, "event_count",
      CompletionEventCount(built.eventCount, completed.eventCount));
    var _ :- Demand(built.digest == Some(completed.stateDigest), line, record, "state_digest",
      CompletionDigestMismatch);
    var _ :- Demand(completed.winner == terminal.winner, line, record, "winner", OutcomeMismatch);
    Demand(completed.reason == terminal.reason, line, record, "reason", OutcomeMismatch)
  }

  function ValidateStep(line: nat, record: RecordV1, expected: nat, found: nat): Parsed<()> {
    Demand(found == expected, line, record, "step", WrongStep(expected, found))
  }

  // ----- One record -----

  function AdvanceEvent(line: nat, record: RecordV1, event: EventRecordV1, pending: PendingStep): Parsed<PendingStep> {
    var _ :- ValidateStep(line, record, pending.action.step, event.step);
    var _ :- Demand(event.index == |pending.events|, line, record, "index",
      WrongEventIndex(|pending.events|, event.index));
    match event.event
    case GameEndedV1(winner, reason) =>
      var _ :- Demand(pending.gameEnded.None?, line, record, "event.kind", MultipleGameEnded);
      Ok(pending.(gameEnded := Some(GameOutcomeV1(winner, reason)), events := pending.events + [event]))
    case OtherEventV1(_) =>
      Ok(pending.(events := pending.events + [event]))
  }

  function AdvanceCompletion(line: nat, record: RecordV1, completion: StepCompletedV1, pending: PendingStep,
                             built: Built): Parsed<Progress> {
    var _ :- ValidateStep(line, record, pending.action.step, completion.step);
    var _ :- Demand(completion.eventCount == |pending.events|, line, record, "event_count",
      WrongEventCount(|pending.events|, completion.eventCount));
    var step := TranscriptStepV1(pending.action, Accepted(pending.events, completion));
    var built' := built.(
      eventCount := built.eventCount + |pending.events|,
      digest := Some(completion.stateDigest),
      steps := built.steps + [step],
      nextStep := built.nextStep + 1);
    Ok(Progress(if pending.gameEnded.Some? then Terminal(pending.gameEnded.value) else Ready, built'))
  }

  function AdvanceRejection(line: nat, record: RecordV1, rejection: StepRejectedV1, pending: PendingStep,
                            built: Built): Parsed<Progress> {
    var _ :- ValidateStep(line, record, pending.action.step, rejection.step);
    var _ :- Demand(pending.events == [], line, record, "record", RejectedStepHasEvents);
    var _ :- Demand(built.digest == Some(rejection.stateDigest), line, record, "state_digest", RejectedDigestMismatch);
    var step := TranscriptStepV1(pending.action, Rejected(rejection));
    Ok(Progress(Ready, built.(steps := built.steps + [step], nextStep := built.nextStep + 1)))
  }

  function Advance(codec: Codec, progress: Progress, line: nat, record: RecordV1): Parsed<Progress> {
    var built := progress.built;
    match progress.phase
    case AwaitHeader => (
      match record
      case Header(header) => Ok(Progress(AwaitMatchCreated, built.(header := Some(header))))
      case _ => Err(Unexpected(line, record, "header")))
    case AwaitMatchCreated => (
      match record
      case MatchCreated(created) =>
        var _ :- ValidateInitialState(codec, line, record, created);
        Ok(Progress(Ready, built.(digest := Some(created.stateDigest), matchCreated := Some(created))))
      case _ => Err(Unexpected(line, record, "match_created")))
    case Ready => (
      match record
      case Action(action) =>
        var _ :- ValidateStep(line, record, built.nextStep, action.step);
        Ok(Progress(Pending(PendingStep(action, [], None)), built))
      case Event(_) => Err(Fault(line, record, "record", EventWithoutAction))
      case FinalState(_) => Err(Fault(line, record, "record", MissingGameEnded))
      case _ => Err(Unexpected(line, record, "action")))
    case Pending(pending) => (
      match record
      case Event(event) =>
        var pending' :- AdvanceEvent(line, record, event, pending);
        Ok(Progress(Pending(pending'), built))
      case StepCompleted(completion) => AdvanceCompletion(line, record, completion, pending, built)
      case StepRejected(rejection) => AdvanceRejection(line, record, rejection, pending, built)
      case Action(_) => Err(Fault(line, record, "record", ActionBeforeStepResult))
      case _ => Err(Unexpected(line, record, "event or step result")))
    case Terminal(outcome) => (
      match record
      case FinalState(final) =>
        var _ :- ValidateFinalState(codec, line, record, final, outcome, built.digest);
        Ok(Progress(Final(outcome), built.(finalState := Some(final))))
      case _ => Err(Fault(line, record, "record", RecordAfterTerminalStep)))
    case Final(outcome) => (
      match record
      case MatchCompleted(completed) =>
        var _ :- ValidateCompletion(line, record, completed, outcome, built);
        Ok(Progress(Complete, built.(matchCompleted := Some(completed))))
      case _ => Err(Unexpected(line, record, "match_completed")))
    case Complete => Err(Fault(line, record, "record", RecordAfterCompletion))
  }

  // ----- The whole transcript -----

  /** Line numbers count from one and sequences from zero, so line `expected + 1` holds record `expected`. */
  function AdvanceNumbered(codec: Codec, progress: Progress, expected: nat, record: RecordV1): Parsed<Progress> {
    var _ :- Demand(record.Sequence() == expected, expected + 1, record, "sequence",
      WrongSequence(expected, record.Sequence()));
    Advance(codec, progress, expected + 1, record)
  }

  function FoldFrom(codec: Codec, progress: Progress, expected: nat, records: seq<RecordV1>): Parsed<Progress>
    decreases |records|
  {
    if records == [] then Ok(progress)
    else
      var progress' :- AdvanceNumbered(codec, progress, expected, records[0]);
      FoldFrom(codec, progress', expected + 1, records[1..])
  }

  function ExpectedAfter(phase: Phase): string {
    match phase
    case AwaitHeader => "header"
    case AwaitMatchCreated => "match_created"
    case Ready => "the next action and terminal step"
    case Pending(pending) => if pending.events == [] then "the step result" else "the remaining events or step result"
    case Terminal(_) => "final_state"
    case Final(_) => "match_completed"
    case Complete => "no more records"
  }

  function IncompleteError(awaiting: string): ParseError {
    ParseError(Lifecycle(Incomplete(awaiting)), ParseContext(None, None, None, None, ""))
  }

  function Finish(progress: Progress): Parsed<TranscriptV1> {
    var built := progress.built;
    if !progress.phase.Complete? then Err(IncompleteError(ExpectedAfter(progress.phase)))
    else if built.header.Some? && built.matchCreated.Some? && built.finalState.Some? && built.matchCompleted.Some? then
      Ok(TranscriptV1(built.header.value, built.matchCreated.value, built.steps, built.finalState.value,
        built.matchCompleted.value))
    else Err(IncompleteError("all required records"))
  }

  function FoldRecords(codec: Codec, records: seq<RecordV1>): Parsed<TranscriptV1> {
    var progress :- FoldFrom(codec, START, 0, records);
    Finish(progress)
  }

  /** Folding two runs one after the other is folding their concatenation. */
  lemma {:induction false} FoldAppend(codec: Codec, progress: Progress, expected: nat,
                                      left: seq<RecordV1>, right: seq<RecordV1>)
    ensures FoldFrom(codec, progress, expected, left + right) ==
            match FoldFrom(codec, progress, expected, left)
            case Err(error) => Err(error)
            case Ok(middle) => FoldFrom(codec, middle, expected + |left|, right)
    decreases |left|
  {
    if left == [] {
      assert left + right == right;
    } else {
      assert (left + right)[1..] == left[1..] + right;
      var next := AdvanceNumbered(codec, progress, expected, left[0]);
      if next.Ok? {
        FoldAppend(codec, next.value, expected + 1, left[1..], right);
      }
    }
  }

  lemma FoldOne(codec: Codec, progress: Progress, expected: nat, record: RecordV1)
    ensures FoldFrom(codec, progress, expected, [record]) == AdvanceNumbered(codec, progress, expected, record)
  {
    var next := AdvanceNumbered(codec, progress, expected, record);
    assert [record][1..] == [];
  }

  // ----- The same fold, updating a builder in place -----

  class TranscriptBuilder {
    var header: Option<HeaderV1>
    var matchCreated: Option<MatchCreatedV1>
    var steps: seq<TranscriptStepV1>
    var finalState: Option<FinalStateV1>
    var matchCompleted: Option<MatchCompletedV1>
    var nextStep: nat
    var eventCount: nat
    var digest: Option<StateDigestV1>

    function Value(): Built
      reads this
    {
      Built(header, matchCreated, steps, finalState, matchCompleted, nextStep, eventCount, digest)
    }

    constructor ()
      ensures Progress(AwaitHeader, Value()) == START
    {
      header, matchCreated, finalState, matchCompleted := None, None, None, None;
      steps, nextStep, eventCount, digest := [], 1, 0, None;
    }

    /** One record of the lifecycle. On failure the builder keeps what it held. */
    method AdvanceRecord(codec: Codec, phase: Phase, line: nat, record: RecordV1) returns (r: Parsed<Phase>)
      modifies this
      ensures match Advance(codec, Progress(phase, old(Value())), line, record)
              case Ok(progress) => r == Ok(progress.phase) && Value() == progress.built
              case Err(error) => r == Err(error) && Value() == old(Value())
    {
      match phase {
        case AwaitHeader =>
          if !record.Header? { return Err(Unexpected(line, record, "header")); }
          header := Some(record.header);
          return Ok(AwaitMatchCreated);
        case AwaitMatchCreated =>
          if !record.MatchCreated? { return Err(Unexpected(line, record, "match_created")); }
          var created := record.created;
          var _ :- ValidateInitialState(codec, line, record, created);
          digest := Some(created.stateDigest);
          matchCreated := Some(created);
          return Ok(Ready);
        case Ready =>
          match record {
            case Action(action) =>
              var _ :- ValidateStep(line, record, nextStep, action.step);
              return Ok(Pending(PendingStep(action, [], None)));
            case Event(_) => return Err(Fault(line, record, "record", EventWithoutAction));
            case FinalState(_) => return Err(Fault(line, record, "record", MissingGameEnded));
            case _ => return Err(Unexpected(line, record, "action"));
          }
        case Pending(pending) =>
          r := AdvancePending(line, record, pending);
        case Terminal(outcome) =>
          if !record.FinalState? { return Err(Fault(line, record, "record", RecordAfterTerminalStep)); }
          var _ :- ValidateFinalState(codec, line, record, record.final, outcome, digest);
          finalState := Some(record.final);
          return Ok(Final(outcome));
        case Final(outcome) =>
          if !record.MatchCompleted? { return Err(Unexpected(line, record, "match_completed")); }
          var _ :- ValidateCompletion(line, record, record.completed, outcome, Value());
          matchCompleted := Some(record.completed);
          return Ok(Complete);
        case Complete =>
          return Err(Fault(line, record, "record", RecordAfterCompletion));
      }
    }

    method AdvancePending(line: nat, record: RecordV1, pending: PendingStep) returns (r: Parsed<Phase>)
      modifies this
      ensures forall codec ::
                match Advance(codec, Progress(Pending(pending), old(Value())), line, record)
                case Ok(progress) => r == Ok(progress.phase) && Value() == progress.built
                case Err(error) => r == Err(error) && Value() == old(Value())
    {
      match record {
        case Event(event) =>
          var pending' :- AdvanceEvent(line, record, event, pending);
          return Ok(Pending(pending'));
        case StepCompleted(completion) =>
          var _ :- ValidateStep(line, record, pending.action.step, completion.step);
          var _ :- Demand(completion.eventCount == |pending.events|, line, record, "event_count",
            WrongEventCount(|pending.events|, completion.eventCount));
          eventCount := eventCount + |pending.events|;
          digest := Some(completion.stateDigest);
          steps := steps + [TranscriptStepV1(pending.action, Accepted(pending.events, completion))];
          nextStep := nextStep + 1;
          return Ok(if pending.gameEnded.Some? then Terminal(pending.gameEnded.value) else Ready);
        case StepRejected(rejection) =>
          var _ :- ValidateStep(line, record, pending.action.step, rejection.step);
          var _ :- Demand(pending.events == [], line, record, "record", RejectedStepHasEvents);
          var _ :- Demand(digest == Some(rejection.stateDigest), line, record, "state_digest", RejectedDigestMismatch);
          steps := steps + [TranscriptStepV1(pending.action, Rejected(rejection))];
          nextStep := nextStep + 1;
          return Ok(Ready);
        case Action(_) => return Err(Fault(line, record, "record", ActionBeforeStepResult));
        case _ => return Err(Unexpected(line, record, "event or step result"));
      }
    }
  }

  method ParseRecords(codec: Codec, records: seq<RecordV1>) returns (r: Parsed<TranscriptV1>)
    ensures r == FoldRecords(codec, records)
  {
    var phase: Phase := AwaitHeader;
    var builder := new TranscriptBuilder();
    var expected := 0;
    while expected < |records|
      invariant expected <= |records|
      invariant FoldFrom(codec, START, 0, records) ==
                FoldFrom(codec, Progress(phase, builder.Value()), expected, records[expected..])
    {
      var record := records[expected];
      var _ :- Demand(record.Sequence() == expected, expected + 1, record, "sequence",
        WrongSequence(expected, record.Sequence()));
      phase :- builder.AdvanceRecord(codec, phase, expected + 1, record);
      expected := expected + 1;
    }
    return Finish(Progress(phase, builder.Value()));
  }
}
