/**
 What the parser answers to a stream it does not accept: the first record that cannot stand where it
 stands, by line, sequence and step, and the first fault this record has after the records before it.
 */
module ParserAnswers {
  import opened Wrappers
  import opened WireState
  import opened StateProjection
  import opened Records
  import opened Parser
  import opened Contract

  /** The error points at this record, which is record `expected` of the stream. */
  predicate PointsAt(context: ParseContext, expected: nat, record: RecordV1) {
    && context.line == Some(expected + 1)
    && context.sequence == Some(record.Sequence())
    && context.step == record.Step()
    && (if record.Event? then context.eventIndex == Some(record.event.index) else context.eventIndex.None?)
  }

  /** The kind of record, or kinds, that the contract lets follow. */
  predicate MayFollow(phase: Phase, record: RecordV1) {
    match phase
    case AwaitHeader => record.Header?
    case AwaitMatchCreated => record.MatchCreated?
    case Ready => record.Action?
    case Pending(_) => record.Event? || record.StepCompleted? || record.StepRejected?
    case Terminal(_) => record.FinalState?
    case Final(_) => record.MatchCompleted?
    case Complete => false
  }

  predicate Tells(error: ParseError, path: string, fault: LifecycleError) {
    error.kind == Lifecycle(fault) && error.context.path == path
  }

  /** The first thing that a record of the right kind has wrong, given the steps and the open step before it. */
  ghost predicate HasFault(codec: Codec, progress: Progress, record: RecordV1, error: ParseError)
    requires Reached(codec, progress) && MayFollow(progress.phase, record)
  {
    var built, phase := progress.built, progress.phase;
    var next := |built.steps| + 1;
    var events := if phase.Pending? then phase.pending.events else [];
    match record
    case Header(_) => false
    case MatchCreated(created) =>
      var digest := codec.digest(created.initialState);
      if created.initialState.status != PlayingV1 then Tells(error, "initial_state.status", InvalidInitialStatus)
      else if digest.Err? then error.kind.InvalidRecord? && error.context.path == "initial_state"
      else digest.value != created.stateDigest && Tells(error, "state_digest", InitialStateDigestMismatch)
    case Action(action) => action.step != next && Tells(error, "step", WrongStep(next, action.step))
    case Event(event) =>
      if event.step != next then Tells(error, "step", WrongStep(next, event.step))
      else if event.index != |events| then Tells(error, "index", WrongEventIndex(|events|, event.index))
      else event.event.GameEndedV1? && Endings(events) != [] && Tells(error, "event.kind", MultipleGameEnded)
    case StepCompleted(completion) =>
      if completion.step != next then Tells(error, "step", WrongStep(next, completion.step))
      else
        && completion.eventCount != |events|
        && Tells(error, "event_count", WrongEventCount(|events|, completion.eventCount))
    case StepRejected(rejection) =>
      if rejection.step != next then Tells(error, "step", WrongStep(next, rejection.step))
      else if events != [] then Tells(error, "record", RejectedStepHasEvents)
      else built.digest != Some(rejection.stateDigest) && Tells(error, "state_digest", RejectedDigestMismatch)
    case FinalState(final) =>
      var digest := codec.digest(final.finalState);
      if !final.finalState.status.EndedV1? then Tells(error, "final_state.status", FinalStateNotEnded)
      else if final.finalState.status.outcome != phase.outcome then
        Tells(error, "final_state.status.outcome", OutcomeMismatch)
      else if digest.Err? then error.kind.InvalidRecord? && error.context.path == "final_state"
      else
        && (built.digest != Some(final.stateDigest) || digest.value != final.stateDigest)
        && Tells(error, "state_digest", FinalStateDigestMismatch)
    case MatchCompleted(completed) =>
      var steps, total := |built.steps|, TotalEvents(built.steps);
      if completed.stepCount != steps then
        Tells(error, "step_count", CompletionStepCount(steps, completed.stepCount))
      else if completed.eventCount != total then
        Tells(error, "event_count", CompletionEventCount(total, completed.eventCount))
      else if built.digest != Some(completed.stateDigest) then Tells(error, "state_digest", CompletionDigestMismatch)
      else if completed.winner != phase.outcome.winner then Tells(error, "winner", OutcomeMismatch)
      else completed.reason != phase.outcome.reason && Tells(error, "reason", OutcomeMismatch)
  }

  /** What a record of the wrong kind is told. */
  function Misplaced(phase: Phase, record: RecordV1): LifecycleError {
    match phase
    case Ready =>
      if record.Event? then EventWithoutAction
      else if record.FinalState? then MissingGameEnded
      else UnexpectedRecord("action", RecordName(record))
    case Pending(_) =>
      if record.Action? then ActionBeforeStepResult else UnexpectedRecord("event or step result", RecordName(record))
    case Terminal(_) => RecordAfterTerminalStep
    case Complete => RecordAfterCompletion
    case AwaitHeader => UnexpectedRecord("header", RecordName(record))
    case AwaitMatchCreated => UnexpectedRecord("match_created", RecordName(record))
    case Final(_) => UnexpectedRecord("match_completed", RecordName(record))
  }

  /** The error blames this record, read after the records in `progress`, for the first thing wrong with it. */
  ghost predicate Blames(codec: Codec, progress: Progress, expected: nat, record: RecordV1, error: ParseError)
    requires Reached(codec, progress)
  {
    && PointsAt(error.context, expected, record)
    && if record.Sequence() != expected then Tells(error, "sequence", WrongSequence(expected, record.Sequence()))
       else if !MayFollow(progress.phase, record) then Tells(error, "record", Misplaced(progress.phase, record))
       else HasFault(codec, progress, record, error)
  }

  lemma PendingBlames(codec: Codec, progress: Progress, expected: nat, record: RecordV1)
    requires Reached(codec, progress) && progress.phase.Pending?
    requires record.Sequence() == expected && Advance(codec, progress, expected + 1, record).Err?
    ensures Blames(codec, progress, expected, record, Advance(codec, progress, expected + 1, record).error)
  {
    hide CreatedRule, StepsRule, NoEnding, TotalEvents, DigestAfter, EventRule, Endings;
  }

  lemma ClosingBlames(codec: Codec, progress: Progress, expected: nat, record: RecordV1)
    requires Reached(codec, progress) && (progress.phase.Terminal? || progress.phase.Final?)
    requires record.Sequence() == expected && Advance(codec, progress, expected + 1, record).Err?
    ensures Blames(codec, progress, expected, record, Advance(codec, progress, expected + 1, record).error)
  {
    hide CreatedRule, StepsRule, NoEnding, TotalEvents, DigestAfter, TerminalRule, FinalRule, CompletionRule, EventRule;
  }

  lemma AdvanceBlames(codec: Codec, progress: Progress, expected: nat, record: RecordV1)
    requires Reached(codec, progress) && AdvanceNumbered(codec, progress, expected, record).Err?
    ensures Blames(codec, progress, expected, record, AdvanceNumbered(codec, progress, expected, record).error)
  {
    if record.Sequence() == expected {
      if progress.phase.Pending? {
        hide Reached, Blames, Advance;
        PendingBlames(codec, progress, expected, record);
      } else if progress.phase.Terminal? || progress.phase.Final? {
        hide Reached, Blames, Advance;
        ClosingBlames(codec, progress, expected, record);
      } else {
        hide StepsRule, NoEnding, TotalEvents, DigestAfter, CompletionRule, FinalRule, TerminalRule, StepsBuilt;
      }
    } else {
      hide Reached, HasFault, Misplaced, MayFollow, Advance;
    }
  }

  lemma {:induction false} FirstThatFails(codec: Codec, records: seq<RecordV1>, k: nat, progress: Progress)
    returns (at: nat, before: Progress)
    requires k <= |records| && FoldFrom(codec, START, 0, records[..k]) == Ok(progress)
    requires FoldFrom(codec, progress, k, records[k..]).Err?
    ensures at < |records| && FoldFrom(codec, START, 0, records[..at]) == Ok(before)
    ensures AdvanceNumbered(codec, before, at, records[at]).Err?
    ensures FoldFrom(codec, progress, k, records[k..]).error ==
            AdvanceNumbered(codec, before, at, records[at]).error
    decreases |records| - k
  {
    hide AdvanceNumbered;
    at, before := k, progress;
    var next := AdvanceNumbered(codec, progress, k, records[k]);
    if next.Ok? {
      assert records[..k + 1] == records[..k] + [records[k]];
      FoldAppend(codec, START, 0, records[..k], [records[k]]);
      FoldOne(codec, progress, k, records[k]);
      at, before := FirstThatFails(codec, records, k + 1, next.value);
    }
  }

  /** What the parser still waits for when a stream ends early. */
  predicate Awaits(phase: Phase, awaited: string) {
    match phase
    case AwaitHeader => awaited == "header"
    case AwaitMatchCreated => awaited == "match_created"
    case Ready => awaited == "the next action and terminal step"
    case Pending(pending) =>
      awaited == if |pending.events| == 0 then "the step result" else "the remaining events or step result"
    case Terminal(_) => awaited == "final_state"
    case Final(_) => awaited == "match_completed"
    case Complete => false
  }

  /**
   A refused stream either stops early, and is told what is missing, or has a first record at fault:
   all before it was in order and told exactly what `Consumed` gives back, and the error blames it.
   */
  lemma RefusalIsTrue(codec: Codec, records: seq<RecordV1>) returns (at: nat, before: Progress)
    requires FoldRecords(codec, records).Err?
    ensures at <= |records| && FoldFrom(codec, START, 0, records[..at]) == Ok(before)
    ensures Reached(codec, before) && Consumed(codec, before) == records[..at]
    ensures var error := FoldRecords(codec, records).error;
            if at < |records| then Blames(codec, before, at, records[at], error)
            else error.kind.Lifecycle? && error.kind.error.Incomplete? &&
                 error.context == ParseContext(None, None, None, None, "") &&
                 Awaits(before.phase, error.kind.error.awaiting)
  {
    hide AdvanceNumbered, Reached, Consumed, Blames;
    assert records[..|records|] == records && records[0..] == records && records[..0] == [];
    if FoldFrom(codec, START, 0, records).Err? {
      at, before := FirstThatFails(codec, records, 0, START);
      FoldedIsReached(codec, records[..at]);
      AdvanceBlames(codec, before, at, records[at]);
    } else {
      at, before := |records|, FoldFrom(codec, START, 0, records).value;
      FoldedIsReached(codec, records);
      CompleteHasAll(codec, before);
    }
  }

  lemma FoldedIsReached(codec: Codec, records: seq<RecordV1>)
    requires FoldFrom(codec, START, 0, records).Ok?
    ensures var progress := FoldFrom(codec, START, 0, records).value;
            Reached(codec, progress) && Consumed(codec, progress) == records
  {
    FoldExtends(codec, START, 0, records);
  }

  lemma CompleteHasAll(codec: Codec, progress: Progress)
    requires Reached(codec, progress)
    ensures progress.phase.Complete? ==> Finish(progress).Ok?
  {
  }
}
