/**
 What replay answers to a transcript it does not verify: where the transcript first departs from the
 engine's run, what it tells there and what is true instead.
 */
module ReplayAnswers {
  import opened Wrappers
  import opened WireState
  import opened StateProjection
  import opened Records
  import opened Replay
  import opened ReplaySoundness
  import R = RecorderRuns
  import D = Domain

  // ----- Before the first step -----

  ghost predicate RevisionLoaded(library: Library, requirement: SetRequirementV1) {
    library.SetRevision(requirement.setCode) == Some(requirement.revision)
  }

  /** Requirement k is the first that the library does not meet. */
  ghost predicate RequirementDiffers(library: Library, requirements: seq<SetRequirementV1>, k: nat,
                                     error: ReplayError) {
    && k < |requirements| && (forall j | 0 <= j < k :: RevisionLoaded(library, requirements[j]))
    && !RevisionLoaded(library, requirements[k])
    && error == Divergence(
         ReplayLocation(Requirements, None, None, "match_created.required_sets.revision"),
         DivergenceKind.SetRevision(requirements[k].setCode, requirements[k].revision,
           library.SetRevision(requirements[k].setCode)))
  }

  ghost predicate RequirementsLoaded(library: Library, requirements: seq<SetRequirementV1>) {
    forall k | 0 <= k < |requirements| :: RevisionLoaded(library, requirements[k])
  }

  lemma {:induction false} RequirementBlamed(library: Library, requirements: seq<SetRequirementV1>, k: nat)
    returns (at: nat)
    requires k <= |requirements| && forall j | 0 <= j < k :: RevisionLoaded(library, requirements[j])
    requires ValidateRequiredSets(requirements[k..], library).Err?
    ensures RequirementDiffers(library, requirements, at, ValidateRequiredSets(requirements[k..], library).error)
    decreases |requirements| - k
  {
    at := k;
    if RevisionLoaded(library, requirements[k]) {
      assert requirements[k..][1..] == requirements[k + 1..];
      at := RequirementBlamed(library, requirements, k + 1);
    }
  }

  /** The written first state cannot be rebuilt; or is not what it rebuilds to; or else has another digest. */
  ghost predicate OpeningDiffers(codec: Codec, library: Library, created: MatchCreatedV1, error: ReplayError) {
    var rebuilt, digest := codec.rebuild(created.initialState, library.coreCards), codec.digest(created.initialState);
    var projected := rebuilt.Ok? && codec.project(rebuilt.value) == created.initialState;
    && error.location == ReplayLocation(InitialState, None, None,
         if projected then "match_created.state_digest" else "match_created.initial_state")
    && match error
       case StateRebuildFailed(_, failure) => rebuilt == Err(failure)
       case CanonicalStateUnavailable(_, failure) => projected && digest == Err(failure)
       case Divergence(_, InitialProjection(expected, actual)) =>
         && rebuilt.Ok? && expected == created.initialState && actual == codec.project(rebuilt.value)
         && expected != actual
       case Divergence(_, StateDigest(expected, actual)) =>
         projected && expected == created.stateDigest && digest == Ok(actual) && expected != actual
       case _ => false
  }

  lemma OpeningBlamed(codec: Codec, library: Library, created: MatchCreatedV1)
    requires RequirementsLoaded(library, created.requiredSets)
    requires PrepareInitialState(codec, created, library).Err?
    ensures OpeningDiffers(codec, library, created, PrepareInitialState(codec, created, library).error)
  {
    hide ValidateRequiredSets;
    assert forall k | 0 <= k < |created.requiredSets| :: RevisionLoaded(library, created.requiredSets[k]);
  }

  // ----- One step -----

  function WireAt(expected: seq<EventRecordV1>, index: nat): Option<EventV1> {
    if index < |expected| then Some(expected[index].event) else None
  }

  function ToldAt(codec: Codec, actual: seq<GameEvent>, index: nat): Option<EventV1> {
    if index < |actual| then Some(codec.EventToWire(actual[index])) else None
  }

  /** The events agree up to this index and not at it. */
  ghost predicate EventsDiffer(codec: Codec, expected: seq<EventRecordV1>, actual: seq<GameEvent>, index: nat,
                               error: ReplayError) {
    && index < Longer(|expected|, |actual|) && !EventAgrees(codec, expected, actual, index)
    && (forall k | 0 <= k < index :: EventAgrees(codec, expected, actual, k))
    && error.location.eventIndex == Some(index) && error.location.path == "events.event"
    && match error
       case WireConversionFailed(_, failure) =>
         index < |expected| && codec.EventFromWire(expected[index].event) == Err(failure)
       case Divergence(_, EventDiffers(wire, told)) =>
         wire == WireAt(expected, index) && told == ToldAt(codec, actual, index)
       case _ => false
  }

  lemma EventBlamed(codec: Codec, step: nat, expected: seq<EventRecordV1>, actual: seq<GameEvent>, index: nat)
    requires index < Longer(|expected|, |actual|)
    requires forall k | 0 <= k < index :: EventAgrees(codec, expected, actual, k)
    requires VerifyEvent(codec, step, index, EventAt(expected, index), EventAt(actual, index)).Err?
    ensures var error := VerifyEvent(codec, step, index, EventAt(expected, index), EventAt(actual, index)).error;
            EventsDiffer(codec, expected, actual, index, error) && error.location.phase == Step &&
            error.location.step == Some(step)
  {
  }

  lemma {:induction false} EventsBlamed(codec: Codec, step: nat, expected: seq<EventRecordV1>, actual: seq<GameEvent>,
                                        index: nat)
    returns (at: nat)
    requires forall k | 0 <= k < index :: EventAgrees(codec, expected, actual, k)
    requires VerifyEventsFrom(codec, step, expected, actual, index).Err?
    ensures var error := VerifyEventsFrom(codec, step, expected, actual, index).error;
            EventsDiffer(codec, expected, actual, at, error) && error.location.phase == Step &&
            error.location.step == Some(step)
    decreases Longer(|expected|, |actual|) - index
  {
    hide VerifyEvent, EventAgrees, EventsDiffer;
    at := index;
    EventVerifiesExactly(codec, step, expected, actual, index);
    if VerifyEvent(codec, step, index, EventAt(expected, index), EventAt(actual, index)).Ok? {
      at := EventsBlamed(codec, step, expected, actual, index + 1);
    } else {
      EventBlamed(codec, step, expected, actual, index);
    }
  }

  /** The error is about this field of a step. */
  predicate Names(error: ReplayError, path: string) {
    error.location.eventIndex.None? && error.location.path == path
  }

  /** What the step tells is not what the engine answered in this state. */
  ghost predicate StepDiffers(codec: Codec, engine: Engine, step: TranscriptStepV1, before: D.GameState,
                              error: ReplayError) {
    var action := codec.ActionFromWire(step.action.action);
    && error.location.phase == Step && error.location.step == Some(step.action.step)
    && if action.Err? then
         error.WireConversionFailed? && error.conversionError == action.error && Names(error, "action")
       else AnswerDiffers(codec, step.result, engine(before, action.value), before, error)
  }

  ghost predicate AnswerDiffers(codec: Codec, result: TranscriptStepResultV1, response: ApplyResult,
                                before: D.GameState, error: ReplayError) {
    match (result, response)
    case (Accepted(_, _), Refused(refusal)) =>
      && error.Divergence? && error.kind == StepResult(ReplayAccepted, ReplayRejected(codec.errorToWire(refusal)))
      && Names(error, "result")
    case (Rejected(rejection), Applied(_, _)) =>
      && error.Divergence? && error.kind == StepResult(ReplayRejected(rejection.error), ReplayAccepted)
      && Names(error, "result")
    case (Accepted(events, completion), Applied(state, actual)) =>
      || (exists index :: EventsDiffer(codec, events, actual, index, error))
      || (DigestDiffers(codec, completion.stateDigest, state, error) && Names(error, "state_digest") &&
            forall k | 0 <= k < Longer(|events|, |actual|) :: EventAgrees(codec, events, actual, k))
    case (Rejected(rejection), Refused(refusal)) =>
      if codec.errorFromWire(rejection.error) != refusal then
        && error.Divergence? && error.kind == RejectedError(rejection.error, codec.errorToWire(refusal))
        && Names(error, "error")
      else DigestDiffers(codec, rejection.stateDigest, before, error) && Names(error, "state_digest")
  }

  /** The digest told for a state is not its digest, or it has none. */
  ghost predicate DigestDiffers(codec: Codec, told: StateDigestV1, state: D.GameState, error: ReplayError) {
    match error
    case CanonicalStateUnavailable(_, failure) => codec.digest(codec.project(state)) == Err(failure)
    case Divergence(_, StateDigest(expected, actual)) =>
      expected == told && codec.digest(codec.project(state)) == Ok(actual) && expected != actual
    case _ => false
  }

  lemma AcceptedBlamed(codec: Codec, number: nat, events: seq<EventRecordV1>, digest: StateDigestV1,
                       state: D.GameState, actual: seq<GameEvent>)
    requires VerifyAcceptedStep(codec, number, events, digest, state, actual).Err?
    ensures var error := VerifyAcceptedStep(codec, number, events, digest, state, actual).error;
            && error.location.phase == Step && error.location.step == Some(number)
            && ((exists index :: EventsDiffer(codec, events, actual, index, error)) ||
                (DigestDiffers(codec, digest, state, error) && Names(error, "state_digest") &&
                 forall k | 0 <= k < Longer(|events|, |actual|) :: EventAgrees(codec, events, actual, k)))
  {
    hide EventsDiffer, VerifyEventsFrom, EventAgrees;
    EventsVerifyExactly(codec, number, events, actual, 0);
    if VerifyEventsFrom(codec, number, events, actual, 0).Err? {
      var index := EventsBlamed(codec, number, events, actual, 0);
    }
  }

  lemma StepBlamed(codec: Codec, engine: Engine, at: Position, step: TranscriptStepV1)
    requires codec.digest(codec.project(at.state)) == Ok(at.digest)
    requires ReplayStep(codec, Untouched(engine), at, step).Err?
    ensures StepDiffers(codec, engine, step, at.state, ReplayStep(codec, Untouched(engine), at, step).error)
  {
    hide VerifyAcceptedStep, EventsDiffer;
    var action := codec.ActionFromWire(step.action.action);
    if action.Ok? && step.result.Accepted? && engine(at.state, action.value).Applied? {
      var answer := engine(at.state, action.value);
      AcceptedBlamed(codec, step.action.step, step.result.events, step.result.completion.stateDigest, answer.state,
        answer.events);
    }
  }

  /** The first k steps tell the engine's run, which leads to this state, and step k does not go on with it. */
  ghost predicate DepartsAt(codec: Codec, engine: Engine, initial: D.GameState, steps: seq<TranscriptStepV1>, k: nat,
                            error: ReplayError) {
    && k < |steps|
    && var calls := EngineCalls(codec, engine, initial, steps[..k]);
       && StepsHold(codec, initial, steps[..k], calls)
       && StepDiffers(codec, engine, steps[k], R.StateAfter(initial, calls), error)
  }

  lemma {:induction false} RunBlamed(codec: Codec, engine: Engine, at: Position, steps: seq<TranscriptStepV1>)
    returns (k: nat)
    requires codec.digest(codec.project(at.state)) == Ok(at.digest)
    requires ReplayFrom(codec, Untouched(engine), at, steps).Err?
    ensures DepartsAt(codec, engine, at.state, steps, k, ReplayFrom(codec, Untouched(engine), at, steps).error)
    decreases |steps|
  {
    hide ReplayStep, StepHolds, StepsHold, R.StateAfter, StepDiffers;
    var step, rest := steps[0], steps[1..];
    var next := ReplayStep(codec, Untouched(engine), at, step);
    StepVerifiesExactly(codec, engine, at, step);
    if next.Err? {
      k := 0;
      EmptyRunHolds(codec, at.state);
      StepBlamed(codec, engine, at, step);
      assert steps[..0] == [];
    } else {
      var later := RunBlamed(codec, engine, next.value, rest);
      k := later + 1;
      var action := codec.ActionFromWire(step.action.action).value;
      var call := R.Call(action, engine(at.state, action));
      var calls := EngineCalls(codec, engine, After(at.state, call), rest[..later]);
      assert steps[..k] == [step] + rest[..later];
      assert EngineCalls(codec, engine, at.state, steps[..k]) == [call] + calls by {
        assert steps[..k][1..] == rest[..later];
      }
      StepsHoldCons(codec, at.state, step, rest[..later], call, calls);
      StateAfterCons(at.state, call, calls);
    }
  }

  // ----- The ending -----

  /** What the closing records tell is not how the engine's run ended. */
  ghost predicate EndDiffers(codec: Codec, transcript: TranscriptV1, final: D.GameState, calls: seq<R.Call>,
                             error: ReplayError) {
    FactsDiffer(codec, transcript, final, ReplayFacts(|calls|, EventTotal(calls), Endings(calls)), error)
  }

  ghost predicate FactsDiffer(codec: Codec, transcript: TranscriptV1, final: D.GameState, facts: ReplayFacts,
                              error: ReplayError) {
    var told, completed, endings := transcript.finalState, transcript.matchCompleted, facts.gameEnded;
    var stateTold := codec.project(final) == told.finalState;
    var endedOnce := stateTold && |endings| == 1;
    var ended := endedOnce && final.status.Ended?;
    var outcomeTold := ended && OutcomeToWire(final.status.outcome) == endings[0];
    var winnerTold := outcomeTold && completed.winner == endings[0].winner;
    var reasonTold := winnerTold && completed.reason == endings[0].reason;
    var stepsTold := reasonTold && completed.stepCount == facts.stepCount;
    var eventsTold := stepsTold && completed.eventCount == facts.eventCount;
    var digest := codec.digest(codec.project(final));
    var finalTold := eventsTold && digest == Ok(told.stateDigest);
    && error.location == ReplayLocation(Completion, None, None,
         if finalTold then "match_completed.state_digest"
         else if eventsTold then "final_state.state_digest"
         else if stepsTold then "match_completed.event_count"
         else if reasonTold then "match_completed.step_count"
         else if winnerTold then "match_completed.reason"
         else if outcomeTold then "match_completed.winner"
         else if ended then "final_state.final_state.status.outcome"
         else if endedOnce then "final_state.final_state.status"
         else if stateTold then "events.game_ended"
         else "final_state.final_state")
    && match error
       case CanonicalStateUnavailable(_, failure) => eventsTold && digest == Err(failure)
       case Divergence(_, kind) => (
         match kind
         case FinalStateDiffers(expected, actual) =>
           expected == told.finalState && actual == codec.project(final) && expected != actual
         case GameEndedCount(expected, actual) =>
           stateTold && expected == 1 && actual == if endedOnce then 0 else |endings|
         case GameEndedOutcome(expected, actual) =>
           ended && expected == OutcomeToWire(final.status.outcome) && actual == endings[0] && expected != actual
         case WinnerDiffers(expected, actual) =>
           outcomeTold && expected == completed.winner && actual == endings[0].winner && expected != actual
         case LossReasonDiffers(expected, actual) =>
           winnerTold && expected == completed.reason && actual == endings[0].reason && expected != actual
         case StepCountDiffers(expected, actual) =>
           reasonTold && expected == completed.stepCount && actual == facts.stepCount && expected != actual
         case EventCountDiffers(expected, actual) =>
           stepsTold && expected == completed.eventCount && actual == facts.eventCount && expected != actual
         case StateDigest(expected, actual) =>
           && eventsTold && expected == (if finalTold then completed.stateDigest else told.stateDigest)
           && digest == Ok(actual) && expected != actual
         case _ => false)
       case _ => false
  }

  lemma FactsBlamed(codec: Codec, transcript: TranscriptV1, final: D.GameState, facts: ReplayFacts)
    requires VerifyCompletion(codec, transcript, final, facts).Err?
    ensures FactsDiffer(codec, transcript, final, facts, VerifyCompletion(codec, transcript, final, facts).error)
  {
    hide OutcomeToWire;
  }

  // ----- The whole answer -----

  /** The error is true of the transcript, and nothing that replay looks at earlier is wrong with it. */
  ghost predicate Departs(codec: Codec, engine: Engine, library: Library, transcript: TranscriptV1,
                          error: ReplayError) {
    var created, steps := transcript.matchCreated, transcript.steps;
    if !RequirementsLoaded(library, created.requiredSets) then
      exists k :: RequirementDiffers(library, created.requiredSets, k, error)
    else
      var rebuilt := codec.rebuild(created.initialState, library.coreCards);
      if rebuilt.Err? || !OpeningHolds(codec, library, created, rebuilt.value) then
        OpeningDiffers(codec, library, created, error)
      else
        var initial := rebuilt.value;
        var calls := EngineCalls(codec, engine, initial, steps);
        if StepsHold(codec, initial, steps, calls) then
          EndDiffers(codec, transcript, R.StateAfter(initial, calls), calls, error)
        else exists k :: DepartsAt(codec, engine, initial, steps, k, error)
  }

  lemma PreparedRunBlamed(codec: Codec, engine: Engine, library: Library, transcript: TranscriptV1,
                          initial: D.GameState)
    requires PrepareInitialState(codec, transcript.matchCreated, library) == Ok(initial)
    requires OpeningHolds(codec, library, transcript.matchCreated, initial)
    requires Verify(codec, Untouched(engine), library, transcript).Err?
    ensures var error := Verify(codec, Untouched(engine), library, transcript).error;
            var calls := EngineCalls(codec, engine, initial, transcript.steps);
            if StepsHold(codec, initial, transcript.steps, calls) then
              EndDiffers(codec, transcript, R.StateAfter(initial, calls), calls, error)
            else exists k :: DepartsAt(codec, engine, initial, transcript.steps, k, error)
  {
    hide ReplayFrom, VerifyCompletion, FactsDiffer, StepsHold, PrepareInitialState, EngineCalls, Endings, EventTotal,
      DepartsAt;
    var calls := EngineCalls(codec, engine, initial, transcript.steps);
    var at := Position(initial, transcript.matchCreated.stateDigest, NO_FACTS);
    RunVerifiesExactly(codec, engine, at, transcript.steps);
    assert NO_FACTS.gameEnded + Endings(calls) == Endings(calls);
    if StepsHold(codec, initial, transcript.steps, calls) {
      FactsBlamed(codec, transcript, R.StateAfter(initial, calls),
        ReplayFacts(|calls|, EventTotal(calls), Endings(calls)));
    } else {
      var k := RunBlamed(codec, engine, at, transcript.steps);
    }
  }

  /** A transcript that replay refuses departs from the engine's run just where and how the error says. */
  lemma RefusalIsTrue(codec: Codec, engine: Engine, library: Library, transcript: TranscriptV1)
    requires Verify(codec, Untouched(engine), library, transcript).Err?
    ensures Departs(codec, engine, library, transcript, Verify(codec, Untouched(engine), library, transcript).error)
  {
    hide EndDiffers, OpeningDiffers, DepartsAt, StepsHold, OpeningHolds, EngineCalls, ReplaySteps, VerifyCompletion,
      RequirementDiffers;
    var created := transcript.matchCreated;
    PreparedExactly(codec, library, created);
    ValidatedExactly(library, created.requiredSets);
    var prepared := PrepareInitialState(codec, created, library);
    if !RequirementsLoaded(library, created.requiredSets) {
      assert created.requiredSets[0..] == created.requiredSets;
      var k := RequirementBlamed(library, created.requiredSets, 0);
    } else if prepared.Err? {
      OpeningBlamed(codec, library, created);
    } else {
      PreparedRunBlamed(codec, engine, library, transcript, prepared.value);
    }
  }

  lemma ValidatedExactly(library: Library, requirements: seq<SetRequirementV1>)
    ensures ValidateRequiredSets(requirements, library).Ok? <==> RequirementsLoaded(library, requirements)
  {
  }
}
