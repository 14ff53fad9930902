/**
 Replay succeeds exactly when the transcript is a true account of the engine's run: a condition
 stated over the whole run, with no loop, no running digest and no running totals.
 */
module ReplaySoundness {
  import opened Wrappers
  import opened WireState
  import opened StateProjection
  import opened Records
  import opened Replay
  import R = RecorderRuns
  import D = Domain

  // ----- The true account of a run -----

  /** The calls the recorded actions make to the engine, up to the first action that cannot be converted. */
  function EngineCalls(codec: Codec, engine: Engine, state: D.GameState, steps: seq<TranscriptStepV1>)
    : (calls: seq<R.Call>)
    ensures |calls| <= |steps|
    decreases |steps|
  {
    if steps == [] then []
    else
      match codec.ActionFromWire(steps[0].action.action)
      case Err(_) => []
      case Ok(action) =>
        var call := R.Call(action, engine(state, action));
        [call] + EngineCalls(codec, engine, After(state, call), steps[1..])
  }

  function After(state: D.GameState, call: R.Call): D.GameState {
    match call.response
    case Applied(next, _) => next
    case Refused(_) => state
  }

  /** The step records what the engine answered: the outcome, the events in order, the error and the digest. */
  ghost predicate StepHolds(codec: Codec, step: TranscriptStepV1, before: D.GameState, call: R.Call) {
    && codec.ActionFromWire(step.action.action) == Ok(call.action)
    && match call.response
       case Applied(state, events) =>
         && step.result.Accepted?
         && |step.result.events| == |events|
         && (forall k | 0 <= k < |events| :: codec.EventFromWire(step.result.events[k].event) == Ok(events[k]))
         && codec.digest(codec.project(state)) == Ok(step.result.completion.stateDigest)
       case Refused(error) =>
         && step.result.Rejected?
         && codec.errorFromWire(step.result.rejection.error) == error
         && codec.digest(codec.project(before)) == Ok(step.result.rejection.stateDigest)
  }

  ghost predicate StepsHold(codec: Codec, initial: D.GameState, steps: seq<TranscriptStepV1>, calls: seq<R.Call>) {
    && |steps| == |calls|
    && forall k | 0 <= k < |calls| :: StepHolds(codec, steps[k], R.StateAfter(initial, calls[..k]), calls[k])
  }

  function CallEvents(call: R.Call): seq<GameEvent> {
    match call.response
    case Applied(_, events) => events
    case Refused(_) => []
  }

  /** All `GameEnded` outcomes of a run, in order. */
  function Endings(calls: seq<R.Call>): seq<GameOutcomeV1> {
    if calls == [] then [] else EndedInWire(CallEvents(calls[0])) + Endings(calls[1..])
  }

  function EventTotal(calls: seq<R.Call>): nat {
    if calls == [] then 0 else |CallEvents(calls[0])| + EventTotal(calls[1..])
  }

  ghost predicate OpeningHolds(codec: Codec, library: Library, created: MatchCreatedV1, initial: D.GameState) {
    && (forall k | 0 <= k < |created.requiredSets| ::
          library.SetRevision(created.requiredSets[k].setCode) == Some(created.requiredSets[k].revision))
    && codec.rebuild(created.initialState, library.coreCards) == Ok(initial)
    && codec.project(initial) == created.initialState
    && codec.digest(created.initialState) == Ok(created.stateDigest)
  }

  ghost predicate EndHolds(codec: Codec, transcript: TranscriptV1, final: D.GameState, calls: seq<R.Call>) {
    var outcome := GameOutcomeV1(transcript.matchCompleted.winner, transcript.matchCompleted.reason);
    && codec.project(final) == transcript.finalState.finalState
    && final.status.Ended? && OutcomeToWire(final.status.outcome) == outcome
    && Endings(calls) == [outcome]
    && transcript.matchCompleted.stepCount == |calls|
    && transcript.matchCompleted.eventCount == EventTotal(calls)
    && codec.digest(transcript.finalState.finalState) == Ok(transcript.finalState.stateDigest)
    && transcript.matchCompleted.stateDigest == transcript.finalState.stateDigest
  }

  /** The transcript tells exactly what the engine does from the state it starts in. */
  ghost predicate TrueAccount(codec: Codec, engine: Engine, library: Library, transcript: TranscriptV1) {
    exists initial ::
      && OpeningHolds(codec, library, transcript.matchCreated, initial)
      && var calls := EngineCalls(codec, engine, initial, transcript.steps);
         && StepsHold(codec, initial, transcript.steps, calls)
         && EndHolds(codec, transcript, R.StateAfter(initial, calls), calls)
  }

  // ----- One step -----

  ghost predicate EventAgrees(codec: Codec, expected: seq<EventRecordV1>, actual: seq<GameEvent>, k: nat) {
    k < |expected| && k < |actual| && codec.EventFromWire(expected[k].event) == Ok(actual[k])
  }

  lemma EventVerifiesExactly(codec: Codec, step: nat, expected: seq<EventRecordV1>, actual: seq<GameEvent>, index: nat)
    requires index < Longer(|expected|, |actual|)
    ensures VerifyEvent(codec, step, index, EventAt(expected, index), EventAt(actual, index)).Ok? <==>
            EventAgrees(codec, expected, actual, index)
  {
    if index < |expected| {
      var core := codec.EventFromWire(expected[index].event);
    }
  }

  /** The event comparison passes exactly when both lists have the same length and agree everywhere. */
  lemma {:induction false} EventsVerifyExactly(codec: Codec, step: nat, expected: seq<EventRecordV1>,
                                               actual: seq<GameEvent>, index: nat)
    ensures VerifyEventsFrom(codec, step, expected, actual, index).Ok? <==>
            forall k | index <= k < Longer(|expected|, |actual|) :: EventAgrees(codec, expected, actual, k)
    decreases Longer(|expected|, |actual|) - index
  {
    hide VerifyEvent, EventAgrees;
    if index < Longer(|expected|, |actual|) {
      EventsVerifyExactly(codec, step, expected, actual, index + 1);
      EventVerifiesExactly(codec, step, expected, actual, index);
    }
  }

  lemma AcceptedVerifiesExactly(codec: Codec, number: nat, events: seq<EventRecordV1>, digest: StateDigestV1,
                                state: D.GameState, actual: seq<GameEvent>)
    ensures VerifyAcceptedStep(codec, number, events, digest, state, actual).Ok? <==>
            && |events| == |actual|
            && (forall k | 0 <= k < |actual| :: codec.EventFromWire(events[k].event) == Ok(actual[k]))
            && codec.digest(codec.project(state)) == Ok(digest)
    ensures VerifyAcceptedStep(codec, number, events, digest, state, actual).Ok? ==>
            VerifyAcceptedStep(codec, number, events, digest, state, actual).value == digest
  {
    EventsVerifyExactly(codec, number, events, actual, 0);
    var shorter := if |events| < |actual| then |events| else |actual|;
    assert |events| != |actual| ==>
      shorter < Longer(|events|, |actual|) && !EventAgrees(codec, events, actual, shorter);
    assert forall k: nat | k < |events| == |actual| ::
        EventAgrees(codec, events, actual, k) <==> codec.EventFromWire(events[k].event) == Ok(actual[k]);
  }

  /**
   Whatever the engine leaves behind, a verified refusal kept the projection, the card pool and
   the digest of the state it was given.
   */
  lemma RejectedVerifiesExactly(codec: Codec, number: nat, rejection: StepRejectedV1, error: ActionError,
                                before: D.GameState, after: D.GameState, digest: StateDigestV1)
    requires codec.digest(codec.project(before)) == Ok(digest)
    ensures VerifyRejectedStep(codec, number, rejection, error, before, after, digest).Ok? <==>
            && codec.errorFromWire(rejection.error) == error
            && codec.project(after) == codec.project(before)
            && after.cards.handle == before.cards.handle
            && rejection.stateDigest == digest
  {
  }

  lemma StepVerifiesExactly(codec: Codec, engine: Engine, at: Position, step: TranscriptStepV1)
    requires codec.digest(codec.project(at.state)) == Ok(at.digest)
    ensures var replayed := ReplayStep(codec, Untouched(engine), at, step);
            var action := codec.ActionFromWire(step.action.action);
            && (replayed.Ok? <==> (action.Ok? &&
                  StepHolds(codec, step, at.state, R.Call(action.value, engine(at.state, action.value)))))
            && (replayed.Ok? ==>
                  var call := R.Call(action.value, engine(at.state, action.value));
                  && replayed.value.state == After(at.state, call)
                  && codec.digest(codec.project(replayed.value.state)) == Ok(replayed.value.digest)
                  && replayed.value.facts == ReplayFacts(at.facts.stepCount + 1,
                       at.facts.eventCount + |CallEvents(call)|, at.facts.gameEnded + EndedInWire(CallEvents(call))))
  {
    hide VerifyAcceptedStep, VerifyRejectedStep;
    var action := codec.ActionFromWire(step.action.action);
    if action.Ok? {
      var response := engine(at.state, action.value);
      match (step.result, response)
      case (Accepted(events, completion), Applied(state, actual)) =>
        AcceptedVerifiesExactly(codec, step.action.step, events, completion.stateDigest, state, actual);
      case (Rejected(rejection), Refused(error)) =>
        RejectedVerifiesExactly(codec, step.action.step, rejection, error, at.state, at.state, at.digest);
        assert at.facts.gameEnded + [] == at.facts.gameEnded;
      case _ =>
    }
  }

  // ----- The whole run -----

  lemma {:induction false} StateAfterCons(state: D.GameState, call: R.Call, rest: seq<R.Call>)
    ensures R.StateAfter(state, [call] + rest) == R.StateAfter(After(state, call), rest)
    decreases |rest|
  {
    var calls := [call] + rest;
    if rest == [] {
      assert calls[..0] == [];
    } else {
      assert calls[..|calls| - 1] == [call] + rest[..|rest| - 1];
      StateAfterCons(state, call, rest[..|rest| - 1]);
    }
  }

  lemma StepsHoldCons(codec: Codec, state: D.GameState, step: TranscriptStepV1, steps: seq<TranscriptStepV1>,
                      call: R.Call, calls: seq<R.Call>)
    ensures StepsHold(codec, state, [step] + steps, [call] + calls) <==>
            StepHolds(codec, step, state, call) && StepsHold(codec, After(state, call), steps, calls)
  {
    var allSteps, allCalls := [step] + steps, [call] + calls;
    assert allCalls[..0] == [];
    forall k: nat | k < |calls|
      ensures R.StateAfter(state, allCalls[..k + 1]) == R.StateAfter(After(state, call), calls[..k])
    {
      assert allCalls[..k + 1] == [call] + calls[..k];
      StateAfterCons(state, call, calls[..k]);
    }
    if StepsHold(codec, state, allSteps, allCalls) {
      assert StepHolds(codec, allSteps[0], R.StateAfter(state, allCalls[..0]), allCalls[0]);
      forall k | 0 <= k < |calls|
        ensures StepHolds(codec, steps[k], R.StateAfter(After(state, call), calls[..k]), calls[k])
      {
        assert StepHolds(codec, allSteps[k + 1], R.StateAfter(state, allCalls[..k + 1]), allCalls[k + 1]);
      }
    }
    if StepHolds(codec, step, state, call) && StepsHold(codec, After(state, call), steps, calls) {
      forall k | 0 <= k < |allCalls|
        ensures StepHolds(codec, allSteps[k], R.StateAfter(state, allCalls[..k]), allCalls[k])
      {
        if k > 0 {
          assert StepHolds(codec, steps[k - 1], R.StateAfter(After(state, call), calls[..k - 1]), calls[k - 1]);
        }
      }
    }
  }

  lemma {:induction false} RunVerifiesExactly(codec: Codec, engine: Engine, at: Position, steps: seq<TranscriptStepV1>)
    requires codec.digest(codec.project(at.state)) == Ok(at.digest)
    ensures var replayed := ReplayFrom(codec, Untouched(engine), at, steps);
            var calls := EngineCalls(codec, engine, at.state, steps);
            && (replayed.Ok? <==> StepsHold(codec, at.state, steps, calls))
            && (replayed.Ok? ==>
                  && replayed.value.state == R.StateAfter(at.state, calls)
                  && replayed.value.facts == ReplayFacts(at.facts.stepCount + |calls|,
                       at.facts.eventCount + EventTotal(calls), at.facts.gameEnded + Endings(calls)))
    decreases |steps|
  {
    hide ReplayStep, StepHolds, StepsHold, R.StateAfter;
    if steps == [] {
      EmptyRunHolds(codec, at.state);
      assert at.facts.gameEnded + [] == at.facts.gameEnded;
    } else {
      var step, rest := steps[0], steps[1..];
      assert steps == [step] + rest;
      var action := codec.ActionFromWire(step.action.action);
      StepVerifiesExactly(codec, engine, at, step);
      if action.Err? {
        ShortRunFails(codec, at.state, steps, []);
      } else {
        var call := R.Call(action.value, engine(at.state, action.value));
        var calls := EngineCalls(codec, engine, After(at.state, call), rest);
        StepsHoldCons(codec, at.state, step, rest, call, calls);
        StateAfterCons(at.state, call, calls);
        assert EngineCalls(codec, engine, at.state, steps) == [call] + calls;
        var next := ReplayStep(codec, Untouched(engine), at, step);
        if next.Ok? {
          RunVerifiesExactly(codec, engine, next.value, rest);
          assert ([call] + calls)[1..] == calls;
          assert at.facts.gameEnded + (EndedInWire(CallEvents(call)) + Endings(calls)) ==
                 at.facts.gameEnded + EndedInWire(CallEvents(call)) + Endings(calls);
        }
      }
    }
  }

  lemma EmptyRunHolds(codec: Codec, state: D.GameState)
    ensures StepsHold(codec, state, [], []) && R.StateAfter(state, []) == state
  {
  }

  lemma ShortRunFails(codec: Codec, state: D.GameState, steps: seq<TranscriptStepV1>, calls: seq<R.Call>)
    requires |calls| < |steps|
    ensures !StepsHold(codec, state, steps, calls)
  {
  }

  lemma CompletionVerifiesExactly(codec: Codec, transcript: TranscriptV1, final: D.GameState, calls: seq<R.Call>)
    ensures VerifyCompletion(codec, transcript, final, ReplayFacts(|calls|, EventTotal(calls), Endings(calls))).Ok? <==>
            EndHolds(codec, transcript, final, calls)
  {
    hide VerifyCompletion, EndHolds;
    if VerifyCompletion(codec, transcript, final, ReplayFacts(|calls|, EventTotal(calls), Endings(calls))).Ok? {
      VerifiedEndHolds(codec, transcript, final, calls);
    }
    if EndHolds(codec, transcript, final, calls) {
      TrueEndVerifies(codec, transcript, final, calls);
    }
  }

  lemma VerifiedEndHolds(codec: Codec, transcript: TranscriptV1, final: D.GameState, calls: seq<R.Call>)
    requires VerifyCompletion(codec, transcript, final, ReplayFacts(|calls|, EventTotal(calls), Endings(calls))).Ok?
    ensures EndHolds(codec, transcript, final, calls)
  {
    hide VerifyCompletion, Endings, EventTotal, OutcomeToWire;
    VerifiedFacts(codec, transcript, final, ReplayFacts(|calls|, EventTotal(calls), Endings(calls)));
  }

  lemma VerifiedFacts(codec: Codec, transcript: TranscriptV1, final: D.GameState, facts: ReplayFacts)
    requires VerifyCompletion(codec, transcript, final, facts).Ok?
    ensures var completed := transcript.matchCompleted;
            && codec.project(final) == transcript.finalState.finalState
            && final.status.Ended? && facts.gameEnded == [OutcomeToWire(final.status.outcome)]
            && facts.gameEnded == [GameOutcomeV1(completed.winner, completed.reason)]
            && completed.stepCount == facts.stepCount && completed.eventCount == facts.eventCount
            && codec.digest(transcript.finalState.finalState) == Ok(transcript.finalState.stateDigest)
            && completed.stateDigest == transcript.finalState.stateDigest
  {
    hide OutcomeToWire, Demand, VerifyDigest;
  }

  lemma TrueEndVerifies(codec: Codec, transcript: TranscriptV1, final: D.GameState, calls: seq<R.Call>)
    requires EndHolds(codec, transcript, final, calls)
    ensures VerifyCompletion(codec, transcript, final, ReplayFacts(|calls|, EventTotal(calls), Endings(calls))).Ok?
  {
    hide Endings, EventTotal, OutcomeToWire, Demand;
  }

  /** From a prepared first state the steps and the ending are all that is left to check. */
  lemma ReplayFromPrepared(codec: Codec, engine: Engine, library: Library, transcript: TranscriptV1,
                           initial: D.GameState)
    requires PrepareInitialState(codec, transcript.matchCreated, library) == Ok(initial)
    requires OpeningHolds(codec, library, transcript.matchCreated, initial)
    ensures var calls := EngineCalls(codec, engine, initial, transcript.steps);
            Verify(codec, Untouched(engine), library, transcript).Ok? <==>
            StepsHold(codec, initial, transcript.steps, calls) &&
            EndHolds(codec, transcript, R.StateAfter(initial, calls), calls)
  {
    hide ReplayFrom, VerifyCompletion, EndHolds, StepsHold, PrepareInitialState, EngineCalls, Endings, EventTotal;
    var calls := EngineCalls(codec, engine, initial, transcript.steps);
    RunVerifiesExactly(codec, engine, Position(initial, transcript.matchCreated.stateDigest, NO_FACTS),
      transcript.steps);
    assert NO_FACTS.gameEnded + Endings(calls) == Endings(calls);
    CompletionVerifiesExactly(codec, transcript, R.StateAfter(initial, calls), calls);
  }

  /** Replay passes exactly on the transcripts that are true accounts; no digest needs to be injective. */
  lemma ReplayDecidesTruth(codec: Codec, engine: Engine, library: Library, transcript: TranscriptV1)
    ensures Verify(codec, Untouched(engine), library, transcript).Ok? <==>
            TrueAccount(codec, engine, library, transcript)
  {
    hide EndHolds, StepsHold, OpeningHolds, PrepareInitialState, EngineCalls, ReplaySteps, VerifyCompletion;
    var prepared := PrepareInitialState(codec, transcript.matchCreated, library);
    PreparedExactly(codec, library, transcript.matchCreated);
    if prepared.Ok? {
      ReplayFromPrepared(codec, engine, library, transcript, prepared.value);
    }
  }

  lemma PreparedExactly(codec: Codec, library: Library, created: MatchCreatedV1)
    ensures var prepared := PrepareInitialState(codec, created, library);
            && (prepared.Ok? ==> OpeningHolds(codec, library, created, prepared.value))
            && (forall initial | OpeningHolds(codec, library, created, initial) :: prepared == Ok(initial))
  {
  }
}
