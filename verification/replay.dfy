/**
 Strict replay of a parsed transcript: rebuild the first state, run the engine again over the
 recorded actions, and compare every result, digest and total with what was recorded.
 */
module Replay {
  import opened Wrappers
  import opened WireState
  import opened StateProjection
  import opened Records
  import D = Domain

  datatype ReplayPhase = Requirements | InitialState | Step | Completion

  datatype ReplayLocation =
    ReplayLocation(phase: ReplayPhase, step: Option<nat>, eventIndex: Option<nat>, path: string)

  datatype ReplayStepResult = ReplayAccepted | ReplayRejected(error: ErrorV1)

  datatype DivergenceKind =
    | SetRevision(setCode: string, requiredRevision: nat, loadedRevision: Option<nat>)
    | InitialProjection(expectedState: StateProjectionV1, actualState: StateProjectionV1)
    | StepResult(expectedResult: ReplayStepResult, actualResult: ReplayStepResult)
    | EventDiffers(expectedEvent: Option<EventV1>, actualEvent: Option<EventV1>)
    | RejectedError(expectedError: ErrorV1, actualError: ErrorV1)
    | RejectedState(expectedState: StateProjectionV1, actualState: StateProjectionV1)
    | CardSetIdentity
    | StateDigest(expectedDigest: StateDigestV1, actualDigest: StateDigestV1)
    | FinalStateDiffers(expectedState: StateProjectionV1, actualState: StateProjectionV1)
    | GameEndedCount(expected: nat, actual: nat)
    | GameEndedOutcome(expectedOutcome: GameOutcomeV1, actualOutcome: GameOutcomeV1)
    | WinnerDiffers(expectedWinner: PlayerIdV1, actualWinner: PlayerIdV1)
    | LossReasonDiffers(expectedReason: LossReasonV1, actualReason: LossReasonV1)
    | StepCountDiffers(expected: nat, actual: nat)
    | EventCountDiffers(expected: nat, actual: nat)

  datatype ReplayError =
    | StateRebuildFailed(location: ReplayLocation, rebuildError: StateRebuildError)
    | WireConversionFailed(location: ReplayLocation, conversionError: WireConversionError)
    | CanonicalStateUnavailable(location: ReplayLocation, canonicalError: CanonicalStateError)
    | Divergence(location: ReplayLocation, kind: DivergenceKind)

  type Replayed<+T> = Result<T, ReplayError>

  /** What replay asks of the card library: the loaded revisions and the one shared pool. */
  datatype Library = Library(revisions: map<string, nat>, coreCards: D.CardSet) {
    function SetRevision(setCode: string): Option<nat> {
      if setCode in revisions then Some(revisions[setCode]) else None
    }
  }

  /**
   The engine as the replayer calls it: it is handed the state to work on, so besides its answer
   there is the state it left behind. `Untouched` is the rules engine, which leaves it alone.
   */
  type ReplayEngine = (D.GameState, GameAction) -> (D.GameState, ApplyResult)

  function Untouched(engine: Engine): ReplayEngine {
    (state, action) => (state, engine(state, action))
  }

  function At(phase: ReplayPhase, path: string): ReplayLocation {
    ReplayLocation(phase, None, None, path)
  }

  function AtStep(step: nat, eventIndex: Option<nat>, path: string): ReplayLocation {
    ReplayLocation(Step, Some(step), eventIndex, path)
  }

  /** `Ok` when the condition holds, the divergence otherwise. */
  function Demand(condition: bool, location: ReplayLocation, kind: DivergenceKind): (r: Replayed<()>)
    ensures r.Ok? <==> condition
  {
    if condition then Ok(()) else Err(Divergence(location, kind))
  }

  function ComputeDigest(codec: Codec, projection: StateProjectionV1, location: ReplayLocation)
    : (r: Replayed<StateDigestV1>)
    ensures r.Ok? <==> codec.digest(projection).Ok?
    ensures r.Ok? ==> codec.digest(projection) == Ok(r.value)
  {
    match codec.digest(projection)
    case Ok(digest) => Ok(digest)
    case Err(error) => Err(CanonicalStateUnavailable(location, error))
  }

  function VerifyDigest(codec: Codec, expected: StateDigestV1, projection: StateProjectionV1, location: ReplayLocation)
    : (r: Replayed<()>)
    ensures r.Ok? <==> codec.digest(projection) == Ok(expected)
  {
    var actual :- ComputeDigest(codec, projection, location);
    Demand(actual == expected, location, StateDigest(expected, actual))
  }

  // ----- The first state -----

  function ValidateRequiredSets(requirements: seq<SetRequirementV1>, library: Library): (r: Replayed<()>)
    ensures r.Ok? <==> forall k | 0 <= k < |requirements| ::
              library.SetRevision(requirements[k].setCode) == Some(requirements[k].revision)
  {
    if requirements == [] then Ok(())
    else
      var required, actual := requirements[0], library.SetRevision(requirements[0].setCode);
      var _ :- Demand(actual == Some(required.revision), At(Requirements, "match_created.required_sets.revision"),
        DivergenceKind.SetRevision(required.setCode, required.revision, actual));
      ValidateRequiredSets(requirements[1..], library)
  }

  function PrepareInitialState(codec: Codec, created: MatchCreatedV1, library: Library): Replayed<D.GameState> {
    var _ :- ValidateRequiredSets(created.requiredSets, library);
    match codec.rebuild(created.initialState, library.coreCards)
    case Err(error) => Err(StateRebuildFailed(At(InitialState, "match_created.initial_state"), error))
    case Ok(state) =>
      var actual := codec.project(state);
      var _ :- Demand(actual == created.initialState, At(InitialState, "match_created.initial_state"),
        InitialProjection(created.initialState, actual));
      var _ :- VerifyDigest(codec, created.stateDigest, actual, At(InitialState, "match_created.state_digest"));
      Ok(state)
  }

  // ----- One step -----

  function EventAt<T>(items: seq<T>, index: nat): Option<T> {
    if index < |items| then Some(items[index]) else None
  }

  /** One position of the event comparison; a missing event on either side differs. */
  function VerifyEvent(codec: Codec, step: nat, index: nat, expected: Option<EventRecordV1>, actual: Option<GameEvent>)
    : Replayed<()>
  {
    var location := AtStep(step, Some(index), "events.event");
    var wire := if expected.Some? then Some(expected.value.event) else None;
    var core :- if wire.None? then Ok(None)
                else match codec.EventFromWire(wire.value)
                     case Ok(event) => Ok(Some(event))
                     case Err(error) => Err(WireConversionFailed(location, error));
    Demand(core == actual, location,
      EventDiffers(wire, if actual.Some? then Some(codec.EventToWire(actual.value)) else None))
  }

  function Longer(left: nat, right: nat): nat {
    if left < right then right else left
  }

  function VerifyEventsFrom(codec: Codec, step: nat, expected: seq<EventRecordV1>, actual: seq<GameEvent>, index: nat)
    : Replayed<()>
    decreases Longer(|expected|, |actual|) - index
  {
    if index >= Longer(|expected|, |actual|) then Ok(())
    else
      var _ :- VerifyEvent(codec, step, index, EventAt(expected, index), EventAt(actual, index));
      VerifyEventsFrom(codec, step, expected, actual, index + 1)
  }

  function VerifyAcceptedStep(codec: Codec, step: nat, expected: seq<EventRecordV1>, expectedDigest: StateDigestV1,
                              state: D.GameState, events: seq<GameEvent>): Replayed<StateDigestV1> {
    var _ :- VerifyEventsFrom(codec, step, expected, events, 0);
    var projection := codec.project(state);
    var _ :- VerifyDigest(codec, expectedDigest, projection, AtStep(step, None, "state_digest"));
    ComputeDigest(codec, projection, AtStep(step, None, "state_digest"))
  }

  function VerifyRejectedStep(codec: Codec, step: nat, rejection: StepRejectedV1, actualError: ActionError,
                              before: D.GameState, after: D.GameState, beforeDigest: StateDigestV1): Replayed<()> {
    var _ :- Demand(actualError == codec.errorFromWire(rejection.error), AtStep(step, None, "error"),
      RejectedError(rejection.error, codec.errorToWire(actualError)));
    var _ :- Demand(codec.project(after) == codec.project(before), AtStep(step, None, "state"),
      RejectedState(codec.project(before), codec.project(after)));
    var _ :- Demand(before.cards.handle == after.cards.handle, AtStep(step, None, "state.cards"), CardSetIdentity);
    var _ :- VerifyDigest(codec, beforeDigest, codec.project(after), AtStep(step, None, "state"));
    Demand(rejection.stateDigest == beforeDigest, AtStep(step, None, "state_digest"),
      StateDigest(rejection.stateDigest, beforeDigest))
  }

  datatype ReplayFacts = ReplayFacts(stepCount: nat, eventCount: nat, gameEnded: seq<GameOutcomeV1>)

  const NO_FACTS := ReplayFacts(0, 0, [])

  /** The outcomes of the engine's own `GameEnded` events, in wire terms. */
  function EndedInWire(events: seq<GameEvent>): seq<GameOutcomeV1> {
    if events == [] then []
    else
      match events[0]
      case GameEnded(winner, reason) =>
        [GameOutcomeV1(PlayerToWire(winner), ReasonToWire(reason))] + EndedInWire(events[1..])
      case OtherEvent(_) => EndedInWire(events[1..])
  }

  function RecordEvents(facts: ReplayFacts, events: seq<GameEvent>): ReplayFacts {
    facts.(eventCount := facts.eventCount + |events|, gameEnded := facts.gameEnded + EndedInWire(events))
  }

  /** Everything the replay loop carries from one step to the next. */
  datatype Position = Position(state: D.GameState, digest: StateDigestV1, facts: ReplayFacts)

  function ReplayStep(codec: Codec, engine: ReplayEngine, at: Position, step: TranscriptStepV1): Replayed<Position> {
    var number := step.action.step;
    match codec.ActionFromWire(step.action.action)
    case Err(error) => Err(WireConversionFailed(AtStep(number, None, "action"), error))
    case Ok(action) =>
      var (after, response) := engine(at.state, action);
      match (step.result, response)
      case (Accepted(events, completion), Applied(state, actual)) =>
        var digest :- VerifyAcceptedStep(codec, number, events, completion.stateDigest, state, actual);
        var facts := RecordEvents(at.facts, actual);
        Ok(Position(state, digest, facts.(stepCount := facts.stepCount + 1)))
      case (Accepted(_, _), Refused(error)) =>
        Err(Divergence(AtStep(number, None, "result"),
          StepResult(ReplayAccepted, ReplayRejected(codec.errorToWire(error)))))
      case (Rejected(rejection), Refused(error)) =>
        var _ :- VerifyRejectedStep(codec, number, rejection, error, at.state, after, at.digest);
        Ok(Position(after, at.digest, at.facts.(stepCount := at.facts.stepCount + 1)))
      case (Rejected(rejection), Applied(_, _)) =>
        Err(Divergence(AtStep(number, None, "result"), StepResult(ReplayRejected(rejection.error), ReplayAccepted)))
  }

  function ReplayFrom(codec: Codec, engine: ReplayEngine, at: Position, steps: seq<TranscriptStepV1>)
    : Replayed<Position>
    decreases |steps|
  {
    if steps == [] then Ok(at)
    else
      var next :- ReplayStep(codec, engine, at, steps[0]);
      ReplayFrom(codec, engine, next, steps[1..])
  }

  function ReplaySteps(codec: Codec, engine: ReplayEngine, steps: seq<TranscriptStepV1>, state: D.GameState)
    : Replayed<Position>
  {
    var digest :- ComputeDigest(codec, codec.project(state), At(InitialState, "match_created.state_digest"));
    ReplayFrom(codec, engine, Position(state, digest, NO_FACTS), steps)
  }

  // ----- Completion -----

  function VerifyCompletion(codec: Codec, transcript: TranscriptV1, state: D.GameState, facts: ReplayFacts)
    : Replayed<()>
  {
    var actual := codec.project(state);
    var final, completed := transcript.finalState, transcript.matchCompleted;
    var _ :- Demand(actual == final.finalState, At(Completion, "final_state.final_state"),
      FinalStateDiffers(final.finalState, actual));
    if |facts.gameEnded| != 1 then
      Err(Divergence(At(Completion, "events.game_ended"), GameEndedCount(1, |facts.gameEnded|)))
    else if !state.status.Ended? then
      Err(Divergence(At(Completion, "final_state.final_state.status"), GameEndedCount(1, 0)))
    else
      var outcome, ended := OutcomeToWire(state.status.outcome), facts.gameEnded[0];
      var _ :- Demand(outcome == ended, At(Completion, "final_state.final_state.status.outcome"),
        GameEndedOutcome(outcome, ended));
      var _ :- Demand(completed.winner == ended.winner, At(Completion, "match_completed.winner"),
        WinnerDiffers(completed.winner, ended.winner));
      var _ :- Demand(completed.reason == ended.reason, At(Completion, "match_completed.reason"),
        LossReasonDiffers(completed.reason, ended.reason));
      var _ :- Demand(completed.stepCount == facts.stepCount, At(Completion, "match_completed.step_count"),
        StepCountDiffers(completed.stepCount, facts.stepCount));
      var _ :- Demand(completed.eventCount == facts.eventCount, At(Completion, "match_completed.event_count"),
        EventCountDiffers(completed.eventCount, facts.eventCount));
      var _ :- VerifyDigest(codec, final.stateDigest, actual, At(Completion, "final_state.state_digest"));
      VerifyDigest(codec, completed.stateDigest, actual, At(Completion, "match_completed.state_digest"))
  }

  function Verify(codec: Codec, engine: ReplayEngine, library: Library, transcript: TranscriptV1): Replayed<()> {
    var state :- PrepareInitialState(codec, transcript.matchCreated, library);
    var end :- ReplaySteps(codec, engine, transcript.steps, state);
    VerifyCompletion(codec, transcript, end.state, end.facts)
  }

  // ----- The loops of the source -----

  method CheckRequiredSets(requirements: seq<SetRequirementV1>, library: Library) returns (r: Replayed<()>)
    ensures r == ValidateRequiredSets(requirements, library)
  {
    var k := 0;
    while k < |requirements|
      invariant k <= |requirements|
      invariant ValidateRequiredSets(requirements, library) == ValidateRequiredSets(requirements[k..], library)
    {
      var required, actual := requirements[k], library.SetRevision(requirements[k].setCode);
      var _ :- Demand(actual == Some(required.revision), At(Requirements, "match_created.required_sets.revision"),
        DivergenceKind.SetRevision(required.setCode, required.revision, actual));
      k := k + 1;
    }
    return Ok(());
  }

  method CheckAcceptedStep(codec: Codec, step: nat, expected: seq<EventRecordV1>, expectedDigest: StateDigestV1,
                           state: D.GameState, events: seq<GameEvent>) returns (r: Replayed<StateDigestV1>)
    ensures r == VerifyAcceptedStep(codec, step, expected, expectedDigest, state, events)
  {
    var index := 0;
    while index < Longer(|expected|, |events|)
      invariant index <= Longer(|expected|, |events|)
      invariant VerifyEventsFrom(codec, step, expected, events, 0) ==
                VerifyEventsFrom(codec, step, expected, events, index)
    {
      var _ :- VerifyEvent(codec, step, index, EventAt(expected, index), EventAt(events, index));
      index := index + 1;
    }
    var projection := codec.project(state);
    var _ :- VerifyDigest(codec, expectedDigest, projection, AtStep(step, None, "state_digest"));
    return ComputeDigest(codec, projection, AtStep(step, None, "state_digest"));
  }

  method RunSteps(codec: Codec, engine: ReplayEngine, steps: seq<TranscriptStepV1>, initial: D.GameState)
    returns (r: Replayed<(D.GameState, ReplayFacts)>)
    ensures match ReplaySteps(codec, engine, steps, initial)
            case Ok(end) => r == Ok((end.state, end.facts))
            case Err(error) => r == Err(error)
  {
    hide VerifyRejectedStep, RecordEvents, ComputeDigest;
    var state, facts := initial, NO_FACTS;
    var digest :- ComputeDigest(codec, codec.project(state), At(InitialState, "match_created.state_digest"));
    var k := 0;
    while k < |steps|
      invariant k <= |steps|
      invariant ReplaySteps(codec, engine, steps, initial) ==
                ReplayFrom(codec, engine, Position(state, digest, facts), steps[k..])
    {
      var step := steps[k];
      var number := step.action.step;
      var converted := codec.ActionFromWire(step.action.action);
      if converted.Err? {
        return Err(WireConversionFailed(AtStep(number, None, "action"), converted.error));
      }
      var before, beforeDigest := state, digest;
      var (after, response) := engine(state, converted.value);
      match (step.result, response) {
        case (Accepted(events, completion), Applied(applied, actual)) =>
          digest :- CheckAcceptedStep(codec, number, events, completion.stateDigest, applied, actual);
          facts := RecordEvents(facts, actual);
          state := applied;
        case (Accepted(_, _), Refused(error)) =>
          return Err(Divergence(AtStep(number, None, "result"),
            StepResult(ReplayAccepted, ReplayRejected(codec.errorToWire(error)))));
        case (Rejected(rejection), Refused(error)) =>
          state := after;
          var _ :- VerifyRejectedStep(codec, number, rejection, error, before, state, beforeDigest);
          digest := beforeDigest;
        case (Rejected(rejection), Applied(_, _)) =>
          return Err(Divergence(AtStep(number, None, "result"),
            StepResult(ReplayRejected(rejection.error), ReplayAccepted)));
      }
      facts := facts.(stepCount := facts.stepCount + 1);
      k := k + 1;
    }
    return Ok((state, facts));
  }

  method VerifyTranscript(codec: Codec, engine: ReplayEngine, library: Library, transcript: TranscriptV1)
    returns (r: Replayed<()>)
    ensures r == Verify(codec, engine, library, transcript)
  {
    var state :- PrepareInitialState(codec, transcript.matchCreated, library);
    var end :- RunSteps(codec, engine, transcript.steps, state);
    return VerifyCompletion(codec, transcript, end.0, end.1);
  }
}
