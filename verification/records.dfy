/** The version 1 transcript records, the values inside them, and the parsed transcript they form. */
module Records {
  import opened Wrappers
  import opened WireState
  import opened StateProjection
  import D = Domain

  /** Everything an action, event or rejection says that the transcript code only carries along. */
  type ActionBody(==,!new)
  type ActionBodyV1(==,!new)
  type EventBody(==,!new)
  type EventBodyV1(==,!new)
  type ActionError(==,!new)
  type ErrorV1(==,!new)
  type HeaderMetadataV1(==,!new)

  type StateDigestV1 = string

  datatype GameAction = Resign(player: D.PlayerId) | Ordinary(player: D.PlayerId, body: ActionBody)
  datatype ActionV1 = ResignV1(player: PlayerIdV1) | OrdinaryV1(player: PlayerIdV1, body: ActionBodyV1)

  datatype GameEvent = GameEnded(winner: D.PlayerId, reason: D.LossReason) | OtherEvent(body: EventBody)
  datatype EventV1 = GameEndedV1(winner: PlayerIdV1, reason: LossReasonV1) | OtherEventV1(body: EventBodyV1)

  datatype WireConversionError =
    | InvalidWireId(text: string)
    | IntegerOutOfRange(field: string, value: nat)

  datatype CanonicalStateError = CanonicalStateError

  /** What the rules engine answers to one submitted action. */
  datatype ApplyResult = Applied(state: D.GameState, events: seq<GameEvent>) | Refused(error: ActionError)

  type Engine = (D.GameState, GameAction) -> ApplyResult

  /** The same state over another copy of its card pool. */
  function Repooled(state: D.GameState, handle: nat): D.GameState {
    state.(cards := state.cards.(handle := handle))
  }

  function RepooledAnswer(response: ApplyResult, handle: nat): ApplyResult {
    match response
    case Applied(state, events) => Applied(Repooled(state, handle), events)
    case Refused(_) => response
  }

  /** The engine reads the cards of its pool and never which copy of the pool it was given. */
  ghost predicate BlindToHandle(engine: Engine) {
    forall state, action, handle ::
      engine(Repooled(state, handle), action) == RepooledAnswer(engine(state, action), handle)
  }

  /** The engine refuses every action once the game has ended or broken. */
  ghost predicate Guarded(engine: Engine) {
    forall state: D.GameState, action :: state.status != D.Playing ==> engine(state, action).Refused?
  }

  // ----- Records -----

  datatype HeaderV1 = HeaderV1(sequence: nat, format: string, formatVersion: nat, metadata: HeaderMetadataV1)
  datatype SetRequirementV1 = SetRequirementV1(setCode: string, revision: nat)
  datatype MatchCreatedV1 = MatchCreatedV1(
    sequence: nat,
    requiredSets: seq<SetRequirementV1>,
    initialState: StateProjectionV1,
    stateDigest: StateDigestV1)
  datatype ActionRecordV1 = ActionRecordV1(sequence: nat, step: nat, action: ActionV1)
  datatype EventRecordV1 = EventRecordV1(sequence: nat, step: nat, index: nat, event: EventV1)
  datatype StepCompletedV1 =
    StepCompletedV1(sequence: nat, step: nat, eventCount: nat, stateDigest: StateDigestV1)
  datatype StepRejectedV1 = StepRejectedV1(sequence: nat, step: nat, error: ErrorV1, stateDigest: StateDigestV1)
  datatype FinalStateV1 = FinalStateV1(sequence: nat, finalState: StateProjectionV1, stateDigest: StateDigestV1)
  datatype MatchCompletedV1 = MatchCompletedV1(
    sequence: nat,
    stepCount: nat,
    eventCount: nat,
    stateDigest: StateDigestV1,
    winner: PlayerIdV1,
    reason: LossReasonV1)

  datatype RecordV1 =
    | Header(header: HeaderV1)
    | MatchCreated(created: MatchCreatedV1)
    | Action(action: ActionRecordV1)
    | Event(event: EventRecordV1)
    | StepCompleted(completion: StepCompletedV1)
    | StepRejected(rejection: StepRejectedV1)
    | FinalState(final: FinalStateV1)
    | MatchCompleted(completed: MatchCompletedV1)
  {
    function Sequence(): nat {
      match this
      case Header(value) => value.sequence
      case MatchCreated(value) => value.sequence
      case Action(value) => value.sequence
      case Event(value) => value.sequence
      case StepCompleted(value) => value.sequence
      case StepRejected(value) => value.sequence
      case FinalState(value) => value.sequence
      case MatchCompleted(value) => value.sequence
    }

    function Step(): Option<nat> {
      match this
      case Action(value) => Some(value.step)
      case Event(value) => Some(value.step)
      case StepCompleted(value) => Some(value.step)
      case StepRejected(value) => Some(value.step)
      case _ => None
    }
  }

  function NewHeader(metadata: HeaderMetadataV1): HeaderV1 {
    HeaderV1(0, "summoners_match", 1, metadata)
  }

  function NewMatchCreated(requiredSets: seq<SetRequirementV1>, initialState: StateProjectionV1,
                           digest: StateDigestV1): MatchCreatedV1 {
    MatchCreatedV1(1, requiredSets, initialState, digest)
  }

  // ----- Transcripts -----

  datatype TranscriptStepResultV1 =
    | Accepted(events: seq<EventRecordV1>, completion: StepCompletedV1)
    | Rejected(rejection: StepRejectedV1)

  datatype TranscriptStepV1 = TranscriptStepV1(action: ActionRecordV1, result: TranscriptStepResultV1)

  datatype TranscriptV1 = TranscriptV1(
    header: HeaderV1,
    matchCreated: MatchCreatedV1,
    steps: seq<TranscriptStepV1>,
    finalState: FinalStateV1,
    matchCompleted: MatchCompletedV1)

  // ----- What lies outside the transcript code -----

  /**
   The functions the transcript code calls but does not define: the state projection and its
   rebuild, the digest, record encoding, and the conversions of action, event and error bodies.
   */
  datatype Codec = Codec(
    project: D.GameState -> StateProjectionV1,
    rebuild: (StateProjectionV1, D.CardSet) -> Result<D.GameState, StateRebuildError>,
    digest: StateProjectionV1 -> Result<StateDigestV1, CanonicalStateError>,
    encodes: RecordV1 -> bool,
    actionToWire: ActionBody -> ActionBodyV1,
    actionFromWire: ActionBodyV1 -> Result<ActionBody, WireConversionError>,
    eventToWire: EventBody -> EventBodyV1,
    eventFromWire: EventBodyV1 -> Result<EventBody, WireConversionError>,
    errorToWire: ActionError -> ErrorV1,
    errorFromWire: ErrorV1 -> ActionError)
  {
    function ActionToWire(action: GameAction): ActionV1 {
      match action
      case Resign(player) => ResignV1(PlayerToWire(player))
      case Ordinary(player, body) => OrdinaryV1(PlayerToWire(player), actionToWire(body))
    }

    function ActionFromWire(action: ActionV1): Result<GameAction, WireConversionError> {
      match action
      case ResignV1(player) => Ok(Resign(PlayerFromWire(player)))
      case OrdinaryV1(player, body) =>
        var body :- actionFromWire(body);
        Ok(Ordinary(PlayerFromWire(player), body))
    }

    function EventToWire(event: GameEvent): EventV1 {
      match event
      case GameEnded(winner, reason) => GameEndedV1(PlayerToWire(winner), ReasonToWire(reason))
      case OtherEvent(body) => OtherEventV1(eventToWire(body))
    }

    function EventFromWire(event: EventV1): Result<GameEvent, WireConversionError> {
      match event
      case GameEndedV1(winner, reason) => Ok(GameEnded(PlayerFromWire(winner), ReasonFromWire(reason)))
      case OtherEventV1(body) =>
        var body :- eventFromWire(body);
        Ok(OtherEvent(body))
    }

    /** The conversions of bodies that are not modelled further lose nothing on the way out and back. */
    ghost predicate RoundTrips() {
      && (forall body :: actionFromWire(actionToWire(body)) == Ok(body))
      && (forall body :: eventFromWire(eventToWire(body)) == Ok(body))
      && (forall error :: errorFromWire(errorToWire(error)) == error)
    }

    /** The projection shows whether, and how, the game has ended. */
    ghost predicate KeepsStatus() {
      forall state :: project(state).status == StatusToWire(state.status)
    }

    /** The projection does not show which copy of the card pool a state is over. */
    ghost predicate HidesHandle() {
      forall state, handle :: project(Repooled(state, handle)) == project(state)
    }

    /** The state comes back whole from its projection and its own card pool. */
    ghost predicate RebuildsWhole(state: D.GameState) {
      rebuild(project(state), state.cards) == Ok(state)
    }
  }

  lemma EventsRoundTrip(codec: Codec, event: GameEvent)
    requires codec.RoundTrips()
    ensures codec.EventFromWire(codec.EventToWire(event)) == Ok(event)
  {
    match event
    case GameEnded(winner, reason) =>
    case OtherEvent(body) =>
  }

  lemma ActionsRoundTrip(codec: Codec, action: GameAction)
    requires codec.RoundTrips()
    ensures codec.ActionFromWire(codec.ActionToWire(action)) == Ok(action)
  {
    match action
    case Resign(player) =>
    case Ordinary(player, body) =>
  }
}
