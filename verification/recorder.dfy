/**
 The fail-closed match recorder. The functions give what each operation does to a recording as a
 value; the classes perform the same operations in place and are proved to do exactly that.

 `Device` is the fault model of the caller's writer: whether its k-th call, write or flush,
 succeeds. A write that succeeds adds one whole record.
 */
module Recorder {
  import opened Wrappers
  import opened StateProjection
  import opened Records
  import W = WireState
  import D = Domain

  type Device = nat -> bool

  /** Steps are numbered from one. */
  type StepNumber = n: int | 1 <= n witness 1

  datatype TerminalEventError = NoGameEnded | SeveralGameEnded | UnexpectedGameEnded | TerminalOutcomeMismatch

  datatype RecordingStopped =
    | AlreadyCompleted
    | RecordingFailed
    | GameAlreadyEnded
    | GameBroken
    | InvalidTerminalEvents(error: TerminalEventError)

  datatype RecordingError =
    | CanonicalStateFailed(error: CanonicalStateError)
    | EncodeFailed
    | WriteFailed
    | FlushFailed
    | Stopped(reason: RecordingStopped)

  datatype RecordedStep = AcceptedStep(events: seq<GameEvent>) | RejectedStep(error: ActionError)

  datatype Lifecycle = Active | StoppedFor(reason: RecordingStopped)

  /** The whole records written so far and the number of calls the writer has answered. */
  datatype Sink = Sink(lines: seq<RecordV1>, calls: nat)

  datatype Recording = Recording(
    sink: Sink,
    state: D.GameState,
    nextSequence: nat,
    nextStep: StepNumber,
    totalEvents: nat,
    lifecycle: Lifecycle)
  {
    function Fail(): Recording {
      this.(lifecycle := StoppedFor(RecordingFailed))
    }
  }

  /** A recording after an operation, with what the operation returned. */
  datatype Attempt<+T> = Attempt(recording: Recording, result: Result<T, RecordingError>)

  // ----- Prepared records -----

  function PrepareAction(codec: Codec, sequence: nat, step: nat, action: GameAction): RecordV1 {
    Action(ActionRecordV1(sequence, step, codec.ActionToWire(action)))
  }

  function PrepareAcceptedStep(codec: Codec, sequence: nat, step: nat, events: seq<GameEvent>, digest: StateDigestV1)
    : (records: seq<RecordV1>)
    ensures |records| == |events| + 1
  {
    seq(|events|, k requires 0 <= k < |events| =>
      Event(EventRecordV1(sequence + k, step, k, codec.EventToWire(events[k]))))
    + [StepCompleted(StepCompletedV1(sequence + |events|, step, |events|, digest))]
  }

  function PrepareRejectedStep(codec: Codec, sequence: nat, step: nat, error: ActionError, digest: StateDigestV1)
    : RecordV1
  {
    StepRejected(StepRejectedV1(sequence, step, codec.errorToWire(error), digest))
  }

  function PrepareCompletion(sequence: nat, steps: nat, events: nat, outcome: D.GameOutcome,
                             projection: W.StateProjectionV1, digest: StateDigestV1): seq<RecordV1> {
    [FinalState(FinalStateV1(sequence, projection, digest)),
     MatchCompleted(MatchCompletedV1(sequence + 1, steps, events, digest, PlayerToWire(outcome.winner),
       ReasonToWire(outcome.reason)))]
  }

  // ----- Terminal agreement -----

  /** The outcomes named by `GameEnded` events, in order. */
  function EndedOutcomes(events: seq<GameEvent>): seq<D.GameOutcome> {
    if events == [] then []
    else
      match events[0]
      case GameEnded(winner, reason) => [D.GameOutcome(winner, reason)] + EndedOutcomes(events[1..])
      case OtherEvent(_) => EndedOutcomes(events[1..])
  }

  function CheckInitialStatus(state: D.GameState): Result<(), RecordingStopped> {
    match state.status
    case Playing => Ok(())
    case Ended(_) => Err(GameAlreadyEnded)
    case Broken(_) => Err(GameBroken)
  }

  /** Whether a batch of events may go with the status it left, and the outcome if it ended the game. */
  function CheckTerminalEvents(status: D.GameStatus, events: seq<GameEvent>)
    : (r: Result<Option<D.GameOutcome>, TerminalEventError>)
    ensures r.Ok? && r.value.Some? ==> status == D.Ended(r.value.value) && EndedOutcomes(events) == [r.value.value]
    ensures r == Ok(None) ==> status.Broken? || (status.Playing? && EndedOutcomes(events) == [])
  {
    if status.Broken? then Ok(None)
    else
      var ended := EndedOutcomes(events);
      if |ended| > 1 then Err(SeveralGameEnded)
      else
        match status
        case Playing => if ended == [] then Ok(None) else Err(UnexpectedGameEnded)
        case Ended(expected) =>
          if ended == [] then Err(NoGameEnded)
          else if ended[0] == expected then Ok(Some(expected))
          else Err(TerminalOutcomeMismatch)
        case Broken(_) => Ok(None)
  }

  // ----- Operations on values -----

  function Append(codec: Codec, device: Device, recording: Recording, record: RecordV1): Attempt<()> {
    var sink := recording.sink;
    if !codec.encodes(record) then Attempt(recording.Fail(), Err(EncodeFailed))
    else if !device(sink.calls) then
      Attempt(recording.(sink := sink.(calls := sink.calls + 1)).Fail(), Err(WriteFailed))
    else
      Attempt(recording.(sink := Sink(sink.lines + [record], sink.calls + 1),
        nextSequence := recording.nextSequence + 1),
        Ok(()))
  }

  function AppendAll(codec: Codec, device: Device, recording: Recording, records: seq<RecordV1>): Attempt<()>
    decreases |records|
  {
    if records == [] then Attempt(recording, Ok(()))
    else
      var first := Append(codec, device, recording, records[0]);
      if first.result.Err? then first else AppendAll(codec, device, first.recording, records[1..])
  }

  function Flush(device: Device, recording: Recording): Attempt<()> {
    var sink := recording.sink;
    var called := recording.(sink := sink.(calls := sink.calls + 1));
    if device(sink.calls) then Attempt(called, Ok(())) else Attempt(called.Fail(), Err(FlushFailed))
  }

  /** Appends the records in order and then flushes, stopping at the first failure. */
  function Checkpoint(codec: Codec, device: Device, recording: Recording, records: seq<RecordV1>): Attempt<()> {
    var written := AppendAll(codec, device, recording, records);
    if written.result.Err? then written else Flush(device, written.recording)
  }

  function CompleteEndedMatch(codec: Codec, device: Device, recording: Recording, outcome: D.GameOutcome,
                              projection: W.StateProjectionV1, digest: StateDigestV1): Attempt<()>
  {
    var records := PrepareCompletion(recording.nextSequence, recording.nextStep - 1, recording.totalEvents, outcome,
      projection, digest);
    var saved := Checkpoint(codec, device, recording, records);
    if saved.result.Err? then saved
    else Attempt(saved.recording.(lifecycle := StoppedFor(AlreadyCompleted)), Ok(()))
  }

  function RecordAcceptedStep(codec: Codec, device: Device, recording: Recording, step: nat, state: D.GameState,
                              events: seq<GameEvent>): Attempt<RecordedStep>
  {
    var moved := recording.(state := state);
    var projection := codec.project(state);
    match codec.digest(projection)
    case Err(error) => Attempt(moved.Fail(), Err(CanonicalStateFailed(error)))
    case Ok(digest) =>
      var saved := Checkpoint(codec, device, moved,
        PrepareAcceptedStep(codec, moved.nextSequence, step, events, digest));
      if saved.result.Err? then Attempt(saved.recording, Err(saved.result.error))
      else FinishAcceptedStep(codec, device,
        saved.recording.(totalEvents := saved.recording.totalEvents + |events|), events, projection, digest)
  }

  function FinishAcceptedStep(codec: Codec, device: Device, recording: Recording, events: seq<GameEvent>,
                              projection: W.StateProjectionV1, digest: StateDigestV1): Attempt<RecordedStep> {
    match CheckTerminalEvents(recording.state.status, events)
    case Err(error) => Stop(recording, InvalidTerminalEvents(error))
    case Ok(Some(outcome)) =>
      var completed := CompleteEndedMatch(codec, device, recording, outcome, projection, digest);
      if completed.result.Err? then Attempt(completed.recording, Err(completed.result.error))
      else Attempt(completed.recording, Ok(AcceptedStep(events)))
    case Ok(None) =>
      if recording.state.status.Broken? then Stop(recording, GameBroken)
      else Attempt(recording, Ok(AcceptedStep(events)))
  }

  function Stop(recording: Recording, reason: RecordingStopped): Attempt<RecordedStep> {
    Attempt(recording.(lifecycle := StoppedFor(reason)), Err(Stopped(reason)))
  }

  function RecordRejectedStep(codec: Codec, device: Device, recording: Recording, step: nat, error: ActionError)
    : Attempt<RecordedStep>
  {
    match codec.digest(codec.project(recording.state))
    case Err(failure) => Attempt(recording.Fail(), Err(CanonicalStateFailed(failure)))
    case Ok(digest) =>
      var saved := Checkpoint(codec, device, recording,
        [PrepareRejectedStep(codec, recording.nextSequence, step, error, digest)]);
      if saved.result.Err? then Attempt(saved.recording, Err(saved.result.error))
      else Attempt(saved.recording, Ok(RejectedStep(error)))
  }

  /** One submission, where `response` is what the engine answers for the state the recording holds. */
  function SubmitWith(codec: Codec, device: Device, recording: Recording, action: GameAction, response: ApplyResult)
    : Attempt<RecordedStep>
  {
    if recording.lifecycle.StoppedFor? then Attempt(recording, Err(Stopped(recording.lifecycle.reason)))
    else
      var step := recording.nextStep;
      var appended := Append(codec, device, recording, PrepareAction(codec, recording.nextSequence, step, action));
      if appended.result.Err? then Attempt(appended.recording, Err(appended.result.error))
      else
        var counted := appended.recording.(nextStep := step + 1);
        match response
        case Applied(state, events) => RecordAcceptedStep(codec, device, counted, step, state, events)
        case Refused(error) => RecordRejectedStep(codec, device, counted, step, error)
  }

  datatype Started = Started(sink: Sink, result: Result<Recording, RecordingError>)

  /** Header, match creation and flush; nothing is written unless both records encode. */
  function Start(codec: Codec, device: Device, sink: Sink, metadata: HeaderMetadataV1,
                 requiredSets: seq<SetRequirementV1>, initialState: D.GameState): Started {
    match CheckInitialStatus(initialState)
    case Err(reason) => Started(sink, Err(Stopped(reason)))
    case Ok(_) =>
      var projection := codec.project(initialState);
      match codec.digest(projection)
      case Err(error) => Started(sink, Err(CanonicalStateFailed(error)))
      case Ok(digest) =>
        var header := Header(NewHeader(metadata));
        var created := MatchCreated(NewMatchCreated(requiredSets, projection, digest));
        if !codec.encodes(header) || !codec.encodes(created) then Started(sink, Err(EncodeFailed))
        else if !device(sink.calls) then Started(sink.(calls := sink.calls + 1), Err(WriteFailed))
        else if !device(sink.calls + 1) then Started(Sink(sink.lines + [header], sink.calls + 2), Err(WriteFailed))
        else
          var written := Sink(sink.lines + [header, created], sink.calls + 3);
          if !device(sink.calls + 2) then Started(written, Err(FlushFailed))
          else Started(written, Ok(Recording(written, initialState, 2, 1, 0, Active)))
  }

  // ----- The same operations, in place -----

  class Writer {
    const device: Device
    var lines: seq<RecordV1>
    var calls: nat

    function Value(): Sink
      reads this
    {
      Sink(lines, calls)
    }

    constructor (device: Device)
      ensures this.device == device && Value() == Sink([], 0)
    {
      this.device, lines, calls := device, [], 0;
    }

    method WriteRecord(record: RecordV1) returns (ok: bool)
      modifies this
      ensures ok == device(old(calls))
      ensures Value() == Sink(if ok then old(lines) + [record] else old(lines), old(calls) + 1)
    {
      ok := device(calls);
      calls := calls + 1;
      if ok { lines := lines + [record]; }
    }

    method FlushAll() returns (ok: bool)
      modifies this
      ensures ok == device(old(calls))
      ensures Value() == Sink(old(lines), old(calls) + 1)
    {
      ok := device(calls);
      calls := calls + 1;
    }
  }

  class RecordedMatch {
    const codec: Codec
    const writer: Writer
    var state: D.GameState
    var nextSequence: nat
    var nextStep: StepNumber
    var totalEvents: nat
    var lifecycle: Lifecycle

    function Value(): Recording
      reads this, writer
    {
      Recording(writer.Value(), state, nextSequence, nextStep, totalEvents, lifecycle)
    }

    constructor (codec: Codec, writer: Writer, initialState: D.GameState)
      ensures this.codec == codec && this.writer == writer
      ensures Value() == Recording(writer.Value(), initialState, 2, 1, 0, Active)
    {
      this.codec, this.writer, state := codec, writer, initialState;
      nextSequence, nextStep, totalEvents, lifecycle := 2, 1, 0, Active;
    }

    /** An active recording exists only once its first two records are durable. */
    static method StartRecording(codec: Codec, writer: Writer, metadata: HeaderMetadataV1,
                                 requiredSets: seq<SetRequirementV1>, initialState: D.GameState)
      returns (r: Result<RecordedMatch, RecordingError>)
      modifies writer
      ensures var started := Start(codec, writer.device, old(writer.Value()), metadata, requiredSets, initialState);
              && writer.Value() == started.sink
              && (r.Ok? <==> started.result.Ok?)
              && (r.Ok? ==> fresh(r.value) && r.value.codec == codec && r.value.writer == writer &&
                            r.value.Value() == started.result.value)
              && (r.Err? ==> r.error == started.result.error)
    {
      var status := CheckInitialStatus(initialState);
      if status.Err? { return Err(Stopped(status.error)); }
      var projection := codec.project(initialState);
      var digest := codec.digest(projection);
      if digest.Err? { return Err(CanonicalStateFailed(digest.error)); }
      var header := Header(NewHeader(metadata));
      var created := MatchCreated(NewMatchCreated(requiredSets, projection, digest.value));
      if !codec.encodes(header) { return Err(EncodeFailed); }
      if !codec.encodes(created) { return Err(EncodeFailed); }
      var ok := writer.WriteRecord(header);
      if !ok { return Err(WriteFailed); }
      ok := writer.WriteRecord(created);
      if !ok { return Err(WriteFailed); }
      assert writer.lines == old(writer.lines) + [header, created];
      ok := writer.FlushAll();
      if !ok { return Err(FlushFailed); }
      var recording := new RecordedMatch(codec, writer, initialState);
      return Ok(recording);
    }

    method AppendRecord(record: RecordV1) returns (r: Result<(), RecordingError>)
      modifies this, writer
      ensures Attempt(Value(), r) == Append(codec, writer.device, old(Value()), record)
    {
      if !codec.encodes(record) {
        lifecycle := StoppedFor(RecordingFailed);
        return Err(EncodeFailed);
      }
      var ok := writer.WriteRecord(record);
      if !ok {
        lifecycle := StoppedFor(RecordingFailed);
        return Err(WriteFailed);
      }
      nextSequence := nextSequence + 1;
      return Ok(());
    }

    method AppendRecords(records: seq<RecordV1>) returns (r: Result<(), RecordingError>)
      modifies this, writer
      ensures Attempt(Value(), r) == AppendAll(codec, writer.device, old(Value()), records)
    {
      var k := 0;
      while k < |records|
        invariant k <= |records|
        invariant AppendAll(codec, writer.device, Value(), records[k..]) ==
                  AppendAll(codec, writer.device, old(Value()), records)
      {
        var _ :- AppendRecord(records[k]);
        k := k + 1;
      }
      return Ok(());
    }

    method FlushRecords() returns (r: Result<(), RecordingError>)
      modifies this, writer
      ensures Attempt(Value(), r) == Flush(writer.device, old(Value()))
    {
      var ok := writer.FlushAll();
      if !ok {
        lifecycle := StoppedFor(RecordingFailed);
        return Err(FlushFailed);
      }
      return Ok(());
    }

    method Complete(outcome: D.GameOutcome, projection: W.StateProjectionV1, digest: StateDigestV1)
      returns (r: Result<(), RecordingError>)
      modifies this, writer
      ensures Attempt(Value(), r) ==
              CompleteEndedMatch(codec, writer.device, old(Value()), outcome, projection, digest)
    {
      var records := PrepareCompletion(nextSequence, nextStep - 1, totalEvents, outcome, projection, digest);
      var _ :- AppendRecords(records);
      var _ :- FlushRecords();
      lifecycle := StoppedFor(AlreadyCompleted);
      return Ok(());
    }

    method RecordAccepted(step: nat, newState: D.GameState, events: seq<GameEvent>)
      returns (r: Result<RecordedStep, RecordingError>)
      modifies this, writer
      ensures Attempt(Value(), r) == RecordAcceptedStep(codec, writer.device, old(Value()), step, newState, events)
    {
      state := newState;
      var projection := codec.project(state);
      var digest := codec.digest(projection);
      if digest.Err? {
        lifecycle := StoppedFor(RecordingFailed);
        return Err(CanonicalStateFailed(digest.error));
      }
      var records := PrepareAcceptedStep(codec, nextSequence, step, events, digest.value);
      var _ :- AppendRecords(records);
      var _ :- FlushRecords();
      totalEvents := totalEvents + |events|;
      var terminal := CheckTerminalEvents(state.status, events);
      match terminal {
        case Err(error) =>
          lifecycle := StoppedFor(InvalidTerminalEvents(error));
          return Err(Stopped(InvalidTerminalEvents(error)));
        case Ok(Some(outcome)) =>
          var _ :- Complete(outcome, projection, digest.value);
        case Ok(None) =>
          if state.status.Broken? {
            lifecycle := StoppedFor(GameBroken);
            return Err(Stopped(GameBroken));
          }
      }
      return Ok(AcceptedStep(events));
    }

    method RecordRejected(step: nat, error: ActionError) returns (r: Result<RecordedStep, RecordingError>)
      modifies this, writer
      ensures Attempt(Value(), r) == RecordRejectedStep(codec, writer.device, old(Value()), step, error)
    {
      var digest := codec.digest(codec.project(state));
      if digest.Err? {
        lifecycle := StoppedFor(RecordingFailed);
        return Err(CanonicalStateFailed(digest.error));
      }
      var record := PrepareRejectedStep(codec, nextSequence, step, error, digest.value);
      var _ :- AppendRecords([record]);
      var _ :- FlushRecords();
      return Ok(RejectedStep(error));
    }

    /** The action is written before the engine is asked, so a refused action is on record too. */
    method Submit(engine: Engine, action: GameAction) returns (r: Result<RecordedStep, RecordingError>)
      modifies this, writer
      ensures Attempt(Value(), r) ==
              SubmitWith(codec, writer.device, old(Value()), action, engine(old(state), action))
    {
      if lifecycle.StoppedFor? { return Err(Stopped(lifecycle.reason)); }
      var step := nextStep;
      var _ :- AppendRecord(PrepareAction(codec, nextSequence, step, action));
      nextStep := nextStep + 1;
      match engine(state, action) {
        case Applied(newState, events) => r := RecordAccepted(step, newState, events);
        case Refused(error) => r := RecordRejected(step, error);
      }
    }
  }
}
