/**
 What a submission to the recorder answers: the engine's own events or error, once every record of
 the step is durable, and otherwise an error that names what went wrong and stops the recording.
 */
module RecorderAnswers {
  import opened Wrappers
  import opened StateProjection
  import opened Records
  import opened Recorder
  import opened RecorderRuns
  import W = WireState
  import D = Domain

  /** The engine's answer, as the recorder hands it on. */
  function AsStep(response: ApplyResult): RecordedStep {
    match response
    case Applied(_, events) => AcceptedStep(events)
    case Refused(error) => RejectedStep(error)
  }

  ghost predicate AllSucceed(device: Device, from: nat, to: nat) {
    forall k | from <= k < to :: device(k)
  }

  /** An answer names a failed writer call exactly when the last of the calls made failed, and no earlier one did. */
  ghost predicate NamesFailure<T>(device: Device, from: nat, to: nat, result: Result<T, RecordingError>) {
    if result.Err? && (result.error.WriteFailed? || result.error.FlushFailed?) then
      from < to && AllSucceed(device, from, to - 1) && !device(to - 1)
    else from <= to && AllSucceed(device, from, to)
  }

  /** Records are written in order up to the first that cannot be encoded or written. */
  lemma {:induction false} AppendAllAnswers(codec: Codec, device: Device, before: Recording, records: seq<RecordV1>)
    returns (count: nat)
    ensures var Attempt(after, result) := AppendAll(codec, device, before, records);
            && Wrote(before, after, records, count)
            && (forall k | 0 <= k < count :: codec.encodes(records[k]))
            && NamesFailure(device, before.sink.calls, after.sink.calls, result)
            && (result.Ok? <==> count == |records|)
            && (result.Err? <==> after.lifecycle == StoppedFor(RecordingFailed) && count < |records|)
            && (result.Ok? ==> after.lifecycle == before.lifecycle)
            && (result.Err? ==> result.error == if codec.encodes(records[count]) then WriteFailed else EncodeFailed)
    decreases |records|
  {
    count := 0;
    if records != [] {
      var first := Append(codec, device, before, records[0]);
      if first.result.Ok? {
        var rest := AppendAllAnswers(codec, device, first.recording, records[1..]);
        count := rest + 1;
        assert records[..count] == [records[0]] + records[1..][..rest];
        assert forall k | 0 <= k < count :: k == 0 || records[k] == records[1..][k - 1];
      }
    }
  }

  /** A checkpoint answers well exactly when every record is written and the flush succeeds. */
  lemma CheckpointAnswers(codec: Codec, device: Device, before: Recording, records: seq<RecordV1>)
    returns (count: nat)
    ensures var Attempt(after, result) := Checkpoint(codec, device, before, records);
            && Wrote(before, after, records, count)
            && NamesFailure(device, before.sink.calls, after.sink.calls, result)
            && (result.Ok? ==> count == |records| && after.lifecycle == before.lifecycle)
            && (result.Err? ==>
                  && after.lifecycle == StoppedFor(RecordingFailed)
                  && result.error ==
                     if count == |records| then FlushFailed
                     else if codec.encodes(records[count]) then WriteFailed else EncodeFailed)
  {
    hide AppendAll;
    count := AppendAllAnswers(codec, device, before, records);
  }

  function LifecycleAfter(response: ApplyResult): Lifecycle {
    if response.Applied? && response.state.status.Ended? then StoppedFor(AlreadyCompleted) else Active
  }

  /** Everything an answered submission says about the recording it leaves. */
  ghost predicate AnswerFits(device: Device, before: Recording, after: Recording, response: ApplyResult,
                             result: Result<RecordedStep, RecordingError>) {
    && NamesFailure(device, before.sink.calls, after.sink.calls, result)
    && match result
       case Ok(step) =>
         && step == AsStep(response)
         && after.state == (if response.Applied? then response.state else before.state)
         && after.lifecycle == LifecycleAfter(response)
         && (response.Applied? ==> !response.state.status.Broken?)
         && |after.sink.lines| == |before.sink.lines| + 2
              + (if response.Applied? then |response.events| else 0)
              + (if after.lifecycle.Active? then 0 else 2)
       case Err(error) =>
         after.lifecycle == StoppedFor(if error.Stopped? then error.reason else RecordingFailed)
  }

  lemma CompletionAnswers(codec: Codec, device: Device, before: Recording, outcome: D.GameOutcome,
                          projection: W.StateProjectionV1, digest: StateDigestV1)
    ensures var Attempt(after, result) := CompleteEndedMatch(codec, device, before, outcome, projection, digest);
            && NamesFailure(device, before.sink.calls, after.sink.calls, result)
            && after.state == before.state
            && (result.Ok? ==> after.lifecycle == StoppedFor(AlreadyCompleted) &&
                               |after.sink.lines| == |before.sink.lines| + 2)
            && (result.Err? ==> !result.error.Stopped? && after.lifecycle == StoppedFor(RecordingFailed))
  {
    hide Checkpoint;
    var _ := CheckpointAnswers(codec, device, before,
      PrepareCompletion(before.nextSequence, before.nextStep - 1, before.totalEvents, outcome, projection, digest));
  }

  lemma AcceptedAnswers(codec: Codec, device: Device, before: Recording, counted: Recording, step: nat,
                        response: ApplyResult)
    requires response.Applied? && counted.lifecycle.Active?
    requires |counted.sink.lines| == |before.sink.lines| + 1
    requires NamesFailure(device, before.sink.calls, counted.sink.calls, Ok(()))
    ensures var Attempt(after, result) :=
              RecordAcceptedStep(codec, device, counted, step, response.state, response.events);
            AnswerFits(device, before, after, response, result)
  {
    hide Checkpoint, CompleteEndedMatch, CheckTerminalEvents, PrepareAcceptedStep;
    var moved := counted.(state := response.state);
    var projection := codec.project(response.state);
    var digest := codec.digest(projection);
    if digest.Ok? {
      var records := PrepareAcceptedStep(codec, moved.nextSequence, step, response.events, digest.value);
      var _ := CheckpointAnswers(codec, device, moved, records);
      var saved := Checkpoint(codec, device, moved, records).recording;
      var terminal := CheckTerminalEvents(response.state.status, response.events);
      if terminal.Ok? && terminal.value.Some? {
        CompletionAnswers(codec, device, saved.(totalEvents := saved.totalEvents + |response.events|),
          terminal.value.value, projection, digest.value);
      }
    }
  }

  /**
   A submission to an active recording answers the engine's own events or error, exactly as the
   engine gave them, and only once the whole step is durable; any error stops the recording.
   */
  lemma SubmitAnswers(codec: Codec, device: Device, recording: Recording, action: GameAction, response: ApplyResult)
    requires recording.lifecycle.Active?
    ensures var Attempt(after, result) := SubmitWith(codec, device, recording, action, response);
            AnswerFits(device, recording, after, response, result)
  {
    hide Checkpoint, RecordAcceptedStep;
    var appended := Append(codec, device, recording,
      PrepareAction(codec, recording.nextSequence, recording.nextStep, action));
    if appended.result.Ok? {
      var counted := appended.recording.(nextStep := recording.nextStep + 1);
      match response
      case Applied(state, events) =>
        AcceptedAnswers(codec, device, recording, counted, recording.nextStep, response);
      case Refused(error) =>
        var digest := codec.digest(codec.project(counted.state));
        if digest.Ok? {
          var _ := CheckpointAnswers(codec, device, counted,
            [PrepareRejectedStep(codec, counted.nextSequence, recording.nextStep, error, digest.value)]);
        }
    }
  }

  // ----- Starting -----

  /**
   A start answers a recording over exactly its two opening records, in play at step one, or names
   why there is none: the game is over, the state or a record cannot be written, or the writer failed.
   */
  lemma StartAnswers(codec: Codec, device: Device, sink: Sink, metadata: HeaderMetadataV1,
                     requiredSets: seq<SetRequirementV1>, initialState: D.GameState)
    ensures var Started(after, result) := Start(codec, device, sink, metadata, requiredSets, initialState);
            var status := initialState.status;
            && NamesFailure(device, sink.calls, after.calls, result)
            && sink.lines <= after.lines
            && (result == Err(Stopped(GameAlreadyEnded)) <==> status.Ended?)
            && (result == Err(Stopped(GameBroken)) <==> status.Broken?)
            && (result.Ok? ==>
                  && result.value.sink == after && result.value.state == initialState
                  && result.value.lifecycle == Active && result.value.nextStep == 1 && result.value.totalEvents == 0
                  && |after.lines| == |sink.lines| + 2 && result.value.nextSequence == 2
                  && after.lines[|sink.lines|] == Header(HeaderV1(0, "summoners_match", 1, metadata))
                  && var created := after.lines[|sink.lines| + 1];
                     && created.MatchCreated? && created.created.sequence == 1
                     && created.created.requiredSets == requiredSets
                     && created.created.initialState == codec.project(initialState))
            && (NothingFails(codec, device) && status.Playing? ==> result.Ok?)
  {
  }

  // ----- When nothing around the recorder fails -----

  ghost predicate NothingFails(codec: Codec, device: Device) {
    && (forall record :: codec.encodes(record))
    && (forall call :: device(call))
    && (forall projection :: codec.digest(projection).Ok?)
  }

  /** Why a recording may not go on after this answer of the engine. */
  function Objection(response: ApplyResult): Option<RecordingStopped> {
    match response
    case Refused(_) => None
    case Applied(state, events) =>
      var endings := EndedOutcomes(events);
      match state.status
      case Broken(_) => Some(GameBroken)
      case Playing =>
        if |endings| == 0 then None
        else Some(InvalidTerminalEvents(if |endings| == 1 then UnexpectedGameEnded else SeveralGameEnded))
      case Ended(outcome) =>
        if endings == [outcome] then None
        else Some(InvalidTerminalEvents(
          if |endings| == 0 then NoGameEnded else if |endings| == 1 then TerminalOutcomeMismatch
          else SeveralGameEnded))
  }

  /** With a writer and a codec that never fail, only what the engine answered can stop the recording. */
  lemma WorkingSubmitAnswers(codec: Codec, device: Device, recording: Recording, action: GameAction,
                             response: ApplyResult)
    requires NothingFails(codec, device) && recording.lifecycle.Active?
    ensures SubmitWith(codec, device, recording, action, response).result ==
            match Objection(response)
            case None => Ok(AsStep(response))
            case Some(reason) => Err(Stopped(reason))
  {
    hide Checkpoint;
    var counted := Append(codec, device, recording,
      PrepareAction(codec, recording.nextSequence, recording.nextStep, action)).recording.
      (nextStep := recording.nextStep + 1);
    match response
    case Applied(state, events) =>
      WorkingAccepted(codec, device, counted, recording.nextStep, response);
    case Refused(error) =>
      var digest := codec.digest(codec.project(counted.state)).value;
      var _ := CheckpointAnswers(codec, device, counted,
        [PrepareRejectedStep(codec, counted.nextSequence, recording.nextStep, error, digest)]);
  }

  lemma WorkingAccepted(codec: Codec, device: Device, counted: Recording, step: nat, response: ApplyResult)
    requires NothingFails(codec, device) && response.Applied?
    ensures RecordAcceptedStep(codec, device, counted, step, response.state, response.events).result ==
            match Objection(response)
            case None => Ok(AsStep(response))
            case Some(reason) => Err(Stopped(reason))
  {
    hide Checkpoint, PrepareAcceptedStep, PrepareCompletion;
    var moved := counted.(state := response.state);
    var projection := codec.project(response.state);
    var digest := codec.digest(projection).value;
    var records := PrepareAcceptedStep(codec, moved.nextSequence, step, response.events, digest);
    var _ := CheckpointAnswers(codec, device, moved, records);
    var saved := Checkpoint(codec, device, moved, records).recording;
    var after := saved.(totalEvents := saved.totalEvents + |response.events|);
    var terminal := CheckTerminalEvents(response.state.status, response.events);
    if terminal.Ok? && terminal.value.Some? {
      var _ := CheckpointAnswers(codec, device, after, PrepareCompletion(after.nextSequence, after.nextStep - 1,
        after.totalEvents, terminal.value.value, projection, digest));
    }
  }
}
