/**
 What every run of the recorder keeps, whatever the engine answers and wherever a write or a
 flush fails: numbering, counters, the link to the engine's states, and the agreement with the
 written contract that makes the stream acceptable to the parser exactly when it is complete.
 */
module RecorderRuns {
  import opened Wrappers
  import opened StateProjection
  import opened Records
  import opened Recorder
  import C = Contract
  import P = Parser
  import W = WireState
  import D = Domain

  /** One submission: the action, and what the engine answered if it was asked. */
  datatype Call = Call(action: GameAction, response: ApplyResult)

  /** What a recording was started with. */
  datatype Opening = Opening(metadata: HeaderMetadataV1, requiredSets: seq<SetRequirementV1>, initialState: D.GameState)

  function RunCalls(codec: Codec, device: Device, recording: Recording, calls: seq<Call>): Recording {
    if calls == [] then recording
    else
      var before := RunCalls(codec, device, recording, calls[..|calls| - 1]);
      var last := calls[|calls| - 1];
      SubmitWith(codec, device, before, last.action, last.response).recording
  }

  /** The engine's state after the answers so far; a refusal changes nothing. */
  function StateAfter(initial: D.GameState, calls: seq<Call>): D.GameState {
    if calls == [] then initial
    else
      match calls[|calls| - 1].response
      case Applied(state, _) => state
      case Refused(_) => StateAfter(initial, calls[..|calls| - 1])
  }

  // ----- What one step and one stream say about the calls behind them -----

  ghost predicate EventsSay(codec: Codec, records: seq<EventRecordV1>, events: seq<GameEvent>) {
    && |records| == |events|
    && forall k | 0 <= k < |events| :: records[k].event == codec.EventToWire(events[k])
  }

  ghost predicate StepSays(codec: Codec, step: TranscriptStepV1, before: D.GameState, call: Call) {
    && step.action.action == codec.ActionToWire(call.action)
    && match call.response
       case Applied(state, events) =>
         && step.result.Accepted?
         && EventsSay(codec, step.result.events, events)
         && codec.digest(codec.project(state)) == Ok(step.result.completion.stateDigest)
       case Refused(error) =>
         && step.result.Rejected?
         && step.result.rejection.error == codec.errorToWire(error)
         && codec.digest(codec.project(before)) == Ok(step.result.rejection.stateDigest)
  }

  ghost predicate Describes(codec: Codec, initial: D.GameState, steps: seq<TranscriptStepV1>, calls: seq<Call>) {
    && |steps| == |calls|
    && forall k | 0 <= k < |calls| :: StepSays(codec, steps[k], StateAfter(initial, calls[..k]), calls[k])
  }

  ghost predicate CreatedBy(codec: Codec, opening: Opening, created: MatchCreatedV1) {
    var projection := codec.project(opening.initialState);
    && created == NewMatchCreated(opening.requiredSets, projection, created.stateDigest)
    && C.CreatedRule(codec, created)
  }

  ghost predicate HasCompletion(lines: seq<RecordV1>) {
    exists k :: 0 <= k < |lines| && lines[k].MatchCompleted?
  }

  /** Between two submissions of an active recording. */
  ghost predicate ActiveWith(codec: Codec, opening: Opening, recording: Recording, calls: seq<Call>,
                             created: MatchCreatedV1, steps: seq<TranscriptStepV1>) {
    && recording.sink.lines == C.OpeningRecords(NewHeader(opening.metadata), created) + C.StepsRecords(steps)
    && CreatedBy(codec, opening, created)
    && C.StepsRule(created.stateDigest, steps)
    && C.NoEnding(steps)
    && recording.nextStep == |steps| + 1
    && recording.totalEvents == C.TotalEvents(steps)
    && recording.state.status == D.Playing
    && recording.state == StateAfter(opening.initialState, calls)
    && codec.digest(codec.project(recording.state)) == Ok(C.DigestAfter(created.stateDigest, steps))
    && Describes(codec, opening.initialState, steps, calls)
  }

  /** A stream that tells the whole match played by the calls. */
  ghost predicate CompletedWith(codec: Codec, opening: Opening, lines: seq<RecordV1>, calls: seq<Call>,
                                transcript: TranscriptV1) {
    && C.Flatten(transcript) == lines
    && C.WellFormed(codec, transcript)
    && transcript.header == NewHeader(opening.metadata)
    && CreatedBy(codec, opening, transcript.matchCreated)
    && Describes(codec, opening.initialState, transcript.steps, calls)
    && transcript.finalState.finalState == codec.project(StateAfter(opening.initialState, calls))
  }

  ghost predicate Invariant(codec: Codec, opening: Opening, recording: Recording, calls: seq<Call>) {
    && |recording.sink.lines| == recording.nextSequence
    && C.GlobalSequence(recording.sink.lines)
    && (recording.lifecycle.Active? ==>
          exists created, steps :: ActiveWith(codec, opening, recording, calls, created, steps))
    && (HasCompletion(recording.sink.lines) ==>
          exists n, transcript :: 0 <= n <= |calls| &&
            CompletedWith(codec, opening, recording.sink.lines, calls[..n], transcript))
    && (recording.lifecycle == StoppedFor(AlreadyCompleted) ==> HasCompletion(recording.sink.lines))
  }

  // ----- Writing -----

  /** The first `count` of the records were added and nothing but the sink, the counter and the lifecycle changed. */
  ghost predicate Wrote(before: Recording, after: Recording, records: seq<RecordV1>, count: nat) {
    && count <= |records|
    && after.sink.lines == before.sink.lines + records[..count]
    && after.nextSequence == before.nextSequence + count
    && after.state == before.state
    && after.nextStep == before.nextStep
    && after.totalEvents == before.totalEvents
  }

  lemma {:induction false} AppendAllWrites(codec: Codec, device: Device, before: Recording, records: seq<RecordV1>)
    returns (count: nat)
    ensures var after := AppendAll(codec, device, before, records);
            && Wrote(before, after.recording, records, count)
            && (after.result.Ok? ==> count == |records| && after.recording.lifecycle == before.lifecycle)
            && (after.result.Err? ==> after.recording.lifecycle == StoppedFor(RecordingFailed))
    decreases |records|
  {
    count := 0;
    if records != [] {
      var first := Append(codec, device, before, records[0]);
      if first.result.Ok? {
        var rest := AppendAllWrites(codec, device, first.recording, records[1..]);
        count := rest + 1;
        assert records[..count] == [records[0]] + records[1..][..rest];
      }
    }
  }

  lemma CheckpointWrites(codec: Codec, device: Device, before: Recording, records: seq<RecordV1>)
    returns (count: nat)
    ensures var after := Checkpoint(codec, device, before, records);
            && Wrote(before, after.recording, records, count)
            && (after.result.Ok? ==> count == |records| && after.recording.lifecycle == before.lifecycle)
            && (after.result.Err? ==> after.recording.lifecycle == StoppedFor(RecordingFailed))
  {
    count := AppendAllWrites(codec, device, before, records);
  }

  lemma NumberedAppend(lines: seq<RecordV1>, records: seq<RecordV1>, count: nat)
    requires C.GlobalSequence(lines) && C.NumberedFrom(|lines|, records) && count <= |records|
    ensures C.GlobalSequence(lines + records[..count])
  {
  }

  predicate NoneComplete(records: seq<RecordV1>) {
    forall k | 0 <= k < |records| :: !records[k].MatchCompleted?
  }

  lemma {:induction false} StepsDoNotComplete(steps: seq<TranscriptStepV1>)
    ensures NoneComplete(C.StepsRecords(steps))
  {
    if steps != [] {
      StepsDoNotComplete(steps[..|steps| - 1]);
    }
  }

  lemma ActiveIsIncomplete(codec: Codec, opening: Opening, recording: Recording, calls: seq<Call>,
                           created: MatchCreatedV1, steps: seq<TranscriptStepV1>)
    requires ActiveWith(codec, opening, recording, calls, created, steps)
    ensures NoneComplete(recording.sink.lines)
  {
    StepsDoNotComplete(steps);
  }

  lemma DescribesSnoc(codec: Codec, initial: D.GameState, steps: seq<TranscriptStepV1>, calls: seq<Call>,
                      step: TranscriptStepV1, call: Call)
    requires Describes(codec, initial, steps, calls)
    requires StepSays(codec, step, StateAfter(initial, calls), call)
    ensures Describes(codec, initial, steps + [step], calls + [call])
    ensures StateAfter(initial, calls + [call]) ==
            if call.response.Applied? then call.response.state else StateAfter(initial, calls)
  {
    var longer := calls + [call];
    assert longer[..|calls|] == calls;
    forall k | 0 <= k < |longer|
      ensures StepSays(codec, (steps + [step])[k], StateAfter(initial, longer[..k]), longer[k])
    {
      if k < |calls| {
        assert longer[..k] == calls[..k];
      }
    }
  }

  /** The core reading of a batch's `GameEnded` events and the wire reading agree. */
  lemma {:induction false} EndingsAgree(codec: Codec, records: seq<EventRecordV1>, events: seq<GameEvent>)
    requires EventsSay(codec, records, events)
    ensures |C.Endings(records)| == |EndedOutcomes(events)|
    ensures forall k | 0 <= k < |EndedOutcomes(events)| ::
              C.Endings(records)[k] == OutcomeToWire(EndedOutcomes(events)[k])
    decreases |events|
  {
    if events != [] {
      var n := |events| - 1;
      EndingsAgree(codec, records[..n], events[..n]);
      assert events == events[..n] + [events[n]];
      EndedOutcomesAppend(events[..n], [events[n]]);
      assert records[n].event == codec.EventToWire(events[n]);
    }
  }

  lemma {:induction false} EndedOutcomesAppend(left: seq<GameEvent>, right: seq<GameEvent>)
    ensures EndedOutcomes(left + right) == EndedOutcomes(left) + EndedOutcomes(right)
  {
    if left == [] {
      assert left + right == right;
    } else {
      assert (left + right)[1..] == left[1..] + right;
      EndedOutcomesAppend(left[1..], right);
    }
  }

  // ----- One submission -----

  /** The transcript step an accepted submission writes, or would have written. */
  function AcceptedStepRecords(codec: Codec, sequence: nat, number: nat, action: GameAction, events: seq<GameEvent>,
                               digest: StateDigestV1): TranscriptStepV1 {
    TranscriptStepV1(
      ActionRecordV1(sequence, number, codec.ActionToWire(action)),
      Accepted(seq(|events|, k requires 0 <= k < |events| =>
        EventRecordV1(sequence + 1 + k, number, k, codec.EventToWire(events[k]))),
        StepCompletedV1(sequence + 1 + |events|, number, |events|, digest)))
  }

  lemma AcceptedStepIsPrepared(codec: Codec, sequence: nat, number: nat, action: GameAction, events: seq<GameEvent>,
                               digest: StateDigestV1)
    ensures C.StepRecords(AcceptedStepRecords(codec, sequence, number, action, events, digest)) ==
            [PrepareAction(codec, sequence, number, action)] +
            PrepareAcceptedStep(codec, sequence + 1, number, events, digest)
    ensures C.NumberedFrom(sequence + 1, PrepareAcceptedStep(codec, sequence + 1, number, events, digest))
    ensures EventsSay(codec, AcceptedStepRecords(codec, sequence, number, action, events, digest).result.events, events)
    ensures C.EventRule(number, AcceptedStepRecords(codec, sequence, number, action, events, digest).result.events)
    ensures NoneComplete(PrepareAcceptedStep(codec, sequence + 1, number, events, digest))
  {
    var step := AcceptedStepRecords(codec, sequence, number, action, events, digest);
    var prepared := PrepareAcceptedStep(codec, sequence + 1, number, events, digest);
    assert C.EventRecords(step.result.events) + [StepCompleted(step.result.completion)] == prepared;
  }

  lemma KeepsInvariantStopped(codec: Codec, opening: Opening, recording: Recording, calls: seq<Call>, call: Call)
    requires Invariant(codec, opening, recording, calls) && recording.lifecycle.StoppedFor?
    ensures Invariant(codec, opening, recording, calls + [call])
  {
    hide CompletedWith, ActiveWith, HasCompletion, C.GlobalSequence;
    if HasCompletion(recording.sink.lines) {
      var n, transcript :| 0 <= n <= |calls| &&
        CompletedWith(codec, opening, recording.sink.lines, calls[..n], transcript);
      assert (calls + [call])[..n] == calls[..n];
    }
  }

  lemma StoppedIncomplete(codec: Codec, opening: Opening, recording: Recording, calls: seq<Call>)
    requires |recording.sink.lines| == recording.nextSequence && C.GlobalSequence(recording.sink.lines)
    requires recording.lifecycle.StoppedFor? && recording.lifecycle.reason != AlreadyCompleted
    requires NoneComplete(recording.sink.lines)
    ensures Invariant(codec, opening, recording, calls)
  {
  }

  /** A whole step written after an active recording leaves a recording that is active with that step. */
  lemma ActiveExtends(codec: Codec, opening: Opening, before: Recording, after: Recording, calls: seq<Call>,
                      created: MatchCreatedV1, steps: seq<TranscriptStepV1>, call: Call, step: TranscriptStepV1)
    requires ActiveWith(codec, opening, before, calls, created, steps)
    requires C.StepRule(before.nextStep, C.DigestAfter(created.stateDigest, steps), step)
    requires C.Endings(C.StepEvents(step)) == []
    requires StepSays(codec, step, before.state, call)
    requires after.sink.lines == before.sink.lines + C.StepRecords(step)
    requires after.nextStep == before.nextStep + 1
    requires after.totalEvents == before.totalEvents + |C.StepEvents(step)|
    requires after.state == if call.response.Applied? then call.response.state else before.state
    requires after.state.status == D.Playing
    ensures ActiveWith(codec, opening, after, calls + [call], created, steps + [step])
  {
    hide C.StepRecords, C.OpeningRecords, C.CreatedRule, C.StepRule, C.StepsRule, C.Endings, C.StepEvents, C.NoEnding;
    hide C.StepsRecords, C.TotalEvents, C.DigestAfter;
    C.StepsRuleSnoc(created.stateDigest, steps, step);
    C.NoEndingSnoc(steps, step);
    DescribesSnoc(codec, opening.initialState, steps, calls, step, call);
  }

  lemma KeepsInvariantRejected(codec: Codec, device: Device, opening: Opening, recording: Recording, calls: seq<Call>,
                               created: MatchCreatedV1, steps: seq<TranscriptStepV1>, call: Call, counted: Recording)
    requires Invariant(codec, opening, recording, calls)
    requires ActiveWith(codec, opening, recording, calls, created, steps)
    requires call.response.Refused?
    requires recording.lifecycle.Active?
    requires counted == Counted(codec, recording, call.action, counted.sink.calls)
    ensures var attempt := RecordRejectedStep(codec, device, counted, recording.nextStep, call.response.error);
            && Invariant(codec, opening, attempt.recording, calls + [call])
            && attempt.recording.state == recording.state
  {
    hide C.StepsRecords, C.OpeningRecords, C.CreatedRule, C.StepsRule, C.DigestAfter, Checkpoint, Describes, ActiveWith;
    var number, sequence := recording.nextStep, recording.nextSequence;
    var error := call.response.error;
    var digest := C.DigestAfter(created.stateDigest, steps);
    var action := PrepareAction(codec, sequence, number, call.action);
    var rejected := PrepareRejectedStep(codec, sequence + 1, number, error, digest);
    var step := TranscriptStepV1(action.action, Rejected(rejected.rejection));
    ActiveIsIncomplete(codec, opening, recording, calls, created, steps);
    ActiveDigest(codec, opening, recording, calls, created, steps);
    var count := CheckpointWrites(codec, device, counted, [rejected]);
    var saved := Checkpoint(codec, device, counted, [rejected]);
    NumberedAppend(recording.sink.lines, [action, rejected], 1 + count);
    assert saved.recording.sink.lines == recording.sink.lines + [action, rejected][..1 + count];
    if saved.result.Err? {
      StoppedIncomplete(codec, opening, saved.recording, calls + [call]);
    } else {
      assert C.StepRecords(step) == [action, rejected];
      ActiveExtends(codec, opening, recording, saved.recording, calls, created, steps, call, step);
    }
  }

  /** The recording after the action record is written and counted. */
  function Counted(codec: Codec, recording: Recording, action: GameAction, calls: nat): Recording {
    recording.(
      sink := Sink(
        recording.sink.lines + [PrepareAction(codec, recording.nextSequence, recording.nextStep, action)], calls),
      nextSequence := recording.nextSequence + 1,
      nextStep := recording.nextStep + 1)
  }

  lemma ActiveDigest(codec: Codec, opening: Opening, recording: Recording, calls: seq<Call>,
                     created: MatchCreatedV1, steps: seq<TranscriptStepV1>)
    requires ActiveWith(codec, opening, recording, calls, created, steps)
    ensures codec.digest(codec.project(recording.state)) == Ok(C.DigestAfter(created.stateDigest, steps))
    ensures recording.state.status == D.Playing
  {
  }

  lemma AcceptedStepEndings(codec: Codec, sequence: nat, number: nat, action: GameAction, events: seq<GameEvent>,
                            digest: StateDigestV1)
    ensures var endings := C.Endings(
              AcceptedStepRecords(codec, sequence, number, action, events, digest).result.events);
            && |endings| == |EndedOutcomes(events)|
            && (|endings| == 1 ==> endings == [OutcomeToWire(EndedOutcomes(events)[0])])
  {
    AcceptedStepIsPrepared(codec, sequence, number, action, events, digest);
    EndingsAgree(codec, AcceptedStepRecords(codec, sequence, number, action, events, digest).result.events, events);
  }

  /** The transcript a recording completes with. */
  function CompletedTranscript(opening: Opening, created: MatchCreatedV1, steps: seq<TranscriptStepV1>, sequence: nat,
                               events: nat, outcome: D.GameOutcome, projection: W.StateProjectionV1,
                               digest: StateDigestV1): TranscriptV1 {
    TranscriptV1(NewHeader(opening.metadata), created, steps, FinalStateV1(sequence, projection, digest),
      MatchCompletedV1(sequence + 1, |steps|, events, digest, PlayerToWire(outcome.winner),
        ReasonToWire(outcome.reason)))
  }

  lemma CompletedIsWellFormed(codec: Codec, opening: Opening, before: Recording, calls: seq<Call>,
                              created: MatchCreatedV1, steps: seq<TranscriptStepV1>, call: Call,
                              step: TranscriptStepV1, outcome: D.GameOutcome, sequence: nat)
    requires codec.KeepsStatus()
    requires ActiveWith(codec, opening, before, calls, created, steps)
    requires C.StepRule(before.nextStep, C.DigestAfter(created.stateDigest, steps), step)
    requires StepSays(codec, step, before.state, call)
    requires call.response.Applied? && call.response.state.status == D.Ended(outcome)
    requires C.Endings(C.StepEvents(step)) == [OutcomeToWire(outcome)]
    requires sequence == |before.sink.lines + C.StepRecords(step)|
    requires C.GlobalSequence(before.sink.lines + C.StepRecords(step))
    ensures var transcript := CompletedTranscript(opening, created, steps + [step], sequence,
              before.totalEvents + |C.StepEvents(step)|, outcome, codec.project(call.response.state),
              step.result.completion.stateDigest);
            && C.Flatten(transcript) == before.sink.lines + C.StepRecords(step)
               + [FinalState(transcript.finalState), MatchCompleted(transcript.matchCompleted)]
            && CompletedWith(codec, opening, C.Flatten(transcript), calls + [call], transcript)
  {
    hide C.StepRecords, C.CreatedRule, C.StepRule, C.StepsRule, C.Endings, C.StepEvents, C.NoEnding, C.StepsRecords;
    hide C.TotalEvents, C.DigestAfter, Describes;
    var longer := steps + [step];
    C.StepsRuleSnoc(created.stateDigest, steps, step);
    C.NoEndingSnoc(steps, step);
    DescribesSnoc(codec, opening.initialState, steps, calls, step, call);
    var transcript := CompletedTranscript(opening, created, longer, sequence,
      before.totalEvents + |C.StepEvents(step)|, outcome, codec.project(call.response.state),
      step.result.completion.stateDigest);
    var body := before.sink.lines + C.StepRecords(step);
    assert C.OpeningRecords(NewHeader(opening.metadata), created) + C.StepsRecords(longer) == body;
    assert C.Flatten(transcript) ==
      body + [FinalState(transcript.finalState), MatchCompleted(transcript.matchCompleted)];
    assert C.TerminalRule(longer, OutcomeToWire(outcome)) by {
      assert longer[|longer| - 1] == step;
    }
    assert codec.project(call.response.state).status == W.EndedV1(OutcomeToWire(outcome));
    assert |longer| == before.nextStep;
  }

  lemma KeepsInvariantCompleted(codec: Codec, device: Device, opening: Opening, before: Recording, calls: seq<Call>,
                                created: MatchCreatedV1, steps: seq<TranscriptStepV1>, call: Call,
                                step: TranscriptStepV1, outcome: D.GameOutcome, after: Recording)
    requires codec.KeepsStatus()
    requires ActiveWith(codec, opening, before, calls, created, steps)
    requires C.StepRule(before.nextStep, C.DigestAfter(created.stateDigest, steps), step)
    requires StepSays(codec, step, before.state, call)
    requires step.result.Accepted? && call.response.Applied? && call.response.state.status == D.Ended(outcome)
    requires C.Endings(C.StepEvents(step)) == [OutcomeToWire(outcome)]
    requires after.sink.lines == before.sink.lines + C.StepRecords(step)
    requires C.GlobalSequence(after.sink.lines) && |after.sink.lines| == after.nextSequence
    requires NoneComplete(after.sink.lines)
    requires after.nextStep == before.nextStep + 1
    requires after.totalEvents == before.totalEvents + |C.StepEvents(step)|
    ensures var attempt := CompleteEndedMatch(codec, device, after, outcome, codec.project(call.response.state),
              step.result.completion.stateDigest);
            Invariant(codec, opening, attempt.recording, calls + [call])
  {
    hide C.StepRecords, C.StepRule, C.Endings, C.StepEvents, C.Flatten, ActiveWith, StepSays, CompletedWith, Checkpoint;
    var projection, digest := codec.project(call.response.state), step.result.completion.stateDigest;
    var records := PrepareCompletion(after.nextSequence, after.nextStep - 1, after.totalEvents, outcome, projection,
      digest);
    var count := CheckpointWrites(codec, device, after, records);
    var saved := Checkpoint(codec, device, after, records).recording;
    NumberedAppend(after.sink.lines, records, count);
    CompletedIsWellFormed(codec, opening, before, calls, created, steps, call, step, outcome, after.nextSequence);
    StepCountIs(codec, opening, before, calls, created, steps);
    var transcript := CompletedTranscript(opening, created, steps + [step], after.nextSequence, after.totalEvents,
      outcome, projection, digest);
    assert records == [FinalState(transcript.finalState), MatchCompleted(transcript.matchCompleted)];
    if count == 2 {
      assert records[..2] == records;
      assert saved.sink.lines == C.Flatten(transcript);
      assert (calls + [call])[..|calls| + 1] == calls + [call];
      assert saved.sink.lines[|after.sink.lines| + 1].MatchCompleted?;
    } else {
      assert NoneComplete(records[..count]);
      assert NoneComplete(saved.sink.lines);
    }
  }

  lemma StepCountIs(codec: Codec, opening: Opening, recording: Recording, calls: seq<Call>,
                    created: MatchCreatedV1, steps: seq<TranscriptStepV1>)
    requires ActiveWith(codec, opening, recording, calls, created, steps)
    ensures |steps| == recording.nextStep - 1 == |calls|
  {
  }

  lemma KeepsInvariantAccepted(codec: Codec, device: Device, opening: Opening, recording: Recording, calls: seq<Call>,
                               created: MatchCreatedV1, steps: seq<TranscriptStepV1>, call: Call, counted: Recording)
    requires codec.KeepsStatus()
    requires Invariant(codec, opening, recording, calls)
    requires ActiveWith(codec, opening, recording, calls, created, steps)
    requires call.response.Applied?
    requires recording.lifecycle.Active?
    requires counted == Counted(codec, recording, call.action, counted.sink.calls)
    ensures var attempt := RecordAcceptedStep(codec, device, counted, recording.nextStep, call.response.state,
              call.response.events);
            Invariant(codec, opening, attempt.recording, calls + [call])
  {
    hide C.StepsRecords, C.OpeningRecords, C.CreatedRule, C.StepsRule, C.DigestAfter, C.StepRecords, C.Endings;
    hide Checkpoint, Describes, ActiveWith, Invariant, PrepareAcceptedStep, FinishAcceptedStep;
    var number, sequence := recording.nextStep, recording.nextSequence;
    var state, events := call.response.state, call.response.events;
    var moved := counted.(state := state);
    var action := PrepareAction(codec, sequence, number, call.action);
    ActiveIsIncomplete(codec, opening, recording, calls, created, steps);
    ActiveDigest(codec, opening, recording, calls, created, steps);
    InvariantNumbers(codec, opening, recording, calls);
    NumberedAppend(recording.sink.lines, [action], 1);
    assert [action][..1] == [action];
    match codec.digest(codec.project(state))
    case Err(_) =>
      StoppedIncomplete(codec, opening, moved.Fail(), calls + [call]);
    case Ok(digest) =>
      var step := AcceptedStepRecords(codec, sequence, number, call.action, events, digest);
      var prepared := PrepareAcceptedStep(codec, sequence + 1, number, events, digest);
      AcceptedStepIsPrepared(codec, sequence, number, call.action, events, digest);
      var count := CheckpointWrites(codec, device, moved, prepared);
      var saved := Checkpoint(codec, device, moved, prepared);
      NumberedAppend(counted.sink.lines, prepared, count);
      if saved.result.Err? {
        StoppedIncomplete(codec, opening, saved.recording, calls + [call]);
      } else {
        assert prepared[..count] == prepared;
        assert saved.recording.sink.lines == recording.sink.lines + C.StepRecords(step);
        var after := saved.recording.(totalEvents := saved.recording.totalEvents + |events|);
        FinishKeepsInvariant(codec, device, opening, recording, calls, created, steps, call, step, after, digest);
      }
  }

  lemma InvariantNumbers(codec: Codec, opening: Opening, recording: Recording, calls: seq<Call>)
    requires Invariant(codec, opening, recording, calls)
    ensures |recording.sink.lines| == recording.nextSequence && C.GlobalSequence(recording.sink.lines)
  {
  }

  lemma FinishKeepsInvariant(codec: Codec, device: Device, opening: Opening, recording: Recording, calls: seq<Call>,
                             created: MatchCreatedV1, steps: seq<TranscriptStepV1>, call: Call,
                             step: TranscriptStepV1, after: Recording, digest: StateDigestV1)
    requires codec.KeepsStatus()
    requires ActiveWith(codec, opening, recording, calls, created, steps)
    requires call.response.Applied? && after.lifecycle.Active?
    requires codec.digest(codec.project(call.response.state)) == Ok(digest)
    requires step == AcceptedStepRecords(codec, recording.nextSequence, recording.nextStep, call.action,
                       call.response.events, digest)
    requires after.sink.lines == recording.sink.lines + C.StepRecords(step)
    requires C.GlobalSequence(after.sink.lines) && |after.sink.lines| == after.nextSequence
    requires NoneComplete(after.sink.lines)
    requires after.nextStep == recording.nextStep + 1 && after.state == call.response.state
    requires after.totalEvents == recording.totalEvents + |call.response.events|
    ensures var attempt := FinishAcceptedStep(codec, device, after, call.response.events,
              codec.project(call.response.state), digest);
            Invariant(codec, opening, attempt.recording, calls + [call])
  {
    hide C.StepsRecords, C.OpeningRecords, C.CreatedRule, C.StepsRule, C.DigestAfter, C.StepRecords, C.Endings;
    hide ActiveWith, CompleteEndedMatch, EndedOutcomes, C.GlobalSequence;
    var state, events := call.response.state, call.response.events;
    AcceptedStepIsPrepared(codec, recording.nextSequence, recording.nextStep, call.action, events, digest);
    AcceptedStepEndings(codec, recording.nextSequence, recording.nextStep, call.action, events, digest);
    assert C.StepEvents(step) == step.result.events;
    match CheckTerminalEvents(state.status, events)
    case Err(error) =>
      StoppedIncomplete(codec, opening, Stop(after, InvalidTerminalEvents(error)).recording, calls + [call]);
    case Ok(Some(outcome)) =>
      KeepsInvariantCompleted(codec, device, opening, recording, calls, created, steps, call, step, outcome, after);
    case Ok(None) =>
      if state.status.Broken? {
        StoppedIncomplete(codec, opening, Stop(after, GameBroken).recording, calls + [call]);
      } else {
        ActiveExtends(codec, opening, recording, after, calls, created, steps, call, step);
      }
  }

  /** Every submission keeps the invariant, whatever the engine answers and whichever writer call fails. */
  lemma SubmitKeepsInvariant(codec: Codec, device: Device, opening: Opening, recording: Recording, calls: seq<Call>,
                             call: Call)
    requires codec.KeepsStatus()
    requires Invariant(codec, opening, recording, calls)
    ensures Invariant(codec, opening, SubmitWith(codec, device, recording, call.action, call.response).recording,
              calls + [call])
  {
    hide C.StepsRecords, C.OpeningRecords, RecordAcceptedStep, RecordRejectedStep, ActiveWith, Invariant;
    if recording.lifecycle.StoppedFor? {
      KeepsInvariantStopped(codec, opening, recording, calls, call);
    } else {
      var created, steps := ActiveWitness(codec, opening, recording, calls);
      InvariantNumbers(codec, opening, recording, calls);
      ActiveIsIncomplete(codec, opening, recording, calls, created, steps);
      var action := PrepareAction(codec, recording.nextSequence, recording.nextStep, call.action);
      var appended := Append(codec, device, recording, action);
      if appended.result.Err? {
        StoppedIncomplete(codec, opening, appended.recording, calls + [call]);
      } else {
        var counted := appended.recording.(nextStep := recording.nextStep + 1);
        assert counted == Counted(codec, recording, call.action, counted.sink.calls);
        match call.response
        case Applied(_, _) =>
          KeepsInvariantAccepted(codec, device, opening, recording, calls, created, steps, call, counted);
        case Refused(_) =>
          KeepsInvariantRejected(codec, device, opening, recording, calls, created, steps, call, counted);
      }
    }
  }

  lemma ActiveWitness(codec: Codec, opening: Opening, recording: Recording, calls: seq<Call>)
    returns (created: MatchCreatedV1, steps: seq<TranscriptStepV1>)
    requires Invariant(codec, opening, recording, calls) && recording.lifecycle.Active?
    ensures ActiveWith(codec, opening, recording, calls, created, steps)
  {
    created, steps :| ActiveWith(codec, opening, recording, calls, created, steps);
  }

  lemma StartEstablishesInvariant(codec: Codec, device: Device, opening: Opening, calls: nat)
    requires codec.KeepsStatus()
    ensures var started := Start(codec, device, Sink([], calls), opening.metadata, opening.requiredSets,
              opening.initialState);
            started.result.Ok? ==> Invariant(codec, opening, started.result.value, [])
  {
    var started := Start(codec, device, Sink([], calls), opening.metadata, opening.requiredSets, opening.initialState);
    if started.result.Ok? {
      var projection := codec.project(opening.initialState);
      var created := NewMatchCreated(opening.requiredSets, projection, codec.digest(projection).value);
      assert started.result.value.sink.lines ==
             C.OpeningRecords(NewHeader(opening.metadata), created) + C.StepsRecords([]);
      assert ActiveWith(codec, opening, started.result.value, [], created, []);
    }
  }

  /** The invariant holds after every run of every length. */
  lemma {:induction false} RunKeepsInvariant(codec: Codec, device: Device, opening: Opening, first: Recording,
                                             calls: seq<Call>)
    requires codec.KeepsStatus()
    requires Invariant(codec, opening, first, [])
    ensures Invariant(codec, opening, RunCalls(codec, device, first, calls), calls)
    decreases |calls|
  {
    hide Invariant, SubmitWith;
    if calls != [] {
      var n := |calls| - 1;
      RunKeepsInvariant(codec, device, opening, first, calls[..n]);
      SubmitKeepsInvariant(codec, device, opening, RunCalls(codec, device, first, calls[..n]), calls[..n], calls[n]);
      assert calls[..n] + [calls[n]] == calls;
    }
  }

  // ----- What the invariant says to a reader of the stream -----

  /**
   Fail-closed: after any run, with any engine answers and any writer failures, the strict parser
   accepts the stream exactly when its `match_completed` record was written.
   */
  lemma AcceptedExactlyWhenCompleted(codec: Codec, device: Device, opening: Opening, first: Recording,
                                     calls: seq<Call>)
    requires codec.KeepsStatus()
    requires Invariant(codec, opening, first, [])
    ensures var run := RunCalls(codec, device, first, calls);
            && (P.FoldRecords(codec, run.sink.lines).Ok? <==> HasCompletion(run.sink.lines))
            && (run.lifecycle == StoppedFor(AlreadyCompleted) ==> P.FoldRecords(codec, run.sink.lines).Ok?)
            && (run.lifecycle.Active? ==> P.FoldRecords(codec, run.sink.lines).Err?)
  {
    hide C.WellFormed, RunCalls;
    RunKeepsInvariant(codec, device, opening, first, calls);
    var run := RunCalls(codec, device, first, calls);
    if HasCompletion(run.sink.lines) {
      var n, transcript :| 0 <= n <= |calls| &&
        CompletedWith(codec, opening, run.sink.lines, calls[..n], transcript);
      C.ParserIsComplete(codec, transcript);
    }
    AcceptedHasCompletion(codec, run.sink.lines);
    if run.lifecycle.Active? {
      var created, steps := ActiveWitness(codec, opening, run, calls);
      ActiveIsIncomplete(codec, opening, run, calls, created, steps);
    }
  }

  lemma AcceptedHasCompletion(codec: Codec, lines: seq<RecordV1>)
    ensures P.FoldRecords(codec, lines).Ok? ==> HasCompletion(lines)
  {
    if P.FoldRecords(codec, lines).Ok? {
      C.ParserIsSound(codec, lines);
      C.CompletionIsLast(codec, lines, |lines| - 1);
    }
  }

  /** A start that fails leaves at most the two opening records, which the parser does not accept. */
  lemma FailedStartIsRejected(codec: Codec, device: Device, opening: Opening, calls: nat)
    ensures var started := Start(codec, device, Sink([], calls), opening.metadata, opening.requiredSets,
              opening.initialState);
            P.FoldRecords(codec, started.sink.lines).Err?
  {
    var started := Start(codec, device, Sink([], calls), opening.metadata, opening.requiredSets, opening.initialState);
    AcceptedHasCompletion(codec, started.sink.lines);
    assert NoneComplete(started.sink.lines);
  }

  /** A stream that was completed reads back as exactly the submitted calls, up to the one that ended the match. */
  lemma CompletedStreamReadsBack(codec: Codec, device: Device, opening: Opening, first: Recording, calls: seq<Call>)
    returns (n: nat, transcript: TranscriptV1)
    requires codec.KeepsStatus()
    requires Invariant(codec, opening, first, [])
    requires HasCompletion(RunCalls(codec, device, first, calls).sink.lines)
    ensures n <= |calls|
    ensures P.FoldRecords(codec, RunCalls(codec, device, first, calls).sink.lines) == Ok(transcript)
    ensures CompletedWith(codec, opening, RunCalls(codec, device, first, calls).sink.lines, calls[..n], transcript)
  {
    hide C.WellFormed;
    RunKeepsInvariant(codec, device, opening, first, calls);
    var run := RunCalls(codec, device, first, calls);
    n, transcript :| 0 <= n <= |calls| && CompletedWith(codec, opening, run.sink.lines, calls[..n], transcript);
    C.ParserIsComplete(codec, transcript);
  }

  function CountActions(records: seq<RecordV1>): nat {
    if records == [] then 0
    else CountActions(records[..|records| - 1]) + if records[|records| - 1].Action? then 1 else 0
  }

  function CountEvents(records: seq<RecordV1>): nat {
    if records == [] then 0
    else CountEvents(records[..|records| - 1]) + if records[|records| - 1].Event? then 1 else 0
  }

  lemma {:induction false} CountsAppend(left: seq<RecordV1>, right: seq<RecordV1>)
    ensures CountActions(left + right) == CountActions(left) + CountActions(right)
    ensures CountEvents(left + right) == CountEvents(left) + CountEvents(right)
    decreases |right|
  {
    if right == [] {
      assert left + right == left;
    } else {
      var n := |right| - 1;
      assert (left + right)[..|left + right| - 1] == left + right[..n];
      CountsAppend(left, right[..n]);
    }
  }

  lemma {:induction false} CountsOfEvents(events: seq<EventRecordV1>)
    ensures CountActions(C.EventRecords(events)) == 0 && CountEvents(C.EventRecords(events)) == |events|
    decreases |events|
  {
    if events != [] {
      var n := |events| - 1;
      assert C.EventRecords(events)[..n] == C.EventRecords(events[..n]);
      CountsOfEvents(events[..n]);
    }
  }

  lemma CountsOfStep(step: TranscriptStepV1)
    ensures CountActions(C.StepRecords(step)) == 1
    ensures CountEvents(C.StepRecords(step)) == |C.StepEvents(step)|
  {
    var events := C.StepEvents(step);
    var last :=
      if step.result.Accepted? then StepCompleted(step.result.completion) else StepRejected(step.result.rejection);
    assert C.StepRecords(step) == [Action(step.action)] + (C.EventRecords(events) + [last]);
    CountsAppend([Action(step.action)], C.EventRecords(events) + [last]);
    CountsAppend(C.EventRecords(events), [last]);
    CountsOfEvents(events);
    assert [last][..0] == [] && [Action(step.action)][..0] == [];
  }

  lemma {:induction false} CountsOfSteps(steps: seq<TranscriptStepV1>)
    ensures CountActions(C.StepsRecords(steps)) == |steps|
    ensures CountEvents(C.StepsRecords(steps)) == C.TotalEvents(steps)
    decreases |steps|
  {
    hide C.StepRecords, C.StepEvents, CountActions, CountEvents;
    if steps == [] {
      CountsOfEvents([]);
      assert C.StepsRecords(steps) == C.EventRecords([]);
    } else {
      var n := |steps| - 1;
      CountsOfSteps(steps[..n]);
      CountsOfStep(steps[n]);
      CountsAppend(C.StepsRecords(steps[..n]), C.StepRecords(steps[n]));
    }
  }

  lemma OpeningCounts(header: HeaderV1, created: MatchCreatedV1)
    ensures CountActions(C.OpeningRecords(header, created)) == 0
    ensures CountEvents(C.OpeningRecords(header, created)) == 0
  {
    var one, two := [Header(header)], [MatchCreated(created)];
    assert C.OpeningRecords(header, created) == one + two;
    CountsAppend(one, two);
    assert one[..0] == [] && two[..0] == [];
  }

  /**
   Between submissions of an active recording the counters say what the stream holds, the n-th
   record carries sequence n, and the state is the engine's.
   */
  lemma ActiveCountersAgree(codec: Codec, device: Device, opening: Opening, first: Recording, calls: seq<Call>)
    requires codec.KeepsStatus()
    requires Invariant(codec, opening, first, [])
    ensures var run := RunCalls(codec, device, first, calls);
            && C.GlobalSequence(run.sink.lines) && |run.sink.lines| == run.nextSequence
            && (run.lifecycle.Active? ==>
                  && CountActions(run.sink.lines) == run.nextStep - 1 == |calls|
                  && CountEvents(run.sink.lines) == run.totalEvents
                  && run.state == StateAfter(opening.initialState, calls)
                  && run.state.status == D.Playing)
  {
    hide C.StepsRecords, C.OpeningRecords, CountActions, CountEvents, RunCalls;
    RunKeepsInvariant(codec, device, opening, first, calls);
    var run := RunCalls(codec, device, first, calls);
    if run.lifecycle.Active? {
      var created, steps := ActiveWitness(codec, opening, run, calls);
      var header := NewHeader(opening.metadata);
      CountsAppend(C.OpeningRecords(header, created), C.StepsRecords(steps));
      OpeningCounts(header, created);
      CountsOfSteps(steps);
    }
  }

  /** Append-only: no submission removes or changes a written record. */
  lemma SubmitOnlyAppends(codec: Codec, device: Device, recording: Recording, action: GameAction, response: ApplyResult)
    ensures recording.sink.lines <= SubmitWith(codec, device, recording, action, response).recording.sink.lines
  {
    var appended := Append(codec, device, recording,
      PrepareAction(codec, recording.nextSequence, recording.nextStep, action));
    if recording.lifecycle.Active? && appended.result.Ok? {
      var counted := appended.recording.(nextStep := recording.nextStep + 1);
      match response
      case Refused(error) =>
        var digest := codec.digest(codec.project(counted.state));
        if digest.Ok? {
          var _ := CheckpointWrites(codec, device, counted,
            [PrepareRejectedStep(codec, counted.nextSequence, recording.nextStep, error, digest.value)]);
        }
      case Applied(state, events) =>
        AcceptedOnlyAppends(codec, device, counted, recording.nextStep, state, events);
    }
  }

  lemma AcceptedOnlyAppends(codec: Codec, device: Device, counted: Recording, step: nat, state: D.GameState,
                            events: seq<GameEvent>)
    ensures counted.sink.lines <= RecordAcceptedStep(codec, device, counted, step, state, events).recording.sink.lines
  {
    hide Checkpoint, CheckTerminalEvents;
    var moved := counted.(state := state);
    var projection := codec.project(state);
    var digest := codec.digest(projection);
    if digest.Ok? {
      var prepared := PrepareAcceptedStep(codec, moved.nextSequence, step, events, digest.value);
      var _ := CheckpointWrites(codec, device, moved, prepared);
      var saved := Checkpoint(codec, device, moved, prepared);
      if saved.result.Ok? {
        var after := saved.recording.(totalEvents := saved.recording.totalEvents + |events|);
        var terminal := CheckTerminalEvents(state.status, events);
        if terminal.Ok? && terminal.value.Some? {
          var _ := CheckpointWrites(codec, device, after,
            PrepareCompletion(after.nextSequence, after.nextStep - 1, after.totalEvents, terminal.value.value,
              projection, digest.value));
        }
      }
    }
  }

  /** Once stopped, a recording writes nothing, calls nothing and keeps reporting why it stopped. */
  lemma {:induction false} StoppedStaysStopped(codec: Codec, device: Device, recording: Recording, calls: seq<Call>)
    requires recording.lifecycle.StoppedFor?
    ensures RunCalls(codec, device, recording, calls) == recording
    decreases |calls|
  {
    if calls != [] {
      StoppedStaysStopped(codec, device, recording, calls[..|calls| - 1]);
    }
  }

  /** A refused action leaves the recorder's state as it was, even when recording the refusal fails. */
  lemma RefusalKeepsState(codec: Codec, device: Device, recording: Recording, action: GameAction, error: ActionError)
    ensures SubmitWith(codec, device, recording, action, Refused(error)).recording.state == recording.state
    ensures var result := SubmitWith(codec, device, recording, action, Refused(error)).result;
            result.Ok? ==> result.value == RejectedStep(error)
  {
    var appended := Append(codec, device, recording,
      PrepareAction(codec, recording.nextSequence, recording.nextStep, action));
    var counted := appended.recording.(nextStep := recording.nextStep + 1);
    var digest := codec.digest(codec.project(counted.state));
    if digest.Ok? {
      var _ := CheckpointWrites(codec, device, counted,
        [PrepareRejectedStep(codec, counted.nextSequence, recording.nextStep, error, digest.value)]);
    }
  }
}
