/**
 Recording a verified transcript again, action by action, on a writer that never fails, gives the
 same records up to header metadata, because the engine answers nothing once the game is over.
 */
module Rerecording {
  import opened Wrappers
  import opened WireState
  import opened StateProjection
  import opened Records
  import opened Recorder
  import opened RecorderRuns
  import C = Contract
  import Y = Replay
  import S = ReplaySoundness
  import L = Closing
  import D = Domain

  const WORKING_DEVICE: Device := (call: nat) => true

  /** Every body in the step is what its own conversion would be written as; strict decoding admits nothing else. */
  ghost predicate CanonicalStep(codec: Codec, step: TranscriptStepV1) {
    var action := codec.ActionFromWire(step.action.action);
    && (action.Ok? ==> codec.ActionToWire(action.value) == step.action.action)
    && match step.result
       case Accepted(events, _) =>
         forall k | 0 <= k < |events| ::
           var event := codec.EventFromWire(events[k].event);
           event.Ok? ==> codec.EventToWire(event.value) == events[k].event
       case Rejected(rejection) => codec.errorToWire(codec.errorFromWire(rejection.error)) == rejection.error
  }

  ghost predicate CanonicalSteps(codec: Codec, steps: seq<TranscriptStepV1>) {
    forall k | 0 <= k < |steps| :: CanonicalStep(codec, steps[k])
  }

  /** No step before the last leaves the game ended or broken. */
  ghost predicate PlaysToTheEnd(initial: D.GameState, calls: seq<Call>) {
    forall k | 0 <= k < |calls| :: StateAfter(initial, calls[..k]).status == D.Playing
  }

  ghost predicate EncodesAll(codec: Codec) {
    forall record :: codec.encodes(record)
  }

  // ----- A writer that never fails -----

  lemma {:induction false} AppendAllWorks(codec: Codec, before: Recording, records: seq<RecordV1>)
    requires EncodesAll(codec)
    ensures var after := AppendAll(codec, WORKING_DEVICE, before, records);
            && after.result.Ok?
            && Wrote(before, after.recording, records, |records|)
            && after.recording.lifecycle == before.lifecycle
    decreases |records|
  {
    if records != [] {
      AppendAllWorks(codec, Append(codec, WORKING_DEVICE, before, records[0]).recording, records[1..]);
    }
  }

  lemma CheckpointWorks(codec: Codec, before: Recording, records: seq<RecordV1>)
    requires EncodesAll(codec)
    ensures var after := Checkpoint(codec, WORKING_DEVICE, before, records);
            && after.result.Ok?
            && after.recording.sink.lines == before.sink.lines + records
            && after.recording == before.(sink := after.recording.sink, nextSequence := before.nextSequence + |records|)
  {
    AppendAllWorks(codec, before, records);
    assert records[..|records|] == records;
  }

  // ----- One step again -----

  /** A recording that has written the first steps of the transcript and is ready for the next. */
  ghost predicate ReadyAt(recording: Recording, state: D.GameState, opening: seq<RecordV1>,
                          steps: seq<TranscriptStepV1>) {
    && recording.lifecycle.Active?
    && recording.sink.lines == opening + C.StepsRecords(steps)
    && recording.nextSequence == |recording.sink.lines|
    && recording.nextStep == |steps| + 1
    && recording.totalEvents == C.TotalEvents(steps)
    && recording.state == state
  }

  /** The recorder prepares the very step the transcript holds. */
  lemma PreparedAgain(codec: Codec, sequence: nat, number: nat, before: StateDigestV1, step: TranscriptStepV1,
                      state: D.GameState, call: Call)
    requires C.NumberedFrom(sequence, C.StepRecords(step)) && C.StepRule(number, before, step)
    requires CanonicalStep(codec, step) && S.StepHolds(codec, step, state, call)
    ensures PrepareAction(codec, sequence, number, call.action) == Action(step.action)
    ensures call.response.Applied? ==>
              step == AcceptedStepRecords(codec, sequence, number, call.action, call.response.events,
                        step.result.completion.stateDigest)
    ensures call.response.Refused? ==>
              StepRejected(step.result.rejection) ==
              PrepareRejectedStep(codec, sequence + 1, number, call.response.error, step.result.rejection.stateDigest)
  {
    assert C.StepRecords(step)[0] == Action(step.action);
    match step.result
    case Accepted(events, completion) =>
      forall k | 0 <= k < |events|
        ensures events[k] == EventRecordV1(sequence + 1 + k, number, k, codec.EventToWire(call.response.events[k]))
      {
        assert C.StepRecords(step)[k + 1] == Event(events[k]);
      }
      assert C.StepRecords(step)[|events| + 1] == StepCompleted(completion);
      var again := AcceptedStepRecords(codec, sequence, number, call.action, call.response.events,
        completion.stateDigest);
      assert again.result.events == events;
    case Rejected(rejection) =>
      assert C.StepRecords(step)[1] == StepRejected(rejection);
  }

  lemma RefusedAgain(codec: Codec, recording: Recording, opening: seq<RecordV1>, steps: seq<TranscriptStepV1>,
                     state: D.GameState, before: StateDigestV1, step: TranscriptStepV1, call: Call)
    requires EncodesAll(codec) && ReadyAt(recording, state, opening, steps)
    requires C.NumberedFrom(recording.nextSequence, C.StepRecords(step)) && C.StepRule(|steps| + 1, before, step)
    requires CanonicalStep(codec, step) && S.StepHolds(codec, step, state, call) && call.response.Refused?
    ensures var after := SubmitWith(codec, WORKING_DEVICE, recording, call.action, call.response).recording;
            ReadyAt(after, state, opening, steps + [step])
  {
    hide Checkpoint, C.StepRule, S.StepHolds, CanonicalStep, C.StepsRecords;
    PreparedAgain(codec, recording.nextSequence, recording.nextStep, before, step, state, call);
    StepShape(codec, step, state, call);
    var appended := Append(codec, WORKING_DEVICE, recording,
      PrepareAction(codec, recording.nextSequence, recording.nextStep, call.action)).recording;
    var counted := appended.(nextStep := recording.nextStep + 1);
    CheckpointWorks(codec, counted, [StepRejected(step.result.rejection)]);
    assert C.StepRecords(step) == [Action(step.action)] + [StepRejected(step.result.rejection)];
    StepsSnoc(steps, step);
  }

  lemma StepShape(codec: Codec, step: TranscriptStepV1, state: D.GameState, call: Call)
    requires S.StepHolds(codec, step, state, call)
    ensures call.response.Refused? <==> step.result.Rejected?
    ensures call.response.Refused? ==> codec.digest(codec.project(state)) == Ok(step.result.rejection.stateDigest)
    ensures call.response.Applied? ==>
              codec.digest(codec.project(call.response.state)) == Ok(step.result.completion.stateDigest)
  {
  }

  lemma StepsSnoc(steps: seq<TranscriptStepV1>, step: TranscriptStepV1)
    ensures C.StepsRecords(steps + [step]) == C.StepsRecords(steps) + C.StepRecords(step)
    ensures C.TotalEvents(steps + [step]) == C.TotalEvents(steps) + |C.StepEvents(step)|
  {
    C.StepsRuleSnoc("", steps, step);
  }

  /** The recording once the action record is written and counted. */
  function ActionWritten(codec: Codec, recording: Recording, action: GameAction): Recording {
    Counted(codec, recording, action, recording.sink.calls + 1)
  }

  lemma SubmitAsksEngine(codec: Codec, recording: Recording, call: Call)
    requires EncodesAll(codec) && recording.lifecycle.Active? && call.response.Applied?
    ensures SubmitWith(codec, WORKING_DEVICE, recording, call.action, call.response) ==
            RecordAcceptedStep(codec, WORKING_DEVICE, ActionWritten(codec, recording, call.action), recording.nextStep,
              call.response.state, call.response.events)
  {
    hide RecordAcceptedStep;
  }

  /** The recording once every record of an accepted step is durable and its events are counted. */
  function StepWritten(codec: Codec, written: Recording, step: nat, state: D.GameState, events: seq<GameEvent>,
                       digest: StateDigestV1): Recording {
    var moved := written.(state := state);
    var prepared := PrepareAcceptedStep(codec, moved.nextSequence, step, events, digest);
    var saved := Checkpoint(codec, WORKING_DEVICE, moved, prepared).recording;
    saved.(totalEvents := saved.totalEvents + |events|)
  }

  lemma AcceptedWritesAll(codec: Codec, written: Recording, step: nat, state: D.GameState, events: seq<GameEvent>,
                          digest: StateDigestV1)
    requires EncodesAll(codec) && codec.digest(codec.project(state)) == Ok(digest)
    ensures RecordAcceptedStep(codec, WORKING_DEVICE, written, step, state, events) ==
            FinishAcceptedStep(codec, WORKING_DEVICE, StepWritten(codec, written, step, state, events, digest), events,
              codec.project(state), digest)
    ensures var after := StepWritten(codec, written, step, state, events, digest);
            var prepared := PrepareAcceptedStep(codec, written.nextSequence, step, events, digest);
            && after.sink.lines == written.sink.lines + prepared
            && after == Recording(after.sink, state, written.nextSequence + |prepared|, written.nextStep,
                          written.totalEvents + |events|, written.lifecycle)
  {
    hide Checkpoint, FinishAcceptedStep, PrepareAcceptedStep;
    CheckpointWorks(codec, written.(state := state),
      PrepareAcceptedStep(codec, written.nextSequence, step, events, digest));
  }

  /** An accepted step is written whole before the recorder looks at how the game stands. */
  lemma AppliedAgain(codec: Codec, recording: Recording, opening: seq<RecordV1>, steps: seq<TranscriptStepV1>,
                     state: D.GameState, before: StateDigestV1, step: TranscriptStepV1, call: Call)
    returns (written: Recording)
    requires EncodesAll(codec) && ReadyAt(recording, state, opening, steps)
    requires C.NumberedFrom(recording.nextSequence, C.StepRecords(step)) && C.StepRule(|steps| + 1, before, step)
    requires CanonicalStep(codec, step) && S.StepHolds(codec, step, state, call) && call.response.Applied?
    ensures ReadyAt(written, call.response.state, opening, steps + [step])
    ensures SubmitWith(codec, WORKING_DEVICE, recording, call.action, call.response) ==
            FinishAcceptedStep(codec, WORKING_DEVICE, written, call.response.events,
              codec.project(call.response.state), step.result.completion.stateDigest)
  {
    hide C.StepRule, S.StepHolds, CanonicalStep, FinishAcceptedStep, PrepareAcceptedStep, RecordAcceptedStep;
    hide StepWritten, C.StepRecords, C.StepsRecords, C.TotalEvents, SubmitWith;
    var events, next := call.response.events, call.response.state;
    PreparedAgain(codec, recording.nextSequence, recording.nextStep, before, step, state, call);
    StepShape(codec, step, state, call);
    var digest := step.result.completion.stateDigest;
    AcceptedStepIsPrepared(codec, recording.nextSequence, recording.nextStep, call.action, events, digest);
    SubmitAsksEngine(codec, recording, call);
    var counted := ActionWritten(codec, recording, call.action);
    AcceptedWritesAll(codec, counted, recording.nextStep, next, events, digest);
    written := StepWritten(codec, counted, recording.nextStep, next, events, digest);
    StepsSnoc(steps, step);
    assert C.StepEvents(step) == step.result.events;
    assert written.sink.lines == recording.sink.lines + C.StepRecords(step);
  }

  // ----- The whole run again -----

  /** Everything a verified transcript gives for recording it again. */
  ghost predicate Verified(codec: Codec, transcript: TranscriptV1, initial: D.GameState, calls: seq<Call>) {
    && codec.KeepsStatus() && EncodesAll(codec)
    && C.WellFormed(codec, transcript)
    && CanonicalSteps(codec, transcript.steps)
    && codec.project(initial) == transcript.matchCreated.initialState
    && S.StepsHold(codec, initial, transcript.steps, calls)
    && S.EndHolds(codec, transcript, StateAfter(initial, calls), calls)
  }

  lemma {:induction false} StepsPrefix(steps: seq<TranscriptStepV1>, k: nat)
    requires k <= |steps|
    ensures C.StepsRecords(steps[..k]) <= C.StepsRecords(steps)
    decreases |steps|
  {
    if k == |steps| {
      assert steps[..k] == steps;
    } else {
      var shorter := steps[..|steps| - 1];
      StepsPrefix(shorter, k);
      assert shorter[..k] == steps[..k];
    }
  }

  /** The records of the first k steps and of the next one open the flattened transcript. */
  lemma StepIsInside(transcript: TranscriptV1, opening: seq<RecordV1>, k: nat)
    requires k < |transcript.steps| && opening == C.OpeningRecords(transcript.header, transcript.matchCreated)
    ensures opening + C.StepsRecords(transcript.steps[..k]) + C.StepRecords(transcript.steps[k]) <=
            C.Flatten(transcript)
  {
    hide C.StepRecords, C.OpeningRecords, C.StepsRecords;
    var steps := transcript.steps;
    StepsPrefix(steps, k + 1);
    StepsSnoc(steps[..k], steps[k]);
    assert steps[..k] + [steps[k]] == steps[..k + 1];
  }

  lemma StepNumbers(codec: Codec, transcript: TranscriptV1, opening: seq<RecordV1>, k: nat)
    requires C.GlobalSequence(C.Flatten(transcript)) && k < |transcript.steps|
    requires opening == C.OpeningRecords(transcript.header, transcript.matchCreated)
    ensures C.NumberedFrom(|opening + C.StepsRecords(transcript.steps[..k])|, C.StepRecords(transcript.steps[k]))
  {
    hide C.StepRecords, C.OpeningRecords, C.StepsRecords, C.Flatten;
    var steps := transcript.steps;
    var before := opening + C.StepsRecords(steps[..k]);
    var flat := C.Flatten(transcript);
    StepIsInside(transcript, opening, k);
    forall j | 0 <= j < |C.StepRecords(steps[k])|
      ensures C.StepRecords(steps[k])[j].Sequence() == |before| + j
    {
      assert flat[|before| + j] == (before + C.StepRecords(steps[k]))[|before| + j];
    }
  }

  ghost function NewOpening(metadata: HeaderMetadataV1, transcript: TranscriptV1): seq<RecordV1> {
    C.OpeningRecords(NewHeader(metadata), transcript.matchCreated)
  }

  lemma StepFacts(codec: Codec, transcript: TranscriptV1, initial: D.GameState, calls: seq<Call>, k: nat)
    requires Verified(codec, transcript, initial, calls) && k < |calls|
    ensures |transcript.steps| == |calls| && EncodesAll(codec) && C.GlobalSequence(C.Flatten(transcript))
    ensures C.StepRule(k + 1, C.DigestAfter(transcript.matchCreated.stateDigest, transcript.steps[..k]),
              transcript.steps[k])
    ensures S.StepHolds(codec, transcript.steps[k], StateAfter(initial, calls[..k]), calls[k])
    ensures CanonicalStep(codec, transcript.steps[k])
  {
    hide C.StepRule, S.StepHolds, CanonicalStep, C.TerminalRule, C.FinalRule, C.CompletionRule, S.EndHolds,
      C.CreatedRule;
    hide C.Flatten, StateAfter, C.DigestAfter, C.GlobalSequence;
  }

  /** One more step of the transcript, before the recorder looks at how the game stands. */
  lemma NextStep(codec: Codec, metadata: HeaderMetadataV1, transcript: TranscriptV1, initial: D.GameState,
                 calls: seq<Call>, recording: Recording, k: nat)
    returns (written: Recording)
    requires Verified(codec, transcript, initial, calls) && k < |calls|
    requires ReadyAt(recording, StateAfter(initial, calls[..k]), NewOpening(metadata, transcript),
             transcript.steps[..k])
    ensures ReadyAt(written, StateAfter(initial, calls[..k + 1]), NewOpening(metadata, transcript),
              transcript.steps[..k + 1])
    ensures var submitted := SubmitWith(codec, WORKING_DEVICE, recording, calls[k].action, calls[k].response);
            && (calls[k].response.Refused? ==> submitted.recording == written)
            && (calls[k].response.Applied? ==>
                  && transcript.steps[k].result.Accepted?
                  && submitted == FinishAcceptedStep(codec, WORKING_DEVICE, written, calls[k].response.events,
                       codec.project(calls[k].response.state), transcript.steps[k].result.completion.stateDigest))
    ensures calls[k].response.Applied? ==>
              var endings := C.Endings(C.StepEvents(transcript.steps[k]));
              && |endings| == |EndedOutcomes(calls[k].response.events)|
              && (|endings| == 1 ==> endings[0] == OutcomeToWire(EndedOutcomes(calls[k].response.events)[0]))
  {
    hide C.StepRecords, C.StepsRecords, C.TotalEvents, C.Endings, SubmitWith, FinishAcceptedStep, C.OpeningRecords;
    hide Verified, C.GlobalSequence, StateAfter, C.StepRule, S.StepHolds, CanonicalStep, C.DigestAfter;
    StepFacts(codec, transcript, initial, calls, k);
    var step, call, steps := transcript.steps[k], calls[k], transcript.steps[..k];
    var state, opening := StateAfter(initial, calls[..k]), NewOpening(metadata, transcript);
    var initialDigest := transcript.matchCreated.stateDigest;
    var before := C.DigestAfter(initialDigest, steps);
    StepNumbers(codec, transcript, C.OpeningRecords(transcript.header, transcript.matchCreated), k);
    OpeningLength(transcript.header, NewHeader(metadata), transcript.matchCreated);
    assert transcript.steps[..k + 1] == steps + [step];
    LastState(initial, calls, k);
    if call.response.Refused? {
      RefusedAgain(codec, recording, opening, steps, state, before, step, call);
      written := SubmitWith(codec, WORKING_DEVICE, recording, call.action, call.response).recording;
    } else {
      written := AppliedAgain(codec, recording, opening, steps, state, before, step, call);
      PreparedAgain(codec, recording.nextSequence, k + 1, before, step, state, call);
      AcceptedStepEndings(codec, recording.nextSequence, k + 1, call.action, call.response.events,
        step.result.completion.stateDigest);
      StepShape(codec, step, state, call);
    }
  }

  lemma OpeningLength(one: HeaderV1, other: HeaderV1, created: MatchCreatedV1)
    ensures |C.OpeningRecords(one, created)| == |C.OpeningRecords(other, created)| == 2
  {
  }

  lemma LastState(initial: D.GameState, calls: seq<Call>, k: nat)
    requires k < |calls|
    ensures StateAfter(initial, calls[..k + 1]) ==
            if calls[k].response.Applied? then calls[k].response.state else StateAfter(initial, calls[..k])
  {
    assert calls[..k + 1][..k] == calls[..k];
  }

  /** Up to any step that follows only states still in play, the recorder writes the transcript's own steps. */
  lemma {:induction false} WritesSteps(codec: Codec, metadata: HeaderMetadataV1, transcript: TranscriptV1,
                                       initial: D.GameState, calls: seq<Call>, first: Recording, k: nat)
    requires Verified(codec, transcript, initial, calls) && k < |calls|
    requires ReadyAt(first, initial, NewOpening(metadata, transcript), [])
    requires forall j | 0 <= j <= k :: StateAfter(initial, calls[..j]).status == D.Playing
    ensures ReadyAt(RunCalls(codec, WORKING_DEVICE, first, calls[..k]), StateAfter(initial, calls[..k]),
              NewOpening(metadata, transcript), transcript.steps[..k])
    decreases k
  {
    hide Verified, NewOpening, StateAfter, SubmitWith;
    if k == 0 {
      assert calls[..0] == [] && transcript.steps[..0] == [];
      EmptyState(initial);
    } else {
      WritesSteps(codec, metadata, transcript, initial, calls, first, k - 1);
      var before := RunCalls(codec, WORKING_DEVICE, first, calls[..k - 1]);
      var written := NextStep(codec, metadata, transcript, initial, calls, before, k - 1);
      assert calls[..k][..k - 1] == calls[..k - 1];
      InnerStepHasNoEnding(codec, transcript, initial, calls, k - 1);
      LastState(initial, calls, k - 1);
    }
  }

  lemma EmptyState(initial: D.GameState)
    ensures StateAfter(initial, []) == initial
  {
  }

  lemma InnerStepHasNoEnding(codec: Codec, transcript: TranscriptV1, initial: D.GameState, calls: seq<Call>, k: nat)
    requires Verified(codec, transcript, initial, calls) && k + 1 < |calls|
    ensures C.Endings(C.StepEvents(transcript.steps[k])) == []
  {
    hide C.Endings, C.StepEvents, C.StepsRule, CanonicalSteps, S.EndHolds, C.FinalRule, C.CompletionRule, C.CreatedRule;
    hide C.GlobalSequence, C.DigestAfter, S.StepHolds, StateAfter;
    assert transcript.steps[..|transcript.steps| - 1][k] == transcript.steps[k];
  }

  /** The recorder's own reading of the last step agrees, so it closes the stream as the transcript does. */
  lemma ClosesStream(codec: Codec, metadata: HeaderMetadataV1, transcript: TranscriptV1, initial: D.GameState,
                     calls: seq<Call>, first: Recording)
    requires Verified(codec, transcript, initial, calls)
    requires ReadyAt(first, initial, NewOpening(metadata, transcript), [])
    requires PlaysToTheEnd(initial, calls)
    ensures RunCalls(codec, WORKING_DEVICE, first, calls).sink.lines ==
            C.Flatten(transcript.(header := NewHeader(metadata)))
  {
    hide C.StepRecords, C.StepsRecords, C.TotalEvents, C.Endings, SubmitWith, C.OpeningRecords, C.GlobalSequence;
    hide C.StepsRule, S.StepsHold, CanonicalSteps, StateAfter, CompleteEndedMatch;
    var n := |calls| - 1;
    WritesSteps(codec, metadata, transcript, initial, calls, first, n);
    var before := RunCalls(codec, WORKING_DEVICE, first, calls[..n]);
    var written := NextStep(codec, metadata, transcript, initial, calls, before, n);
    LastState(initial, calls, n);
    assert calls[..n + 1] == calls && transcript.steps[..n + 1] == transcript.steps;
    var final := StateAfter(initial, calls);
    assert calls[n].response.Applied?;
    var events := calls[n].response.events;
    OutcomeInjective(final.status.outcome, EndedOutcomes(events)[0]);
    assert CheckTerminalEvents(final.status, events) == Ok(Some(final.status.outcome));
    LastStepDigest(codec, transcript, initial, calls);
    OpeningLength(transcript.header, NewHeader(metadata), transcript.matchCreated);
    CompletionAgain(codec, transcript, final, written);
    assert RunCalls(codec, WORKING_DEVICE, first, calls).sink.lines ==
           NewOpening(metadata, transcript) + C.StepsRecords(transcript.steps)
           + [FinalState(transcript.finalState), MatchCompleted(transcript.matchCompleted)];
  }

  lemma OutcomeInjective(left: D.GameOutcome, right: D.GameOutcome)
    ensures OutcomeToWire(left) == OutcomeToWire(right) <==> left == right
  {
  }

  lemma LastStepDigest(codec: Codec, transcript: TranscriptV1, initial: D.GameState, calls: seq<Call>)
    requires Verified(codec, transcript, initial, calls)
    ensures var last := transcript.steps[|transcript.steps| - 1].result;
            last.Accepted? && last.completion.stateDigest == transcript.finalState.stateDigest
  {
  }

  lemma CompletionAgain(codec: Codec, transcript: TranscriptV1, final: D.GameState, written: Recording)
    requires EncodesAll(codec) && C.GlobalSequence(C.Flatten(transcript)) && final.status.Ended?
    requires codec.project(final) == transcript.finalState.finalState
    requires |written.sink.lines| == |C.Flatten(transcript)| - 2 == written.nextSequence
    requires written.nextStep == transcript.matchCompleted.stepCount + 1
    requires written.totalEvents == transcript.matchCompleted.eventCount
    requires transcript.matchCompleted.stateDigest == transcript.finalState.stateDigest
    requires OutcomeToWire(final.status.outcome) ==
             GameOutcomeV1(transcript.matchCompleted.winner, transcript.matchCompleted.reason)
    ensures CompleteEndedMatch(codec, WORKING_DEVICE, written, final.status.outcome, codec.project(final),
              transcript.finalState.stateDigest).recording.sink.lines ==
            written.sink.lines + [FinalState(transcript.finalState), MatchCompleted(transcript.matchCompleted)]
  {
    hide Checkpoint;
    var flat := C.Flatten(transcript);
    var n := |flat| - 2;
    assert flat[n] == FinalState(transcript.finalState) && flat[n + 1] == MatchCompleted(transcript.matchCompleted);
    assert flat[n].Sequence() == n && flat[n + 1].Sequence() == n + 1;
    CheckpointWorks(codec, written, PrepareCompletion(written.nextSequence, written.nextStep - 1, written.totalEvents,
      final.status.outcome, codec.project(final), transcript.finalState.stateDigest));
  }

  lemma {:induction false} RunAppend(codec: Codec, first: Recording, left: seq<Call>, right: seq<Call>)
    ensures RunCalls(codec, WORKING_DEVICE, first, left + right) ==
            RunCalls(codec, WORKING_DEVICE, RunCalls(codec, WORKING_DEVICE, first, left), right)
    decreases |right|
  {
    hide SubmitWith;
    if right == [] {
      assert left + right == left;
    } else {
      assert (left + right)[..|left + right| - 1] == left + right[..|right| - 1];
      RunAppend(codec, first, left, right[..|right| - 1]);
    }
  }

  /** The first step that leaves the game ended or broken stops the recorder, so the stream stays short. */
  lemma StopsEarly(codec: Codec, metadata: HeaderMetadataV1, transcript: TranscriptV1, initial: D.GameState,
                   calls: seq<Call>, first: Recording, k: nat)
    requires Verified(codec, transcript, initial, calls) && k + 1 < |calls|
    requires ReadyAt(first, initial, NewOpening(metadata, transcript), [])
    requires forall j | 0 <= j <= k :: StateAfter(initial, calls[..j]).status == D.Playing
    requires StateAfter(initial, calls[..k + 1]).status != D.Playing
    ensures |RunCalls(codec, WORKING_DEVICE, first, calls).sink.lines| < |C.Flatten(transcript)|
  {
    hide C.StepRecords, C.StepsRecords, C.TotalEvents, C.Endings, SubmitWith, C.OpeningRecords, StateAfter, Verified;
    WritesSteps(codec, metadata, transcript, initial, calls, first, k);
    var before := RunCalls(codec, WORKING_DEVICE, first, calls[..k]);
    var written := NextStep(codec, metadata, transcript, initial, calls, before, k);
    InnerStepHasNoEnding(codec, transcript, initial, calls, k);
    LastState(initial, calls, k);
    assert calls[..k + 1][..k] == calls[..k];
    var stopped := RunCalls(codec, WORKING_DEVICE, first, calls[..k + 1]);
    assert stopped.lifecycle.StoppedFor? && stopped.sink == written.sink;
    assert calls == calls[..k + 1] + calls[k + 1..];
    RunAppend(codec, first, calls[..k + 1], calls[k + 1..]);
    StoppedStaysStopped(codec, WORKING_DEVICE, stopped, calls[k + 1..]);
    assert |transcript.steps| == |calls| by { VerifiedLengths(codec, transcript, initial, calls); }
    StepsPrefix(transcript.steps, k + 1);
    OpeningLength(transcript.header, NewHeader(metadata), transcript.matchCreated);
  }

  lemma VerifiedLengths(codec: Codec, transcript: TranscriptV1, initial: D.GameState, calls: seq<Call>)
    requires Verified(codec, transcript, initial, calls)
    ensures |transcript.steps| == |calls| > 0 && initial.status == D.Playing
  {
    assert codec.project(initial).status == StatusToWire(initial.status);
  }

  /** Recording the transcript's opening again, on a fresh writer that works. */
  function StartAgain(codec: Codec, metadata: HeaderMetadataV1, transcript: TranscriptV1, initial: D.GameState)
    : Result<Recording, RecordingError>
  {
    Start(codec, WORKING_DEVICE, Sink([], 0), metadata, transcript.matchCreated.requiredSets, initial).result
  }

  lemma StartsAgain(codec: Codec, metadata: HeaderMetadataV1, transcript: TranscriptV1, initial: D.GameState,
                    calls: seq<Call>)
    requires Verified(codec, transcript, initial, calls)
    ensures var started := StartAgain(codec, metadata, transcript, initial);
            started.Ok? && ReadyAt(started.value, initial, NewOpening(metadata, transcript), [])
  {
    VerifiedLengths(codec, transcript, initial, calls);
    assert C.Flatten(transcript)[1] == MatchCreated(transcript.matchCreated);
    assert C.StepsRecords([]) == [];
    var opening := NewOpening(metadata, transcript);
    assert opening + [] == opening;
  }

  /**
   Recording a verified transcript again gives the same records, up to header metadata, exactly
   when no step before the last leaves the game ended or broken.
   */
  lemma RerecordsExactlyWhenPlaying(codec: Codec, metadata: HeaderMetadataV1, transcript: TranscriptV1,
                                    initial: D.GameState, calls: seq<Call>)
    requires Verified(codec, transcript, initial, calls)
    ensures var started := StartAgain(codec, metadata, transcript, initial);
            && started.Ok?
            && (RunCalls(codec, WORKING_DEVICE, started.value, calls).sink.lines ==
                  C.Flatten(transcript.(header := NewHeader(metadata)))
                <==> PlaysToTheEnd(initial, calls))
  {
    hide Verified, NewOpening, Start, RunCalls, StateAfter, C.Flatten;
    StartsAgain(codec, metadata, transcript, initial, calls);
    VerifiedLengths(codec, transcript, initial, calls);
    var first := StartAgain(codec, metadata, transcript, initial).value;
    if PlaysToTheEnd(initial, calls) {
      ClosesStream(codec, metadata, transcript, initial, calls, first);
    } else {
      var k := FirstStop(initial, calls);
      StopsEarly(codec, metadata, transcript, initial, calls, first, k);
      FlattenLength(transcript, NewHeader(metadata));
    }
  }

  lemma FlattenLength(transcript: TranscriptV1, header: HeaderV1)
    ensures |C.Flatten(transcript.(header := header))| == |C.Flatten(transcript)|
  {
  }

  lemma FirstStop(initial: D.GameState, calls: seq<Call>) returns (k: nat)
    requires initial.status == D.Playing && !PlaysToTheEnd(initial, calls)
    ensures k + 1 < |calls|
    ensures forall j | 0 <= j <= k :: StateAfter(initial, calls[..j]).status == D.Playing
    ensures StateAfter(initial, calls[..k + 1]).status != D.Playing
  {
    k := 0;
    EmptyState(initial);
    assert calls[..0] == [];
    while k + 1 < |calls| && StateAfter(initial, calls[..k + 1]).status == D.Playing
      invariant k < |calls|
      invariant forall j | 0 <= j <= k :: StateAfter(initial, calls[..j]).status == D.Playing
    {
      k := k + 1;
    }
  }

  // ----- The engine itself -----

  /** A refusing engine leaves a game that is over where it is. */
  lemma {:induction false} StaysStopped(engine: Engine, initial: D.GameState, actions: seq<GameAction>, j: nat, k: nat)
    requires Guarded(engine) && j <= k <= |actions|
    requires StateAfter(initial, L.Script(engine, initial, actions)[..j]).status != D.Playing
    ensures StateAfter(initial, L.Script(engine, initial, actions)[..k]).status != D.Playing
    decreases k
  {
    hide L.Script, StateAfter;
    if j < k {
      StaysStopped(engine, initial, actions, j, k - 1);
      L.ScriptAt(engine, initial, actions, k - 1);
      LastState(initial, L.Script(engine, initial, actions), k - 1);
    }
  }

  /** The last step of a verified transcript is accepted, so the game was still in play before it. */
  lemma GuardedPlaysToTheEnd(codec: Codec, engine: Engine, transcript: TranscriptV1, initial: D.GameState,
                             actions: seq<GameAction>)
    requires Guarded(engine) && Verified(codec, transcript, initial, L.Script(engine, initial, actions))
    ensures PlaysToTheEnd(initial, L.Script(engine, initial, actions))
  {
    hide L.Script, StateAfter, Verified, Guarded;
    var calls := L.Script(engine, initial, actions);
    VerifiedLengths(codec, transcript, initial, calls);
    var n := |calls| - 1;
    LastStepDigest(codec, transcript, initial, calls);
    StepFacts(codec, transcript, initial, calls, n);
    StepShape(codec, transcript.steps[n], StateAfter(initial, calls[..n]), calls[n]);
    L.ScriptAt(engine, initial, actions, n);
    RefusesWhenOver(engine, StateAfter(initial, calls[..n]), actions[n]);
    forall k | 0 <= k < |calls| ensures StateAfter(initial, calls[..k]).status == D.Playing {
      if StateAfter(initial, calls[..k]).status != D.Playing {
        StaysStopped(engine, initial, actions, k, n);
        assert false;
      }
    }
  }

  lemma RefusesWhenOver(engine: Engine, state: D.GameState, action: GameAction)
    requires Guarded(engine)
    ensures engine(state, action).Applied? ==> state.status == D.Playing
  {
  }

  /**
   A transcript the parser accepted and replay verified is what the recorder writes again, up to header
   metadata, when it is given the recorded actions and asks the same engine.
   */
  lemma VerifiedTranscriptRerecords(codec: Codec, engine: Engine, library: Y.Library, metadata: HeaderMetadataV1,
                                    transcript: TranscriptV1)
    returns (initial: D.GameState, actions: seq<GameAction>)
    requires codec.KeepsStatus() && EncodesAll(codec) && Guarded(engine)
    requires C.WellFormed(codec, transcript) && CanonicalSteps(codec, transcript.steps)
    requires Y.Verify(codec, Y.Untouched(engine), library, transcript).Ok?
    ensures codec.rebuild(transcript.matchCreated.initialState, library.coreCards) == Ok(initial)
    ensures |actions| == |transcript.steps|
    ensures forall k | 0 <= k < |actions| :: codec.ActionFromWire(transcript.steps[k].action.action) == Ok(actions[k])
    ensures var started := StartAgain(codec, metadata, transcript, initial);
            && started.Ok?
            && L.RunEngine(codec, WORKING_DEVICE, engine, started.value, actions).sink.lines ==
               C.Flatten(transcript.(header := NewHeader(metadata)))
  {
    hide StartAgain, Verified, Y.Verify, C.Flatten, L.RunEngine, L.Script, PlaysToTheEnd, Guarded;
    initial, actions := VerifiedRerecordsExactly(codec, engine, library, metadata, transcript);
    GuardedPlaysToTheEnd(codec, engine, transcript, initial, actions);
  }

  /** With any engine at all, it is so exactly when the game was in play before every step. */
  lemma VerifiedRerecordsExactly(codec: Codec, engine: Engine, library: Y.Library, metadata: HeaderMetadataV1,
                                 transcript: TranscriptV1)
    returns (initial: D.GameState, actions: seq<GameAction>)
    requires codec.KeepsStatus() && EncodesAll(codec)
    requires C.WellFormed(codec, transcript) && CanonicalSteps(codec, transcript.steps)
    requires Y.Verify(codec, Y.Untouched(engine), library, transcript).Ok?
    ensures codec.rebuild(transcript.matchCreated.initialState, library.coreCards) == Ok(initial)
    ensures |actions| == |transcript.steps|
    ensures forall k | 0 <= k < |actions| :: codec.ActionFromWire(transcript.steps[k].action.action) == Ok(actions[k])
    ensures Verified(codec, transcript, initial, L.Script(engine, initial, actions))
    ensures var started := StartAgain(codec, metadata, transcript, initial);
            && started.Ok?
            && (L.RunEngine(codec, WORKING_DEVICE, engine, started.value, actions).sink.lines ==
                  C.Flatten(transcript.(header := NewHeader(metadata)))
                <==> PlaysToTheEnd(initial, L.Script(engine, initial, actions)))
  {
    hide Start, RunCalls, C.WellFormed, S.EndHolds, Y.Verify, StateAfter, PlaysToTheEnd, C.Flatten, CanonicalSteps;
    hide L.RunEngine, L.Script, S.EngineCalls, Invariant;
    S.ReplayDecidesTruth(codec, engine, library, transcript);
    initial :| S.OpeningHolds(codec, library, transcript.matchCreated, initial) &&
      S.StepsHold(codec, initial, transcript.steps, S.EngineCalls(codec, engine, initial, transcript.steps)) &&
      S.EndHolds(codec, transcript, StateAfter(initial, S.EngineCalls(codec, engine, initial, transcript.steps)),
        S.EngineCalls(codec, engine, initial, transcript.steps));
    var calls := S.EngineCalls(codec, engine, initial, transcript.steps);
    actions := seq(|calls|, k requires 0 <= k < |calls| => calls[k].action);
    forall k | 0 <= k < |calls| ensures codec.ActionFromWire(transcript.steps[k].action.action) == Ok(calls[k].action) {
      assert S.StepHolds(codec, transcript.steps[k], StateAfter(initial, calls[..k]), calls[k]);
    }
    RerecordsExactlyWhenPlaying(codec, metadata, transcript, initial, calls);
    CallsAreScripted(codec, engine, initial, transcript.steps, actions, |actions|);
    assert calls[..|actions|] == calls;
    assert L.Script(engine, initial, actions)[..|actions|] == L.Script(engine, initial, actions);
    var opening := Opening(metadata, transcript.matchCreated.requiredSets, initial);
    StartEstablishesInvariant(codec, WORKING_DEVICE, opening, 0);
    L.RunFollowsScript(codec, WORKING_DEVICE, engine, opening,
      StartAgain(codec, metadata, transcript, initial).value, actions);
  }

  lemma {:induction false} CallsAreScripted(codec: Codec, engine: Engine, initial: D.GameState,
                                            steps: seq<TranscriptStepV1>, actions: seq<GameAction>, k: nat)
    requires |actions| == |steps| && k <= |steps|
    requires forall j | 0 <= j < |steps| :: codec.ActionFromWire(steps[j].action.action) == Ok(actions[j])
    ensures |S.EngineCalls(codec, engine, initial, steps)| == |steps|
    ensures S.EngineCalls(codec, engine, initial, steps)[..k] == L.Script(engine, initial, actions)[..k]
    decreases k
  {
    var calls, script := S.EngineCalls(codec, engine, initial, steps), L.Script(engine, initial, actions);
    L.EngineCallsAt(codec, engine, initial, steps, if k == 0 then 0 else k - 1);
    if k > 0 {
      CallsAreScripted(codec, engine, initial, steps, actions, k - 1);
      L.ScriptAt(engine, initial, actions, k - 1);
      assert calls[..k] == calls[..k - 1] + [calls[k - 1]];
      assert script[..k] == script[..k - 1] + [script[k - 1]];
    }
  }
}
