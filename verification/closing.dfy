/**
 The three pieces together: whatever the recorder completes, the parser reads back and replay
 verifies, also over another copy of the card pool.
 */
module Closing {
  import opened Wrappers
  import opened WireState
  import opened StateProjection
  import opened Records
  import opened Recorder
  import opened RecorderRuns
  import C = Contract
  import P = Parser
  import Y = Replay
  import S = ReplaySoundness
  import T = StateRoundTrip
  import D = Domain

  // ----- Runs of one engine -----

  function Submit(codec: Codec, device: Device, engine: Engine, recording: Recording, action: GameAction)
    : Attempt<RecordedStep>
  {
    SubmitWith(codec, device, recording, action, engine(recording.state, action))
  }

  function RunEngine(codec: Codec, device: Device, engine: Engine, recording: Recording, actions: seq<GameAction>)
    : Recording
  {
    if actions == [] then recording
    else
      Submit(codec, device, engine, RunEngine(codec, device, engine, recording, actions[..|actions| - 1]),
        actions[|actions| - 1]).recording
  }

  /** The calls the actions make when the engine is always asked about the state it last reached. */
  function Script(engine: Engine, initial: D.GameState, actions: seq<GameAction>): (calls: seq<Call>)
    ensures |calls| == |actions|
  {
    if actions == [] then []
    else
      var before, last := Script(engine, initial, actions[..|actions| - 1]), actions[|actions| - 1];
      before + [Call(last, engine(StateAfter(initial, before), last))]
  }

  lemma {:induction false} ScriptPrefix(engine: Engine, initial: D.GameState, actions: seq<GameAction>, k: nat)
    requires k <= |actions|
    ensures Script(engine, initial, actions)[..k] == Script(engine, initial, actions[..k])
    decreases |actions|
  {
    if k < |actions| {
      var shorter := actions[..|actions| - 1];
      ScriptPrefix(engine, initial, shorter, k);
      assert shorter[..k] == actions[..k];
      assert Script(engine, initial, actions)[..k] == Script(engine, initial, shorter)[..k];
    } else {
      assert actions[..k] == actions;
    }
  }

  lemma ScriptAt(engine: Engine, initial: D.GameState, actions: seq<GameAction>, k: nat)
    requires k < |actions|
    ensures var calls := Script(engine, initial, actions);
            calls[k] == Call(actions[k], engine(StateAfter(initial, calls[..k]), actions[k]))
  {
    var calls := Script(engine, initial, actions);
    ScriptPrefix(engine, initial, actions, k + 1);
    ScriptPrefix(engine, initial, actions, k);
    assert actions[..k + 1][..k] == actions[..k];
    assert calls[k] == calls[..k + 1][k];
  }

  /** While it is active the recorder asks the engine about exactly the state the engine last reached. */
  lemma {:induction false} RunFollowsScript(codec: Codec, device: Device, engine: Engine, opening: Opening,
                                            first: Recording, actions: seq<GameAction>)
    requires codec.KeepsStatus() && Invariant(codec, opening, first, [])
    ensures RunEngine(codec, device, engine, first, actions) ==
            RunCalls(codec, device, first, Script(engine, opening.initialState, actions))
    decreases |actions|
  {
    hide Invariant, SubmitWith;
    if actions != [] {
      var shorter, last := actions[..|actions| - 1], actions[|actions| - 1];
      var before := Script(engine, opening.initialState, shorter);
      var calls := Script(engine, opening.initialState, actions);
      assert calls[..|calls| - 1] == before;
      RunFollowsScript(codec, device, engine, opening, first, shorter);
      var reached := RunCalls(codec, device, first, before);
      if reached.lifecycle.Active? {
        ActiveCountersAgree(codec, device, opening, first, before);
      } else {
        StoppedIgnores(codec, device, reached, last, engine(reached.state, last), calls[|before|].response);
      }
    }
  }

  lemma StoppedIgnores(codec: Codec, device: Device, recording: Recording, action: GameAction, one: ApplyResult,
                       other: ApplyResult)
    requires recording.lifecycle.StoppedFor?
    ensures SubmitWith(codec, device, recording, action, one) == SubmitWith(codec, device, recording, action, other)
  {
  }

  // ----- Recorded, then parsed, then replayed -----

  /** The library a transcript asks for: its revisions and the cards the match was started over. */
  ghost predicate Serves(library: Y.Library, opening: Opening) {
    && (forall k | 0 <= k < |opening.requiredSets| ::
          library.SetRevision(opening.requiredSets[k].setCode) == Some(opening.requiredSets[k].revision))
    && library.coreCards.entities == opening.initialState.cards.entities
  }

  /** Replay is given the very pool the match was started over, or nothing tells the copies of a pool apart. */
  ghost predicate PoolsAgree(codec: Codec, engine: Engine, library: Y.Library, opening: Opening) {
    library.coreCards == opening.initialState.cards || (BlindToHandle(engine) && codec.HidesHandle())
  }

  lemma {:induction false} EngineCallsAt(codec: Codec, engine: Engine, state: D.GameState,
                                         steps: seq<TranscriptStepV1>, k: nat)
    requires forall j | 0 <= j < |steps| :: codec.ActionFromWire(steps[j].action.action).Ok?
    ensures |S.EngineCalls(codec, engine, state, steps)| == |steps|
    ensures k < |steps| ==>
              var calls := S.EngineCalls(codec, engine, state, steps);
              var action := codec.ActionFromWire(steps[k].action.action).value;
              calls[k] == Call(action, engine(StateAfter(state, calls[..k]), action))
    decreases |steps|
  {
    if steps != [] {
      var calls := S.EngineCalls(codec, engine, state, steps);
      var next := S.After(state, calls[0]);
      var rest := S.EngineCalls(codec, engine, next, steps[1..]);
      assert calls == [calls[0]] + rest;
      if k == 0 {
        assert calls[..0] == [];
        EngineCallsAt(codec, engine, next, steps[1..], 0);
      } else {
        EngineCallsAt(codec, engine, next, steps[1..], k - 1);
        if k < |steps| {
          assert calls[..k] == [calls[0]] + rest[..k - 1];
          S.StateAfterCons(state, calls[0], rest[..k - 1]);
        }
      }
    }
  }

  /** Replay asks the engine exactly what the recorder asked it. */
  lemma {:induction false} ReplayRepeatsCalls(codec: Codec, engine: Engine, initial: D.GameState,
                                              steps: seq<TranscriptStepV1>, actions: seq<GameAction>, k: nat)
    requires codec.RoundTrips()
    requires |steps| <= |actions| && k <= |steps|
    requires Describes(codec, initial, steps, Script(engine, initial, actions)[..|steps|])
    ensures |S.EngineCalls(codec, engine, initial, steps)| == |steps|
    ensures S.EngineCalls(codec, engine, initial, steps)[..k] == Script(engine, initial, actions)[..k]
    decreases k
  {
    hide StateAfter, Script, S.EngineCalls;
    var calls, script := S.EngineCalls(codec, engine, initial, steps), Script(engine, initial, actions);
    forall j | 0 <= j < |steps|
      ensures codec.ActionFromWire(steps[j].action.action) == Ok(actions[j])
    {
      ScriptAt(engine, initial, actions, j);
      assert StepSays(codec, steps[j], StateAfter(initial, script[..|steps|][..j]), script[..|steps|][j]);
      ActionsRoundTrip(codec, actions[j]);
    }
    EngineCallsAt(codec, engine, initial, steps, if k == 0 then 0 else k - 1);
    if k > 0 {
      ReplayRepeatsCalls(codec, engine, initial, steps, actions, k - 1);
      ScriptAt(engine, initial, actions, k - 1);
      assert calls[..k] == calls[..k - 1] + [calls[k - 1]];
      assert script[..k] == script[..k - 1] + [script[k - 1]];
    }
  }

  lemma SaidStepHolds(codec: Codec, step: TranscriptStepV1, before: D.GameState, call: Call)
    requires codec.RoundTrips() && StepSays(codec, step, before, call)
    ensures S.StepHolds(codec, step, before, call)
    ensures |C.StepEvents(step)| == |S.CallEvents(call)|
  {
    ActionsRoundTrip(codec, call.action);
    match call.response
    case Applied(_, events) =>
      forall k | 0 <= k < |events| ensures codec.EventFromWire(step.result.events[k].event) == Ok(events[k]) {
        EventsRoundTrip(codec, events[k]);
      }
    case Refused(_) =>
  }

  lemma {:induction false} EndedInWireAppend(left: seq<GameEvent>, right: seq<GameEvent>)
    ensures Y.EndedInWire(left + right) == Y.EndedInWire(left) + Y.EndedInWire(right)
  {
    if left == [] {
      assert left + right == right;
    } else {
      assert (left + right)[1..] == left[1..] + right;
      EndedInWireAppend(left[1..], right);
    }
  }

  /** The endings the parser finds in the written events are those the replayer finds in the engine's. */
  lemma {:induction false} EventEndingsAgree(codec: Codec, records: seq<EventRecordV1>, events: seq<GameEvent>)
    requires EventsSay(codec, records, events)
    ensures C.Endings(records) == Y.EndedInWire(events)
    decreases |events|
  {
    if events != [] {
      var n := |events| - 1;
      EventEndingsAgree(codec, records[..n], events[..n]);
      assert events == events[..n] + [events[n]];
      EndedInWireAppend(events[..n], [events[n]]);
      assert records[n].event == codec.EventToWire(events[n]);
    }
  }

  lemma {:induction false} EndingsSnoc(calls: seq<Call>, call: Call)
    ensures S.Endings(calls + [call]) == S.Endings(calls) + Y.EndedInWire(S.CallEvents(call))
    ensures S.EventTotal(calls + [call]) == S.EventTotal(calls) + |S.CallEvents(call)|
    decreases |calls|
  {
    if calls == [] {
      assert calls + [call] == [call];
      assert [call][1..] == [];
    } else {
      assert (calls + [call])[1..] == calls[1..] + [call];
      EndingsSnoc(calls[1..], call);
    }
  }

  lemma {:induction false} TotalsAgree(codec: Codec, initial: D.GameState, steps: seq<TranscriptStepV1>,
                                       calls: seq<Call>)
    requires Describes(codec, initial, steps, calls)
    ensures S.EventTotal(calls) == C.TotalEvents(steps)
    ensures C.NoEnding(steps) ==> S.Endings(calls) == []
    decreases |steps|
  {
    hide C.Endings, Y.EndedInWire, C.StepEvents, S.CallEvents, StateAfter, StepSays;
    if steps != [] {
      var n := |steps| - 1;
      assert forall k | 0 <= k < n :: calls[..n][..k] == calls[..k];
      TotalsAgree(codec, initial, steps[..n], calls[..n]);
      assert calls == calls[..n] + [calls[n]];
      EndingsSnoc(calls[..n], calls[n]);
      StepEndings(codec, initial, steps, calls, n);
    } else {
      assert calls == [];
    }
  }

  lemma StepEndings(codec: Codec, initial: D.GameState, steps: seq<TranscriptStepV1>, calls: seq<Call>, k: nat)
    requires Describes(codec, initial, steps, calls) && k < |steps|
    ensures C.Endings(C.StepEvents(steps[k])) == Y.EndedInWire(S.CallEvents(calls[k]))
    ensures |C.StepEvents(steps[k])| == |S.CallEvents(calls[k])|
  {
    assert StepSays(codec, steps[k], StateAfter(initial, calls[..k]), calls[k]);
    if calls[k].response.Applied? {
      EventEndingsAgree(codec, steps[k].result.events, calls[k].response.events);
    }
  }

  lemma DescribesPrefix(codec: Codec, initial: D.GameState, steps: seq<TranscriptStepV1>, calls: seq<Call>)
    requires Describes(codec, initial, steps, calls) && steps != []
    ensures var n := |steps| - 1; |calls| == n + 1 && Describes(codec, initial, steps[..n], calls[..n])
  {
    hide StepSays, StateAfter;
    var n := |steps| - 1;
    assert forall k | 0 <= k < n :: calls[..n][..k] == calls[..k];
  }

  lemma TerminalTotals(codec: Codec, initial: D.GameState, steps: seq<TranscriptStepV1>, calls: seq<Call>,
                       outcome: GameOutcomeV1)
    requires Describes(codec, initial, steps, calls) && C.TerminalRule(steps, outcome)
    ensures S.Endings(calls) == [outcome]
    ensures S.EventTotal(calls) == C.TotalEvents(steps)
  {
    hide C.Endings, C.StepEvents, S.Endings, S.EventTotal, C.TotalEvents, Y.EndedInWire, C.NoEnding, Describes,
      S.CallEvents;
    var n := |steps| - 1;
    TotalsAgree(codec, initial, steps, calls);
    DescribesPrefix(codec, initial, steps, calls);
    StepEndings(codec, initial, steps, calls, n);
    TotalsAgree(codec, initial, steps[..n], calls[..n]);
    assert calls == calls[..n] + [calls[n]];
    EndingsSnoc(calls[..n], calls[n]);
  }

  lemma CompletedEndHolds(codec: Codec, opening: Opening, lines: seq<RecordV1>, calls: seq<Call>,
                          transcript: TranscriptV1)
    requires codec.KeepsStatus()
    requires CompletedWith(codec, opening, lines, calls, transcript)
    ensures S.EndHolds(codec, transcript, StateAfter(opening.initialState, calls), calls)
  {
    hide C.GlobalSequence, C.StepsRule, C.CreatedRule, C.Flatten, C.DigestAfter, C.TerminalRule, C.TotalEvents;
    hide S.Endings, S.EventTotal, StateAfter, CreatedBy, OutcomeToWire;
    var completed := transcript.matchCompleted;
    TerminalTotals(codec, opening.initialState, transcript.steps, calls,
      GameOutcomeV1(completed.winner, completed.reason));
    var final := StateAfter(opening.initialState, calls);
    assert codec.project(final).status == StatusToWire(final.status);
  }

  lemma CompletedOpeningHolds(codec: Codec, library: Y.Library, opening: Opening, created: MatchCreatedV1)
    requires codec.RebuildsWhole(opening.initialState) && Serves(library, opening)
    requires library.coreCards == opening.initialState.cards
    requires CreatedBy(codec, opening, created)
    ensures S.OpeningHolds(codec, library, created, opening.initialState)
  {
  }

  lemma CompletedIsTrue(codec: Codec, engine: Engine, library: Y.Library, opening: Opening, lines: seq<RecordV1>,
                        actions: seq<GameAction>, n: nat, transcript: TranscriptV1)
    requires codec.KeepsStatus() && codec.RebuildsWhole(opening.initialState) && codec.RoundTrips()
    requires Serves(library, opening) && library.coreCards == opening.initialState.cards
    requires n <= |actions|
    requires CompletedWith(codec, opening, lines, Script(engine, opening.initialState, actions)[..n], transcript)
    ensures S.TrueAccount(codec, engine, library, transcript)
  {
    hide C.WellFormed, C.Flatten, CreatedBy, S.EndHolds, S.StepHolds, StepSays, S.OpeningHolds, StateAfter, Script;
    hide S.EngineCalls, Serves, Codec.RoundTrips, Codec.KeepsStatus, Codec.RebuildsWhole, C.DigestAfter;
    var initial, steps := opening.initialState, transcript.steps;
    var calls := Script(engine, initial, actions)[..n];
    ReplayRepeatsCalls(codec, engine, initial, steps, actions, n);
    assert S.EngineCalls(codec, engine, initial, steps)[..n] == S.EngineCalls(codec, engine, initial, steps);
    forall k | 0 <= k < |calls| ensures S.StepHolds(codec, steps[k], StateAfter(initial, calls[..k]), calls[k]) {
      SaidStepHolds(codec, steps[k], StateAfter(initial, calls[..k]), calls[k]);
    }
    CompletedEndHolds(codec, opening, lines, calls, transcript);
    CompletedOpeningHolds(codec, library, opening, transcript.matchCreated);
  }

  // ----- Over another copy of the pool -----

  function RepooledCall(call: Call, handle: nat): Call {
    Call(call.action, RepooledAnswer(call.response, handle))
  }

  function RepooledCalls(calls: seq<Call>, handle: nat): (r: seq<Call>)
    ensures |r| == |calls|
  {
    seq(|calls|, k requires 0 <= k < |calls| => RepooledCall(calls[k], handle))
  }

  lemma {:induction false} StateAfterRepooled(initial: D.GameState, calls: seq<Call>, handle: nat)
    ensures StateAfter(Repooled(initial, handle), RepooledCalls(calls, handle)) ==
            Repooled(StateAfter(initial, calls), handle)
    decreases |calls|
  {
    if calls != [] {
      var n := |calls| - 1;
      StateAfterRepooled(initial, calls[..n], handle);
      assert RepooledCalls(calls, handle)[..n] == RepooledCalls(calls[..n], handle);
    }
  }

  /** An engine that cannot see the handle plays the same match over either copy. */
  lemma {:induction false} ScriptRepooled(engine: Engine, initial: D.GameState, actions: seq<GameAction>, handle: nat)
    requires BlindToHandle(engine)
    ensures Script(engine, Repooled(initial, handle), actions) ==
            RepooledCalls(Script(engine, initial, actions), handle)
    decreases |actions|
  {
    hide StateAfter, Repooled, RepooledAnswer;
    if actions != [] {
      var shorter := actions[..|actions| - 1];
      ScriptRepooled(engine, initial, shorter, handle);
      StateAfterRepooled(initial, Script(engine, initial, shorter), handle);
    }
  }

  function RepooledOpening(opening: Opening, handle: nat): Opening {
    opening.(initialState := Repooled(opening.initialState, handle))
  }

  lemma DescribesRepooled(codec: Codec, initial: D.GameState, steps: seq<TranscriptStepV1>, calls: seq<Call>,
                          handle: nat)
    requires codec.HidesHandle() && Describes(codec, initial, steps, calls)
    ensures Describes(codec, Repooled(initial, handle), steps, RepooledCalls(calls, handle))
  {
    hide StateAfter, Repooled, EventsSay;
    var others := RepooledCalls(calls, handle);
    forall k | 0 <= k < |calls|
      ensures StepSays(codec, steps[k], StateAfter(Repooled(initial, handle), others[..k]), others[k])
    {
      StateAfterRepooled(initial, calls[..k], handle);
      assert others[..k] == RepooledCalls(calls[..k], handle);
      assert StepSays(codec, steps[k], StateAfter(initial, calls[..k]), calls[k]);
    }
  }

  /** The written stream tells the match over the other copy just as well. */
  lemma CompletedRepooled(codec: Codec, opening: Opening, lines: seq<RecordV1>, calls: seq<Call>,
                          transcript: TranscriptV1, handle: nat)
    requires codec.HidesHandle() && CompletedWith(codec, opening, lines, calls, transcript)
    ensures CompletedWith(codec, RepooledOpening(opening, handle), lines, RepooledCalls(calls, handle), transcript)
  {
    hide StateAfter, Repooled, C.WellFormed, C.Flatten, Describes, C.CreatedRule;
    DescribesRepooled(codec, opening.initialState, transcript.steps, calls, handle);
    StateAfterRepooled(opening.initialState, calls, handle);
  }

  lemma CompletedElsewhereIsTrue(codec: Codec, engine: Engine, library: Y.Library, opening: Opening,
                                 lines: seq<RecordV1>, actions: seq<GameAction>, n: nat, transcript: TranscriptV1)
    requires codec.KeepsStatus() && codec.RoundTrips() && codec.HidesHandle() && BlindToHandle(engine)
    requires codec.RebuildsWhole(Repooled(opening.initialState, library.coreCards.handle))
    requires Serves(library, opening)
    requires n <= |actions|
    requires CompletedWith(codec, opening, lines, Script(engine, opening.initialState, actions)[..n], transcript)
    ensures S.TrueAccount(codec, engine, library, transcript)
  {
    hide CompletedWith, Script, BlindToHandle, S.TrueAccount, Codec.RoundTrips, Codec.KeepsStatus, Codec.RebuildsWhole,
      Codec.HidesHandle;
    var handle := library.coreCards.handle;
    var script := Script(engine, opening.initialState, actions);
    CompletedRepooled(codec, opening, lines, script[..n], transcript, handle);
    ScriptRepooled(engine, opening.initialState, actions, handle);
    assert RepooledCalls(script[..n], handle) == RepooledCalls(script, handle)[..n];
    CompletedIsTrue(codec, engine, library, RepooledOpening(opening, handle), lines, actions, n, transcript);
  }

  /**
   Record, parse, replay closes: whatever the recorder carries to completion, with any writer, parses
   back to the submitted actions and passes replay against a library with the required revisions and
   the same cards: with any engine if it shares the pool, with any engine that cannot tell the copies
   of a pool apart if it was loaded on its own.
   */
  lemma RecordParseReplayCloses(codec: Codec, device: Device, engine: Engine, library: Y.Library, opening: Opening,
                                earlierCalls: nat, actions: seq<GameAction>)
    returns (n: nat, transcript: TranscriptV1)
    requires codec.KeepsStatus() && codec.RoundTrips()
    requires codec.RebuildsWhole(Repooled(opening.initialState, library.coreCards.handle))
    requires Serves(library, opening) && PoolsAgree(codec, engine, library, opening)
    requires Start(codec, device, Sink([], earlierCalls), opening.metadata, opening.requiredSets,
               opening.initialState).result.Ok?
    requires var first := Start(codec, device, Sink([], earlierCalls), opening.metadata, opening.requiredSets,
               opening.initialState).result.value;
             HasCompletion(RunEngine(codec, device, engine, first, actions).sink.lines)
    ensures var first := Start(codec, device, Sink([], earlierCalls), opening.metadata, opening.requiredSets,
              opening.initialState).result.value;
            var lines := RunEngine(codec, device, engine, first, actions).sink.lines;
            && P.FoldRecords(codec, lines) == Ok(transcript)
            && Y.Verify(codec, Y.Untouched(engine), library, transcript).Ok?
            && n <= |actions|
            && CompletedWith(codec, opening, lines, Script(engine, opening.initialState, actions)[..n], transcript)
  {
    hide Invariant, RunEngine, RunCalls, CompletedWith, S.TrueAccount, Y.Verify, P.FoldRecords, Start, BlindToHandle;
    var first := Start(codec, device, Sink([], earlierCalls), opening.metadata, opening.requiredSets,
      opening.initialState).result.value;
    StartEstablishesInvariant(codec, device, opening, earlierCalls);
    RunFollowsScript(codec, device, engine, opening, first, actions);
    n, transcript := CompletedStreamReadsBack(codec, device, opening, first,
      Script(engine, opening.initialState, actions));
    var lines := RunEngine(codec, device, engine, first, actions).sink.lines;
    if library.coreCards == opening.initialState.cards {
      CompletedIsTrue(codec, engine, library, opening, lines, actions, n, transcript);
    } else {
      CompletedElsewhereIsTrue(codec, engine, library, opening, lines, actions, n, transcript);
    }
    S.ReplayDecidesTruth(codec, engine, library, transcript);
  }

  // ----- With the real state projection -----

  /** The codec whose projection and rebuild are those of the state module. */
  function WithState(codec: Codec, usizeMax: nat): Codec {
    codec.(project := FromState, rebuild := (projection, cards) => IntoGameState(usizeMax, projection, cards))
  }

  lemma StateCodecFits(codec: Codec, usizeMax: nat, state: D.GameState)
    requires T.BasesFit(usizeMax, state.stackSegmentBases)
    ensures WithState(codec, usizeMax).KeepsStatus()
    ensures WithState(codec, usizeMax).RebuildsWhole(state) <==> T.SupportedStatus(state.status)
    ensures WithState(codec, usizeMax).RoundTrips() <==> codec.RoundTrips()
    ensures WithState(codec, usizeMax).HidesHandle()
  {
    hide FromState, IntoGameState, StatusToWire;
    T.ProjectionIsLossless(usizeMax, state);
    forall any: D.GameState ensures FromState(any).status == StatusToWire(any.status) {
      ProjectedStatus(any);
    }
    forall any: D.GameState, handle ensures FromState(Repooled(any, handle)) == FromState(any) {
      ProjectionHidesHandle(any, handle);
    }
  }

  lemma ProjectionHidesHandle(state: D.GameState, handle: nat)
    ensures FromState(Repooled(state, handle)) == FromState(state)
  {
  }

  lemma ProjectedStatus(state: D.GameState)
    ensures FromState(state).status == StatusToWire(state.status)
  {
  }

  /**
   Record, parse, replay closes over the real projection; only the body conversions, and the engine's
   blindness to which copy of the pool it plays over, stay hypotheses.
   */
  lemma PlayedMatchCloses(codec: Codec, usizeMax: nat, device: Device, engine: Engine, library: Y.Library,
                          opening: Opening, actions: seq<GameAction>)
    returns (n: nat, transcript: TranscriptV1)
    requires codec.RoundTrips() && Serves(library, opening)
    requires library.coreCards == opening.initialState.cards || BlindToHandle(engine)
    requires T.BasesFit(usizeMax, opening.initialState.stackSegmentBases)
    requires Start(WithState(codec, usizeMax), device, Sink([], 0), opening.metadata, opening.requiredSets,
               opening.initialState).result.Ok?
    requires var first := Start(WithState(codec, usizeMax), device, Sink([], 0), opening.metadata, opening.requiredSets,
               opening.initialState).result.value;
             HasCompletion(RunEngine(WithState(codec, usizeMax), device, engine, first, actions).sink.lines)
    ensures var full := WithState(codec, usizeMax);
            var first := Start(full, device, Sink([], 0), opening.metadata, opening.requiredSets,
              opening.initialState).result.value;
            var lines := RunEngine(full, device, engine, first, actions).sink.lines;
            && P.FoldRecords(full, lines) == Ok(transcript)
            && Y.Verify(full, Y.Untouched(engine), library, transcript).Ok?
            && n <= |actions|
            && CompletedWith(full, opening, lines, Script(engine, opening.initialState, actions)[..n], transcript)
  {
    hide WithState, RunEngine, CompletedWith, Y.Verify, P.FoldRecords, Script, BlindToHandle;
    StateCodecFits(codec, usizeMax, Repooled(opening.initialState, library.coreCards.handle));
    n, transcript := RecordParseReplayCloses(WithState(codec, usizeMax), device, engine, library, opening, 0, actions);
  }
}
