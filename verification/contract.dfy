/**
 The written lifecycle contract of version 1 transcripts, stated over whole transcripts, and the
 proof that the strict parser decides exactly that contract and undoes the flattener.
 */
module Contract {
  import opened Wrappers
  import opened WireState
  import opened Records
  import opened Parser

  // ----- The flattener -----

  function EventRecords(events: seq<EventRecordV1>): (r: seq<RecordV1>)
    ensures |r| == |events|
  {
    seq(|events|, k requires 0 <= k < |events| => Event(events[k]))
  }

  function StepRecords(step: TranscriptStepV1): (r: seq<RecordV1>)
    ensures |r| >= 2
  {
    match step.result
    case Accepted(events, completion) => [Action(step.action)] + EventRecords(events) + [StepCompleted(completion)]
    case Rejected(rejection) => [Action(step.action), StepRejected(rejection)]
  }

  function StepsRecords(steps: seq<TranscriptStepV1>): seq<RecordV1> {
    if steps == [] then [] else StepsRecords(steps[..|steps| - 1]) + StepRecords(steps[|steps| - 1])
  }

  function OpeningRecords(header: HeaderV1, created: MatchCreatedV1): seq<RecordV1> {
    [Header(header), MatchCreated(created)]
  }

  function Flatten(transcript: TranscriptV1): seq<RecordV1> {
    OpeningRecords(transcript.header, transcript.matchCreated) + StepsRecords(transcript.steps)
    + [FinalState(transcript.finalState), MatchCompleted(transcript.matchCompleted)]
  }

  // ----- The contract -----

  ghost predicate GlobalSequence(records: seq<RecordV1>) {
    forall k | 0 <= k < |records| :: records[k].Sequence() == k
  }

  /** The digest in force after some steps: the last accepted one, or the initial one. */
  function DigestAfter(initial: StateDigestV1, steps: seq<TranscriptStepV1>): StateDigestV1 {
    if steps == [] then initial
    else
      match steps[|steps| - 1].result
      case Accepted(_, completion) => completion.stateDigest
      case Rejected(_) => DigestAfter(initial, steps[..|steps| - 1])
  }

  ghost predicate EventRule(number: nat, events: seq<EventRecordV1>) {
    forall k | 0 <= k < |events| :: events[k].step == number && events[k].index == k
  }

  ghost predicate StepRule(number: nat, before: StateDigestV1, step: TranscriptStepV1) {
    && step.action.step == number
    && match step.result
       case Accepted(events, completion) =>
         EventRule(number, events) && completion.step == number && completion.eventCount == |events|
       case Rejected(rejection) => rejection.step == number && rejection.stateDigest == before
  }

  ghost predicate StepsRule(initial: StateDigestV1, steps: seq<TranscriptStepV1>) {
    forall k | 0 <= k < |steps| :: StepRule(k + 1, DigestAfter(initial, steps[..k]), steps[k])
  }

  /** The outcomes of the `game_ended` events, in wire order. */
  function Endings(events: seq<EventRecordV1>): (r: seq<GameOutcomeV1>)
    ensures |r| <= |events|
  {
    if events == [] then []
    else
      var before := Endings(events[..|events| - 1]);
      match events[|events| - 1].event
      case GameEndedV1(winner, reason) => before + [GameOutcomeV1(winner, reason)]
      case OtherEventV1(_) => before
  }

  function StepEvents(step: TranscriptStepV1): seq<EventRecordV1> {
    if step.result.Accepted? then step.result.events else []
  }

  ghost predicate NoEnding(steps: seq<TranscriptStepV1>) {
    forall k | 0 <= k < |steps| :: Endings(StepEvents(steps[k])) == []
  }

  /** One `game_ended` event in the whole transcript, and it is in the last step, which is accepted. */
  ghost predicate TerminalRule(steps: seq<TranscriptStepV1>, outcome: GameOutcomeV1) {
    && |steps| > 0
    && steps[|steps| - 1].result.Accepted?
    && Endings(StepEvents(steps[|steps| - 1])) == [outcome]
    && NoEnding(steps[..|steps| - 1])
  }

  function TotalEvents(steps: seq<TranscriptStepV1>): nat {
    if steps == [] then 0 else TotalEvents(steps[..|steps| - 1]) + |StepEvents(steps[|steps| - 1])|
  }

  ghost predicate CreatedRule(codec: Codec, created: MatchCreatedV1) {
    created.initialState.status == PlayingV1 && codec.digest(created.initialState) == Ok(created.stateDigest)
  }

  ghost predicate FinalRule(codec: Codec, final: FinalStateV1, outcome: GameOutcomeV1, digest: StateDigestV1) {
    && final.finalState.status == EndedV1(outcome)
    && final.stateDigest == digest
    && codec.digest(final.finalState) == Ok(digest)
  }

  ghost predicate CompletionRule(completed: MatchCompletedV1, steps: seq<TranscriptStepV1>, outcome: GameOutcomeV1,
                                 digest: StateDigestV1) {
    && completed.stepCount == |steps|
    && completed.eventCount == TotalEvents(steps)
    && completed.stateDigest == digest
    && GameOutcomeV1(completed.winner, completed.reason) == outcome
  }

  ghost predicate WellFormed(codec: Codec, transcript: TranscriptV1) {
    var outcome := GameOutcomeV1(transcript.matchCompleted.winner, transcript.matchCompleted.reason);
    var digest := DigestAfter(transcript.matchCreated.stateDigest, transcript.steps);
    && GlobalSequence(Flatten(transcript))
    && CreatedRule(codec, transcript.matchCreated)
    && StepsRule(transcript.matchCreated.stateDigest, transcript.steps)
    && TerminalRule(transcript.steps, outcome)
    && FinalRule(codec, transcript.finalState, outcome, digest)
    && CompletionRule(transcript.matchCompleted, transcript.steps, outcome, digest)
  }

  /** Some transcript that obeys every rule is written as exactly these records. */
  ghost predicate Lifecycle(codec: Codec, records: seq<RecordV1>) {
    exists transcript :: WellFormed(codec, transcript) && Flatten(transcript) == records
  }

  // ----- What the parser knows between two records -----

  ghost predicate PendingRule(number: nat, pending: PendingStep) {
    && pending.action.step == number
    && EventRule(number, pending.events)
    && Endings(pending.events) == (if pending.gameEnded.Some? then [pending.gameEnded.value] else [])
  }

  ghost predicate StepsBuilt(codec: Codec, built: Built) {
    && built.header.Some?
    && built.matchCreated.Some?
    && CreatedRule(codec, built.matchCreated.value)
    && StepsRule(built.matchCreated.value.stateDigest, built.steps)
    && built.nextStep == |built.steps| + 1
    && built.eventCount == TotalEvents(built.steps)
    && built.digest == Some(DigestAfter(built.matchCreated.value.stateDigest, built.steps))
  }

  /** The part of the contract that the records read so far have already met. */
  ghost predicate Reached(codec: Codec, progress: Progress) {
    var built := progress.built;
    match progress.phase
    case AwaitHeader => progress == START
    case AwaitMatchCreated => built.header.Some? && built == START.built.(header := built.header)
    case Ready =>
      StepsBuilt(codec, built) && NoEnding(built.steps) && built.finalState.None? && built.matchCompleted.None?
    case Pending(pending) =>
      && StepsBuilt(codec, built) && NoEnding(built.steps) && built.finalState.None? && built.matchCompleted.None?
      && PendingRule(built.nextStep, pending)
    case Terminal(outcome) =>
      && StepsBuilt(codec, built) && TerminalRule(built.steps, outcome)
      && built.finalState.None? && built.matchCompleted.None?
    case Final(outcome) =>
      && StepsBuilt(codec, built) && TerminalRule(built.steps, outcome)
      && built.finalState.Some? && FinalRule(codec, built.finalState.value, outcome, built.digest.value)
      && built.matchCompleted.None?
    case Complete =>
      && StepsBuilt(codec, built) && built.finalState.Some? && built.matchCompleted.Some?
      && var completed := built.matchCompleted.value;
         var outcome := GameOutcomeV1(completed.winner, completed.reason);
         && TerminalRule(built.steps, outcome)
         && FinalRule(codec, built.finalState.value, outcome, built.digest.value)
         && CompletionRule(completed, built.steps, outcome, built.digest.value)
  }

  /** The records behind a parser state, rebuilt from what the builder holds. */
  ghost function Consumed(codec: Codec, progress: Progress): seq<RecordV1>
    requires Reached(codec, progress)
  {
    var built := progress.built;
    match progress.phase
    case AwaitHeader => []
    case AwaitMatchCreated => [Header(built.header.value)]
    case Ready => BuiltRecords(built)
    case Pending(pending) => BuiltRecords(built) + [Action(pending.action)] + EventRecords(pending.events)
    case Terminal(_) => BuiltRecords(built)
    case Final(_) => BuiltRecords(built) + [FinalState(built.finalState.value)]
    case Complete =>
      BuiltRecords(built) + [FinalState(built.finalState.value), MatchCompleted(built.matchCompleted.value)]
  }

  ghost function BuiltRecords(built: Built): seq<RecordV1>
    requires built.header.Some? && built.matchCreated.Some?
  {
    OpeningRecords(built.header.value, built.matchCreated.value) + StepsRecords(built.steps)
  }

  // ----- Every accepted record extends what was consumed -----

  lemma StepsRuleSnoc(initial: StateDigestV1, steps: seq<TranscriptStepV1>, step: TranscriptStepV1)
    ensures StepsRule(initial, steps + [step]) <==>
            StepsRule(initial, steps) && StepRule(|steps| + 1, DigestAfter(initial, steps), step)
    ensures DigestAfter(initial, steps + [step]) ==
            if step.result.Accepted? then step.result.completion.stateDigest else DigestAfter(initial, steps)
    ensures TotalEvents(steps + [step]) == TotalEvents(steps) + |StepEvents(step)|
    ensures StepsRecords(steps + [step]) == StepsRecords(steps) + StepRecords(step)
  {
    hide StepsRule, StepRule, DigestAfter, StepRecords, StepEvents;
    var longer := steps + [step];
    assert longer[..|steps|] == steps && longer[|steps|] == step;
    RuleSnoc(initial, steps, step);
    DigestSnoc(initial, steps, step);
  }

  lemma DigestSnoc(initial: StateDigestV1, steps: seq<TranscriptStepV1>, step: TranscriptStepV1)
    ensures DigestAfter(initial, steps + [step]) ==
            if step.result.Accepted? then step.result.completion.stateDigest else DigestAfter(initial, steps)
  {
    assert (steps + [step])[..|steps|] == steps;
  }

  lemma RuleSnoc(initial: StateDigestV1, steps: seq<TranscriptStepV1>, step: TranscriptStepV1)
    ensures StepsRule(initial, steps + [step]) <==>
            StepsRule(initial, steps) && StepRule(|steps| + 1, DigestAfter(initial, steps), step)
  {
    hide StepRule, DigestAfter;
    var longer := steps + [step];
    assert longer[..|steps|] == steps;
    assert forall k | 0 <= k < |steps| :: longer[..k] == steps[..k] && longer[k] == steps[k];
    if StepsRule(initial, longer) {
      assert StepRule(|steps| + 1, DigestAfter(initial, longer[..|steps|]), longer[|steps|]);
      forall k | 0 <= k < |steps| ensures StepRule(k + 1, DigestAfter(initial, steps[..k]), steps[k]) {
        assert StepRule(k + 1, DigestAfter(initial, longer[..k]), longer[k]);
      }
    }
  }

  lemma NoEndingSnoc(steps: seq<TranscriptStepV1>, step: TranscriptStepV1)
    ensures NoEnding(steps + [step]) <==> NoEnding(steps) && Endings(StepEvents(step)) == []
    ensures (steps + [step])[..|steps|] == steps
  {
    var longer := steps + [step];
    if NoEnding(longer) {
      assert longer[|steps|] == step;
      forall k | 0 <= k < |steps| ensures Endings(StepEvents(steps[k])) == [] {
        assert longer[k] == steps[k];
      }
    }
  }

  lemma EventSnoc(events: seq<EventRecordV1>, event: EventRecordV1)
    ensures EventRecords(events + [event]) == EventRecords(events) + [Event(event)]
    ensures Endings(events + [event]) ==
            Endings(events) + match event.event
                              case GameEndedV1(winner, reason) => [GameOutcomeV1(winner, reason)]
                              case OtherEventV1(_) => []
  {
    assert (events + [event])[..|events|] == events;
  }

  lemma PushAccepted(codec: Codec, progress: Progress, line: nat, record: RecordV1)
    requires Reached(codec, progress) && progress.phase.Pending? && record.StepCompleted?
    requires Advance(codec, progress, line, record).Ok?
    ensures var next := Advance(codec, progress, line, record).value;
            Reached(codec, next) && Consumed(codec, next) == Consumed(codec, progress) + [record]
  {
    hide Endings, EventRecords, DigestAfter, TotalEvents, StepsRecords, EventRule, CreatedRule, StepsRule, NoEnding;
    var built, pending := progress.built, progress.phase.pending;
    var next := Advance(codec, progress, line, record).value;
    var step := TranscriptStepV1(pending.action, Accepted(pending.events, record.completion));
    var initial := built.matchCreated.value.stateDigest;
    StepsRuleSnoc(initial, built.steps, step);
    NoEndingSnoc(built.steps, step);
    assert StepRule(|built.steps| + 1, DigestAfter(initial, built.steps), step);
    assert StepsBuilt(codec, next.built);
    assert StepEvents(step) == pending.events;
    assert next.built.steps[|next.built.steps| - 1] == step;
    assert Consumed(codec, progress) + [record] == BuiltRecords(built) + StepRecords(step);
  }

  lemma PushRejected(codec: Codec, progress: Progress, line: nat, record: RecordV1)
    requires Reached(codec, progress) && progress.phase.Pending? && record.StepRejected?
    requires Advance(codec, progress, line, record).Ok?
    ensures var next := Advance(codec, progress, line, record).value;
            Reached(codec, next) && Consumed(codec, next) == Consumed(codec, progress) + [record]
  {
    hide DigestAfter, TotalEvents, StepsRecords, EventRule;
    var built, pending := progress.built, progress.phase.pending;
    var next := Advance(codec, progress, line, record).value;
    var step := TranscriptStepV1(pending.action, Rejected(record.rejection));
    var initial := built.matchCreated.value.stateDigest;
    StepsRuleSnoc(initial, built.steps, step);
    NoEndingSnoc(built.steps, step);
    assert StepRule(|built.steps| + 1, DigestAfter(initial, built.steps), step);
    assert StepsBuilt(codec, next.built);
    assert EventRecords(pending.events) == [];
    assert Consumed(codec, progress) + [record] == BuiltRecords(built) + StepRecords(step);
  }

  lemma PushEvent(codec: Codec, progress: Progress, line: nat, record: RecordV1)
    requires Reached(codec, progress) && progress.phase.Pending? && record.Event?
    requires Advance(codec, progress, line, record).Ok?
    ensures var next := Advance(codec, progress, line, record).value;
            Reached(codec, next) && Consumed(codec, next) == Consumed(codec, progress) + [record]
  {
    hide Endings, EventRecords, StepsRule, CreatedRule, NoEnding, StepsRecords;
    var pending := progress.phase.pending;
    EventSnoc(pending.events, record.event);
    assert Consumed(codec, progress) + [record] ==
           BuiltRecords(progress.built) + [Action(pending.action)] + (EventRecords(pending.events) + [record]);
  }

  lemma AdvanceExtends(codec: Codec, progress: Progress, line: nat, record: RecordV1)
    requires Reached(codec, progress)
    requires Advance(codec, progress, line, record).Ok?
    ensures var next := Advance(codec, progress, line, record).value;
            Reached(codec, next) && Consumed(codec, next) == Consumed(codec, progress) + [record]
  {
    match progress.phase
    case Pending(_) =>
      if record.Event? {
        PushEvent(codec, progress, line, record);
      } else if record.StepCompleted? {
        PushAccepted(codec, progress, line, record);
      } else {
        PushRejected(codec, progress, line, record);
      }
    case AwaitMatchCreated =>
      OpeningBuilt(codec, progress, line, record);
    case Ready =>
      ActionOpens(codec, progress, line, record);
    case Terminal(_) =>
      hide StepsBuilt, TerminalRule, StepsRecords, OpeningRecords;
    case Final(_) =>
      hide StepsBuilt, TerminalRule, StepsRecords, OpeningRecords;
      CompletionCloses(codec, progress, line, record);
    case _ =>
  }

  lemma OpeningBuilt(codec: Codec, progress: Progress, line: nat, record: RecordV1)
    requires Reached(codec, progress) && progress.phase.AwaitMatchCreated?
    requires Advance(codec, progress, line, record).Ok?
    ensures var next := Advance(codec, progress, line, record).value;
            Reached(codec, next) && Consumed(codec, next) == Consumed(codec, progress) + [record]
  {
    var next := Advance(codec, progress, line, record).value;
    assert Consumed(codec, next) == OpeningRecords(progress.built.header.value, record.created) + [];
  }

  lemma ActionOpens(codec: Codec, progress: Progress, line: nat, record: RecordV1)
    requires Reached(codec, progress) && progress.phase.Ready?
    requires Advance(codec, progress, line, record).Ok?
    ensures var next := Advance(codec, progress, line, record).value;
            Reached(codec, next) && Consumed(codec, next) == Consumed(codec, progress) + [record]
  {
    hide StepsBuilt, StepsRecords, NoEnding;
    assert EventRecords([]) == [];
  }

  lemma CompletionCloses(codec: Codec, progress: Progress, line: nat, record: RecordV1)
    requires Reached(codec, progress) && progress.phase.Final?
    requires Advance(codec, progress, line, record).Ok?
    ensures var next := Advance(codec, progress, line, record).value;
            Reached(codec, next) && Consumed(codec, next) == Consumed(codec, progress) + [record]
  {
    hide StepsRule, CreatedRule, TerminalRule, FinalRule, StepsRecords, OpeningRecords;
    var final := FinalState(progress.built.finalState.value);
    assert [final] + [record] == [final, record];
    assert BuiltRecords(progress.built) + [final] + [record] == BuiltRecords(progress.built) + ([final] + [record]);
  }

  lemma {:induction false} FoldExtends(codec: Codec, progress: Progress, expected: nat, records: seq<RecordV1>)
    requires Reached(codec, progress) && |Consumed(codec, progress)| == expected
    requires GlobalSequence(Consumed(codec, progress))
    requires FoldFrom(codec, progress, expected, records).Ok?
    ensures var end := FoldFrom(codec, progress, expected, records).value;
            && Reached(codec, end)
            && Consumed(codec, end) == Consumed(codec, progress) + records
            && GlobalSequence(Consumed(codec, end))
    decreases |records|
  {
    hide Advance, Reached, Consumed;
    if records == [] {
      assert Consumed(codec, progress) + records == Consumed(codec, progress);
    } else {
      AdvanceExtends(codec, progress, expected + 1, records[0]);
      var next := Advance(codec, progress, expected + 1, records[0]).value;
      FoldExtends(codec, next, expected + 1, records[1..]);
      assert Consumed(codec, progress) + [records[0]] + records[1..] == Consumed(codec, progress) + records;
    }
  }

  /** What the parser accepts obeys the contract and flattens back to the very records it read. */
  lemma ParserIsSound(codec: Codec, records: seq<RecordV1>)
    requires FoldRecords(codec, records).Ok?
    ensures WellFormed(codec, FoldRecords(codec, records).value)
    ensures Flatten(FoldRecords(codec, records).value) == records
  {
    FoldExtends(codec, START, 0, records);
    var progress := FoldFrom(codec, START, 0, records).value;
    var transcript := FoldRecords(codec, records).value;
    assert Consumed(codec, progress) == records;
    assert Flatten(transcript) == Consumed(codec, progress);
  }

  // ----- Every record sequence that obeys the contract is accepted -----

  lemma GlobalSequencePart(left: seq<RecordV1>, middle: seq<RecordV1>, right: seq<RecordV1>)
    requires GlobalSequence(left + middle + right)
    ensures GlobalSequence(left + middle)
    ensures forall k | 0 <= k < |middle| :: middle[k].Sequence() == |left| + k
  {
    var whole := left + middle + right;
    forall k | 0 <= k < |middle| ensures middle[k].Sequence() == |left| + k {
      assert whole[|left| + k] == middle[k];
    }
    forall k | 0 <= k < |left + middle| ensures (left + middle)[k].Sequence() == k {
      assert whole[k] == (left + middle)[k];
    }
  }

  predicate NumberedFrom(expected: nat, records: seq<RecordV1>) {
    forall k | 0 <= k < |records| :: records[k].Sequence() == expected + k
  }

  /** The events of one step are read one by one into the pending step. */
  lemma {:induction false} FoldEvents(codec: Codec, built: Built, pending: PendingStep, expected: nat,
                                      events: seq<EventRecordV1>)
    requires pending.events == [] && pending.gameEnded.None?
    requires NumberedFrom(expected, EventRecords(events)) && EventRule(pending.action.step, events)
    requires |Endings(events)| <= 1
    ensures FoldFrom(codec, Progress(Pending(pending), built), expected, EventRecords(events)) ==
            Ok(Progress(Pending(PendingStep(pending.action, events,
              if Endings(events) == [] then None else Some(Endings(events)[0]))), built))
    decreases |events|
  {
    if events != [] {
      var before, last := events[..|events| - 1], events[|events| - 1];
      assert events == before + [last];
      EventSnoc(before, last);
      NumberedPrefix(expected, events);
      EventRuleParts(pending.action.step, before, last);
      hide EventRecords, Endings, FoldFrom, EventRule, NumberedFrom, AdvanceNumbered;
      FoldEvents(codec, built, pending, expected, before);
      FoldAppend(codec, Progress(Pending(pending), built), expected, EventRecords(before), [Event(last)]);
      var middle := FoldFrom(codec, Progress(Pending(pending), built), expected, EventRecords(before)).value;
      FoldOne(codec, middle, expected + |before|, Event(last));
      AdvanceLastEvent(codec, built, pending, expected + |before|, before, last);
    }
  }

  lemma EventRuleParts(number: nat, before: seq<EventRecordV1>, last: EventRecordV1)
    requires EventRule(number, before + [last])
    ensures EventRule(number, before) && last.step == number && last.index == |before|
  {
    var events := before + [last];
    assert events[|before|] == last;
    assert forall k | 0 <= k < |before| :: events[k] == before[k];
  }

  lemma AdvanceLastEvent(codec: Codec, built: Built, pending: PendingStep, expected: nat, before: seq<EventRecordV1>,
                         last: EventRecordV1)
    requires last.sequence == expected && last.step == pending.action.step && last.index == |before|
    requires |Endings(before + [last])| <= 1
    ensures var read := PendingStep(pending.action, before,
              if Endings(before) == [] then None else Some(Endings(before)[0]));
            var after := PendingStep(pending.action, before + [last],
              if Endings(before + [last]) == [] then None else Some(Endings(before + [last])[0]));
            AdvanceNumbered(codec, Progress(Pending(read), built), expected, Event(last)) ==
            Ok(Progress(Pending(after), built))
  {
    EventSnoc(before, last);
    hide EventRecords, Endings;
  }

  lemma NumberedPrefix(expected: nat, events: seq<EventRecordV1>)
    requires events != [] && NumberedFrom(expected, EventRecords(events))
    ensures var n := |events| - 1;
            NumberedFrom(expected, EventRecords(events[..n])) && events[n].sequence == expected + n
  {
    var n := |events| - 1;
    assert forall k | 0 <= k < n :: EventRecords(events)[k] == EventRecords(events[..n])[k];
    assert EventRecords(events)[n] == Event(events[n]);
  }

  ghost function AfterStep(built: Built, step: TranscriptStepV1): Progress {
    var built' := built.(
      steps := built.steps + [step],
      nextStep := built.nextStep + 1,
      eventCount := built.eventCount + |StepEvents(step)|,
      digest := if step.result.Accepted? then Some(step.result.completion.stateDigest) else built.digest);
    var endings := Endings(StepEvents(step));
    Progress(if endings == [] then Ready else Terminal(endings[0]), built')
  }

  function LastRecord(step: TranscriptStepV1): RecordV1 {
    match step.result
    case Accepted(_, completion) => StepCompleted(completion)
    case Rejected(rejection) => StepRejected(rejection)
  }

  lemma StepRecordsSplit(step: TranscriptStepV1)
    ensures StepRecords(step) == [Action(step.action)] + (EventRecords(StepEvents(step)) + [LastRecord(step)])
  {
  }

  lemma StepNumbers(expected: nat, step: TranscriptStepV1)
    requires NumberedFrom(expected, StepRecords(step))
    ensures step.action.sequence == expected
    ensures NumberedFrom(expected + 1, EventRecords(StepEvents(step)))
    ensures LastRecord(step).Sequence() == expected + 1 + |StepEvents(step)|
  {
    var events := StepEvents(step);
    var body := EventRecords(events) + [LastRecord(step)];
    StepRecordsSplit(step);
    assert StepRecords(step)[0] == Action(step.action);
    assert forall k | 0 <= k < |body| :: StepRecords(step)[k + 1] == body[k];
    assert forall k | 0 <= k < |events| :: EventRecords(events)[k] == body[k];
    assert body[|events|] == LastRecord(step);
  }

  lemma AdvanceAction(codec: Codec, built: Built, expected: nat, action: ActionRecordV1)
    requires action.sequence == expected && action.step == built.nextStep
    ensures AdvanceNumbered(codec, Progress(Ready, built), expected, Action(action)) ==
            Ok(Progress(Pending(PendingStep(action, [], None)), built))
  {
  }

  lemma AdvanceLast(codec: Codec, built: Built, expected: nat, step: TranscriptStepV1)
    requires built.digest.Some? && StepRule(built.nextStep, built.digest.value, step)
    requires LastRecord(step).Sequence() == expected
    ensures var endings := Endings(StepEvents(step));
            var pending := PendingStep(step.action, StepEvents(step), if endings == [] then None else Some(endings[0]));
            AdvanceNumbered(codec, Progress(Pending(pending), built), expected, LastRecord(step)) ==
            Ok(AfterStep(built, step))
  {
    hide EventRule;
    if step.result.Rejected? {
      assert Endings([]) == [];
    }
    assert TranscriptStepV1(step.action, step.result) == step;
  }

  lemma FoldStep(codec: Codec, built: Built, expected: nat, step: TranscriptStepV1)
    requires built.digest.Some? && StepRule(built.nextStep, built.digest.value, step)
    requires NumberedFrom(expected, StepRecords(step))
    requires |Endings(StepEvents(step))| <= 1
    ensures FoldFrom(codec, Progress(Ready, built), expected, StepRecords(step)) == Ok(AfterStep(built, step))
  {
    var pending := PendingStep(step.action, [], None);
    var started := Progress(Pending(pending), built);
    var events := StepEvents(step);
    assert EventRule(step.action.step, events);
    assert step.action.step == built.nextStep;
    StepRecordsSplit(step);
    StepNumbers(expected, step);
    hide StepRecords, FoldFrom, Endings, EventRule, NumberedFrom, EventRecords, AdvanceNumbered, AfterStep,
      StepEvents, StepRule;
    FoldAppend(codec, Progress(Ready, built), expected, [Action(step.action)],
      EventRecords(events) + [LastRecord(step)]);
    FoldOne(codec, Progress(Ready, built), expected, Action(step.action));
    AdvanceAction(codec, built, expected, step.action);
    FoldAppend(codec, started, expected + 1, EventRecords(events), [LastRecord(step)]);
    FoldEvents(codec, built, pending, expected + 1, events);
    var read := FoldFrom(codec, started, expected + 1, EventRecords(events)).value;
    FoldOne(codec, read, expected + 1 + |events|, LastRecord(step));
    AdvanceLast(codec, built, expected + 1 + |events|, step);
  }

  ghost function OpenedWith(header: HeaderV1, created: MatchCreatedV1, steps: seq<TranscriptStepV1>): Built {
    Built(Some(header), Some(created), steps, None, None, |steps| + 1, TotalEvents(steps),
      Some(DigestAfter(created.stateDigest, steps)))
  }

  lemma FoldOpening(codec: Codec, header: HeaderV1, created: MatchCreatedV1)
    requires GlobalSequence(OpeningRecords(header, created)) && CreatedRule(codec, created)
    ensures FoldFrom(codec, START, 0, OpeningRecords(header, created)) ==
            Ok(Progress(Ready, OpenedWith(header, created, [])))
  {
    var records := OpeningRecords(header, created);
    assert records[0].Sequence() == 0 && records[1].Sequence() == 1;
    assert records == [Header(header)] + [MatchCreated(created)];
    FoldAppend(codec, START, 0, [Header(header)], [MatchCreated(created)]);
    FoldOne(codec, START, 0, Header(header));
    var named := FoldFrom(codec, START, 0, [Header(header)]).value;
    FoldOne(codec, named, 1, MatchCreated(created));
  }

  lemma FoldNoSteps(codec: Codec, header: HeaderV1, created: MatchCreatedV1)
    requires CreatedRule(codec, created) && GlobalSequence(OpeningRecords(header, created) + StepsRecords([]))
    ensures FoldFrom(codec, START, 0, OpeningRecords(header, created) + StepsRecords([])) ==
            Ok(Progress(Ready, OpenedWith(header, created, [])))
  {
    hide FoldFrom, OpeningRecords, CreatedRule;
    var opening := OpeningRecords(header, created);
    assert opening + StepsRecords([]) == opening;
    FoldOpening(codec, header, created);
  }

  /** Any run of steps that obeys the rules and has not ended the game leaves the parser ready for more. */
  lemma {:induction false} FoldSteps(codec: Codec, header: HeaderV1, created: MatchCreatedV1,
                                     steps: seq<TranscriptStepV1>)
    requires CreatedRule(codec, created) && StepsRule(created.stateDigest, steps) && NoEnding(steps)
    requires GlobalSequence(OpeningRecords(header, created) + StepsRecords(steps))
    ensures FoldFrom(codec, START, 0, OpeningRecords(header, created) + StepsRecords(steps)) ==
            Ok(Progress(Ready, OpenedWith(header, created, steps)))
    decreases |steps|, 1
  {
    hide FoldFrom, OpeningRecords, CreatedRule, StepRule, StepsRule, NoEnding, Endings, StepRecords, StepsRecords;
    if steps == [] {
      FoldNoSteps(codec, header, created);
    } else {
      var before, last := steps[..|steps| - 1], steps[|steps| - 1];
      assert steps == before + [last];
      StepsRuleSnoc(created.stateDigest, before, last);
      NoEndingSnoc(before, last);
      FoldLastStep(codec, header, created, before, last);
    }
  }

  lemma FoldLastStep(codec: Codec, header: HeaderV1, created: MatchCreatedV1, before: seq<TranscriptStepV1>,
                     last: TranscriptStepV1)
    requires CreatedRule(codec, created) && StepsRule(created.stateDigest, before + [last]) && NoEnding(before)
    requires |Endings(StepEvents(last))| <= 1
    requires GlobalSequence(OpeningRecords(header, created) + StepsRecords(before + [last]))
    ensures var built := OpenedWith(header, created, before + [last]);
            var endings := Endings(StepEvents(last));
            FoldFrom(codec, START, 0, OpeningRecords(header, created) + StepsRecords(before + [last])) ==
            Ok(Progress(if endings == [] then Ready else Terminal(endings[0]), built))
    decreases |before| + 1, 0
  {
    hide FoldFrom, OpeningRecords, CreatedRule, StepRecords, Endings, StepsRecords, StepRule, StepsRule, NoEnding,
      EventRule;
    var opening := OpeningRecords(header, created);
    var earlier := opening + StepsRecords(before);
    StepsRuleSnoc(created.stateDigest, before, last);
    assert opening + StepsRecords(before + [last]) == earlier + StepRecords(last);
    assert earlier + StepRecords(last) == earlier + StepRecords(last) + [];
    GlobalSequencePart(earlier, StepRecords(last), []);
    assert GlobalSequence(earlier) by {
      assert forall k | 0 <= k < |earlier| :: (earlier + StepRecords(last))[k] == earlier[k];
    }
    FoldSteps(codec, header, created, before);
    FoldAppend(codec, START, 0, earlier, StepRecords(last));
    FoldStep(codec, OpenedWith(header, created, before), |earlier|, last);
  }

  /** Whatever obeys the contract is accepted, and parsing it gives back the transcript it was written from. */
  lemma ParserIsComplete(codec: Codec, transcript: TranscriptV1)
    requires WellFormed(codec, transcript)
    ensures FoldRecords(codec, Flatten(transcript)) == Ok(transcript)
  {
    hide FoldFrom, OpeningRecords, CreatedRule, StepsRule, StepsRecords, Endings, FinalRule;
    var header, created, steps := transcript.header, transcript.matchCreated, transcript.steps;
    var before, last := steps[..|steps| - 1], steps[|steps| - 1];
    assert steps == before + [last];
    var body := OpeningRecords(header, created) + StepsRecords(steps);
    var ending := [FinalState(transcript.finalState), MatchCompleted(transcript.matchCompleted)];
    assert Flatten(transcript) == body + ending;
    assert body + ending == body + ending + [];
    GlobalSequencePart(body, ending, []);
    assert GlobalSequence(body) by {
      assert forall k | 0 <= k < |body| :: (body + ending)[k] == body[k];
    }
    FoldLastStep(codec, header, created, before, last);
    FoldAppend(codec, START, 0, body, ending);
    var terminal := FoldFrom(codec, START, 0, body).value;
    FoldEnding(codec, terminal, |body|, transcript);
  }

  lemma AdvanceFinal(codec: Codec, terminal: Progress, expected: nat, transcript: TranscriptV1)
    requires WellFormed(codec, transcript)
    requires terminal.phase ==
             Terminal(GameOutcomeV1(transcript.matchCompleted.winner, transcript.matchCompleted.reason))
    requires terminal.built == OpenedWith(transcript.header, transcript.matchCreated, transcript.steps)
    requires transcript.finalState.sequence == expected
    ensures AdvanceNumbered(codec, terminal, expected, FinalState(transcript.finalState)) ==
            Ok(Progress(Final(terminal.phase.outcome), terminal.built.(finalState := Some(transcript.finalState))))
  {
    hide GlobalSequence, CreatedRule, StepsRule, TerminalRule, Flatten;
  }

  lemma AdvanceCompleted(codec: Codec, closed: Progress, expected: nat, transcript: TranscriptV1)
    requires WellFormed(codec, transcript)
    requires closed.phase ==
             Final(GameOutcomeV1(transcript.matchCompleted.winner, transcript.matchCompleted.reason))
    requires closed.built == OpenedWith(transcript.header, transcript.matchCreated, transcript.steps)
                             .(finalState := Some(transcript.finalState))
    requires transcript.matchCompleted.sequence == expected
    ensures AdvanceNumbered(codec, closed, expected, MatchCompleted(transcript.matchCompleted)) ==
            Ok(Progress(Complete, closed.built.(matchCompleted := Some(transcript.matchCompleted))))
  {
    hide GlobalSequence, CreatedRule, StepsRule, TerminalRule, FinalRule, Flatten;
  }

  lemma FoldEnding(codec: Codec, terminal: Progress, expected: nat, transcript: TranscriptV1)
    requires WellFormed(codec, transcript)
    requires terminal.phase ==
             Terminal(GameOutcomeV1(transcript.matchCompleted.winner, transcript.matchCompleted.reason))
    requires terminal.built == OpenedWith(transcript.header, transcript.matchCreated, transcript.steps)
    requires NumberedFrom(expected, [FinalState(transcript.finalState), MatchCompleted(transcript.matchCompleted)])
    ensures FoldFrom(codec, terminal, expected,
              [FinalState(transcript.finalState), MatchCompleted(transcript.matchCompleted)]) ==
            Ok(Progress(Complete, terminal.built.(finalState := Some(transcript.finalState),
              matchCompleted := Some(transcript.matchCompleted))))
  {
    hide FoldFrom, AdvanceNumbered, WellFormed, OpenedWith;
    var final, completed := FinalState(transcript.finalState), MatchCompleted(transcript.matchCompleted);
    assert [final, completed][0] == final && [final, completed][1] == completed;
    assert [final, completed] == [final] + [completed];
    FoldAppend(codec, terminal, expected, [final], [completed]);
    FoldOne(codec, terminal, expected, final);
    AdvanceFinal(codec, terminal, expected, transcript);
    var closed := FoldFrom(codec, terminal, expected, [final]).value;
    FoldOne(codec, closed, expected + 1, completed);
    AdvanceCompleted(codec, closed, expected + 1, transcript);
  }

  /** The parser decides the written contract. */
  lemma ParserDecidesContract(codec: Codec, records: seq<RecordV1>)
    ensures FoldRecords(codec, records).Ok? <==> Lifecycle(codec, records)
  {
    if FoldRecords(codec, records).Ok? {
      ParserIsSound(codec, records);
    }
    if Lifecycle(codec, records) {
      var transcript :| WellFormed(codec, transcript) && Flatten(transcript) == records;
      ParserIsComplete(codec, transcript);
    }
  }

  // ----- Prefixes -----

  /** A transcript cut short anywhere is reported as incomplete, never as some other fault. */
  lemma ProperPrefixIsIncomplete(codec: Codec, records: seq<RecordV1>, cut: nat)
    requires FoldRecords(codec, records).Ok? && cut < |records|
    ensures FoldRecords(codec, records[..cut]).Err?
    ensures FoldRecords(codec, records[..cut]).error.kind.Lifecycle?
    ensures FoldRecords(codec, records[..cut]).error.kind.error.Incomplete?
  {
    assert records == records[..cut] + records[cut..];
    FoldAppend(codec, START, 0, records[..cut], records[cut..]);
    var middle := FoldFrom(codec, START, 0, records[..cut]).value;
    assert !middle.phase.Complete?;
  }

  /** After `match_completed` the parser accepts nothing more. */
  lemma NothingAfterCompletion(codec: Codec, progress: Progress, expected: nat, record: RecordV1, rest: seq<RecordV1>)
    requires record.MatchCompleted? && rest != []
    ensures FoldFrom(codec, progress, expected, [record] + rest).Err?
  {
    FoldAppend(codec, progress, expected, [record], rest);
    FoldOne(codec, progress, expected, record);
  }

  /** An accepted transcript ends with its only `match_completed` record. */
  lemma CompletionIsLast(codec: Codec, records: seq<RecordV1>, k: nat)
    requires FoldRecords(codec, records).Ok? && k < |records|
    ensures records[k].MatchCompleted? <==> k == |records| - 1
  {
    hide FoldFrom, WellFormed;
    ParserIsSound(codec, records);
    if records[k].MatchCompleted? && k < |records| - 1 {
      assert records == records[..k] + ([records[k]] + records[k + 1..]);
      FoldAppend(codec, START, 0, records[..k], [records[k]] + records[k + 1..]);
      var before := FoldFrom(codec, START, 0, records[..k]).value;
      NothingAfterCompletion(codec, before, k, records[k], records[k + 1..]);
    }
  }
}
