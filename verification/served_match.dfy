/**
 From authored cards to replay: a match opened from two resolved Decks, served to two clients under
 any interleaving of their messages, and recorded to its completion, has a record that parses and
 that replay verifies, over any library assembled from the same Sets. Whatever a client saw
 finished is such a match.
 */
module ServedMatch {
  import opened Wrappers
  import opened Records
  import opened Recorder
  import opened RecorderRuns
  import A = CardLibraries
  import C = Closing
  import D = Domain
  import K = Decks
  import P = Parser
  import R = SessionRuns
  import S = Session
  import T = StateRoundTrip
  import U = Setup
  import Y = Replay

  function Actions(submissions: seq<R.Submission>): (r: seq<GameAction>)
    ensures |r| == |submissions|
  {
    seq(|submissions|, k requires 0 <= k < |submissions| => submissions[k].action)
  }

  /** The server's recording is one run of the engine over the actions it admitted. */
  lemma {:induction false} RecordingIsEngineRun(room: S.Room, first: Recording, events: seq<S.SessionEvent>)
    ensures var chronicle := R.Run(room, first, events);
            chronicle.turn.session.recording ==
            C.RunEngine(room.codec, room.device, room.engine, first, Actions(chronicle.submissions))
    decreases |events|
  {
    if events == [] {
      assert Actions([]) == [];
    } else {
      var before, event := R.Run(room, first, events[..|events| - 1]), events[|events| - 1];
      RecordingIsEngineRun(room, first, events[..|events| - 1]);
      if before.turn.ending.None? {
        EventRuns(room, first, before, event);
      }
    }
  }

  lemma EventRuns(room: S.Room, first: Recording, chronicle: R.Chronicle, event: S.SessionEvent)
    requires chronicle.turn.ending.None?
    requires chronicle.turn.session.recording ==
             C.RunEngine(room.codec, room.device, room.engine, first, Actions(chronicle.submissions))
    ensures var after := R.Observe(room, chronicle, event);
            after.turn.session.recording ==
            C.RunEngine(room.codec, room.device, room.engine, first, Actions(after.submissions))
  {
    hide SubmitWith, S.StopAll, S.Broadcast, S.Deliver;
    var after := R.Observe(room, chronicle, event);
    var actions, longer := Actions(chronicle.submissions), Actions(after.submissions);
    var admission := R.Admission(room, chronicle.turn.session, event);
    if admission.Some? {
      assert longer == actions + [admission.value.action];
      assert longer[..|actions|] == actions;
    } else {
      assert longer == actions;
      UnadmittedKeepsRecording(room, chronicle.turn.session, event);
    }
  }

  lemma UnadmittedKeepsRecording(room: S.Room, session: S.Session, event: S.SessionEvent)
    requires R.Admission(room, session, event).None?
    ensures S.Handle(room, session, event).session.recording == session.recording
  {
    hide SubmitWith, S.StopAll, S.Broadcast, S.Deliver;
  }

  /** The records parse, and verifying what they parse to succeeds. */
  ghost predicate Replays(room: S.Room, library: Y.Library, lines: seq<RecordV1>) {
    var parsed := P.FoldRecords(room.codec, lines);
    parsed.Ok? && Y.Verify(room.codec, Y.Untouched(room.engine), library, parsed.value).Ok?
  }

  /** Starting to record on a fresh writer; the server serves only a match that starts. */
  function Began(room: S.Room, opening: Opening): Result<Recording, RecordingError> {
    Start(room.codec, room.device, Sink([], 0), opening.metadata, opening.requiredSets, opening.initialState).result
  }

  /** What is on record after some events. */
  function Lines(room: S.Room, opening: Opening, events: seq<S.SessionEvent>): seq<RecordV1> {
    match Began(room, opening)
    case Ok(first) => S.Serve(room, S.Opened(first), events).session.recording.sink.lines
    case Err(_) => []
  }

  /** Some delivery told the client in this seat that the match is finished. */
  ghost predicate SeesFinished(room: S.Room, opening: Opening, events: seq<S.SessionEvent>, seat: S.Seat) {
    var began := Began(room, opening);
    began.Ok? && R.HasFinished(S.At(S.Serve(room, S.Opened(began.value), events).session.post.mail, seat))
  }

  /** A match whose completion is on record, whether or not anyone was told, has a record that verifies. */
  lemma CompletedMatchReplays(codec: Codec, usizeMax: nat, room: S.Room, library: Y.Library, opening: Opening,
                              events: seq<S.SessionEvent>)
    requires codec.RoundTrips() && room.codec == C.WithState(codec, usizeMax)
    requires C.Serves(library, opening) && T.BasesFit(usizeMax, opening.initialState.stackSegmentBases)
    requires library.coreCards == opening.initialState.cards || BlindToHandle(room.engine)
    requires HasCompletion(Lines(room, opening, events))
    ensures Replays(room, library, Lines(room, opening, events))
  {
    hide C.WithState, C.RunEngine, C.Script, CompletedWith, Y.Verify, P.FoldRecords, S.Serve, R.Run, Start,
      BlindToHandle;
    var first := Began(room, opening).value;
    R.RunIsServe(room, first, events);
    RecordingIsEngineRun(room, first, events);
    var actions := Actions(R.Run(room, first, events).submissions);
    var n, transcript := C.PlayedMatchCloses(codec, usizeMax, room.device, room.engine, library, opening, actions);
  }

  /** A client is told that the match is finished only once its completion is on record. */
  lemma FinishedIsCompleted(room: S.Room, opening: Opening, events: seq<S.SessionEvent>, seat: S.Seat)
    requires room.codec.KeepsStatus() && SeesFinished(room, opening, events, seat)
    ensures HasCompletion(Lines(room, opening, events))
  {
    hide P.FoldRecords, S.Serve, R.HasFinished, Invariant, Start;
    StartEstablishesInvariant(room.codec, room.device, opening, 0);
    StartedIsActive(room.codec, room.device, opening);
    R.FinishedIsOnRecord(room, opening, Began(room, opening).value, events, seat);
    AcceptedHasCompletion(room.codec, Lines(room, opening, events));
  }

  lemma StartedIsActive(codec: Codec, device: Device, opening: Opening)
    ensures var started := Start(codec, device, Sink([], 0), opening.metadata, opening.requiredSets,
              opening.initialState);
            started.result.Ok? ==> started.result.value.lifecycle.Active?
  {
  }

  function LibraryOf(library: A.CardLibrary): Y.Library {
    Y.Library(library.sets, library.coreCards)
  }

  /** The state that opening a match from these Decks gives, whose bodies are shuffled in turn. */
  ghost predicate OpenedState(library: A.CardLibrary, decks: D.PerPlayer<K.Deck>, shuffler: U.Shuffler,
                              state: D.GameState) {
    var one, two := shuffler(0, decks.one.body), shuffler(1, decks.two.body);
    |one| == K.BODY_SIZE && |two| == K.BODY_SIZE && U.InitialState(library, decks, one, two) == Ok(state)
  }

  /** Every required Set is in the library, in the revision asked for. */
  ghost predicate Provides(library: A.CardLibrary, requiredSets: seq<SetRequirementV1>) {
    forall k | 0 <= k < |requiredSets| ::
      library.SetRevision(requiredSets[k].setCode) == Some(requiredSets[k].revision)
  }

  /** A library assembled from converted Sets, and the two Decks that the documents resolve to. */
  ghost predicate Prepared(library: A.CardLibrary, sets: seq<A.LoadedSet>, raw: D.PerPlayer<K.DeckDocument>,
                           decks: D.PerPlayer<K.Deck>) {
    && A.AssembledFrom(library, sets)
    && (forall loaded <- sets :: A.Converted(loaded))
    && K.Resolve(raw.one, library) == Ok(decks.one)
    && K.Resolve(raw.two, library) == Ok(decks.two)
  }

  /** Any library assembled from the same Sets will do, whichever pool it holds. */
  lemma OpenedIsServed(library: A.CardLibrary, sets: seq<A.LoadedSet>, raw: D.PerPlayer<K.DeckDocument>,
                       decks: D.PerPlayer<K.Deck>, shuffler: U.Shuffler, opening: Opening, other: A.CardLibrary)
    requires Prepared(library, sets, raw, decks) && U.Shuffles(shuffler) && A.AssembledFrom(other, sets)
    requires OpenedState(library, decks, shuffler, opening.initialState) && Provides(library, opening.requiredSets)
    ensures C.Serves(LibraryOf(other), opening)
    ensures opening.initialState.stackSegmentBases == [] && opening.initialState.cards == library.coreCards
  {
    hide A.Converted, A.UniqueKeys, A.UniqueIds, A.Indexes, K.Resolve, U.Shuffles, K.Legal, U.OpeningSide,
      U.InitialState;
    var resolved, one, two := U.OpeningNeverFails(library, sets, raw, shuffler);
    assert resolved == decks;
  }

  /**
   The whole way: for Decks resolved against a library of converted Sets, any shuffle, any interleaving
   of two clients and any writer, a match whose completion was written replays over any library
   assembled from the same Sets, unless the engine can tell their pools apart.
   */
  lemma ServedMatchReplays(codec: Codec, usizeMax: nat, room: S.Room, library: A.CardLibrary, sets: seq<A.LoadedSet>,
                           raw: D.PerPlayer<K.DeckDocument>, decks: D.PerPlayer<K.Deck>, shuffler: U.Shuffler,
                           opening: Opening, events: seq<S.SessionEvent>, other: A.CardLibrary)
    requires codec.RoundTrips() && room.codec == C.WithState(codec, usizeMax)
    requires Prepared(library, sets, raw, decks) && U.Shuffles(shuffler)
    requires OpenedState(library, decks, shuffler, opening.initialState) && Provides(library, opening.requiredSets)
    requires A.AssembledFrom(other, sets)
    requires other.coreCards == library.coreCards || BlindToHandle(room.engine)
    requires HasCompletion(Lines(room, opening, events))
    ensures Replays(room, LibraryOf(other), Lines(room, opening, events))
  {
    hide C.WithState, Replays, Lines, OpenedState, Prepared, Provides, C.Serves, U.Shuffles, A.AssembledFrom,
      Codec.RoundTrips, BlindToHandle, HasCompletion;
    OpenedIsServed(library, sets, raw, decks, shuffler, opening, other);
    CompletedMatchReplays(codec, usizeMax, room, LibraryOf(other), opening, events);
  }

  /** In particular every match that some client saw finished. */
  lemma FinishedMatchReplays(codec: Codec, usizeMax: nat, room: S.Room, library: A.CardLibrary, sets: seq<A.LoadedSet>,
                             raw: D.PerPlayer<K.DeckDocument>, decks: D.PerPlayer<K.Deck>, shuffler: U.Shuffler,
                             opening: Opening, events: seq<S.SessionEvent>, other: A.CardLibrary, seat: S.Seat)
    requires codec.RoundTrips() && room.codec == C.WithState(codec, usizeMax)
    requires Prepared(library, sets, raw, decks) && U.Shuffles(shuffler)
    requires OpenedState(library, decks, shuffler, opening.initialState) && Provides(library, opening.requiredSets)
    requires A.AssembledFrom(other, sets)
    requires other.coreCards == library.coreCards || BlindToHandle(room.engine)
    requires SeesFinished(room, opening, events, seat)
    ensures Replays(room, LibraryOf(other), Lines(room, opening, events))
  {
    hide C.WithState, Replays, Lines, SeesFinished, OpenedState, Prepared, Provides, U.Shuffles, A.AssembledFrom,
      Codec.RoundTrips, BlindToHandle, HasCompletion;
    OpenedIsServed(library, sets, raw, decks, shuffler, opening, other);
    C.StateCodecFits(codec, usizeMax, opening.initialState);
    FinishedIsCompleted(room, opening, events, seat);
    ServedMatchReplays(codec, usizeMax, room, library, sets, raw, decks, shuffler, opening, events, other);
  }
}
