/**
 What the session server answers to one event: which submissions reach the recorder and no others,
 what a refused one is told, who may sit down, and how the session ends.
 */
module SessionAnswers {
  import opened Wrappers
  import opened Records
  import opened Recorder
  import opened RecorderAnswers
  import opened RecorderRuns
  import opened Session
  import opened SessionRuns
  import D = Domain

  // ----- Which submissions reach the recorder -----

  /** A seated player's own action, under a new request id, on the newest revision unless it resigns. */
  predicate IsTimely(room: Room, session: Session, seat: Seat, requestId: nat, basedOn: nat, action: ActionV1) {
    var normal := room.codec.ActionFromWire(action);
    && session.joined == D.PerPlayer(true, true)
    && requestId > (if seat.One? then session.requests.one else session.requests.two)
    && normal.Ok? && normal.value.player == seat
    && (basedOn == session.revision || normal.value.Resign?)
  }

  /** The first thing wrong with a submission, as its sender is told. */
  function Complaint(room: Room, session: Session, seat: Seat, requestId: nat, action: ActionV1): string {
    var normal := room.codec.ActionFromWire(action);
    if requestId <= At(session.requests, seat) then "request id must increase"
    else if session.joined != D.PerPlayer(true, true) then "waiting for opponent"
    else if normal.Err? then room.describe(normal.error)
    else if normal.value.player != seat then "actor does not own this connection"
    else "stale revision"
  }

  lemma TimelyIsAdmitted(room: Room, session: Session, seat: Seat, requestId: nat, basedOn: nat, action: ActionV1)
    requires session.recording.state.status.Playing?
    ensures Judge(room, session, seat, requestId, basedOn, action) ==
            if IsTimely(room, session, seat, requestId, basedOn, action) then
              Admitted(room.codec.ActionFromWire(action).value)
            else if !At(session.joined, seat) then Ignored
            else Refusal(requestId > At(session.requests, seat), Complaint(room, session, seat, requestId, action))
  {
  }

  /** Exactly the timely submissions reach the recorder, each as it was sent and in the newest state. */
  lemma ExactlyTimelySubmissionsCount(room: Room, first: Recording, events: seq<SessionEvent>, seat: Seat,
                                      requestId: nat, basedOn: nat, action: ActionV1)
    requires first.lifecycle.Active? && first.state.status.Playing?
    ensures var before := Run(room, first, events);
            var session := before.turn.session;
            Run(room, first, events + [Submit(seat, requestId, basedOn, action)]).submissions ==
            before.submissions +
            if before.turn.ending.None? && IsTimely(room, session, seat, requestId, basedOn, action) then
              [Submission(seat, requestId, basedOn, room.codec.ActionFromWire(action).value, session.recording.state)]
            else []
  {
    RunKeeps(room, first, events);
    var longer := events + [Submit(seat, requestId, basedOn, action)];
    assert longer[..|longer| - 1] == events;
    hide Handle, RunCalls, MailRules, AllTimely, IdsGrow, Judge, IsTimely, Complaint;
    if Run(room, first, events).turn.ending.None? {
      TimelyIsAdmitted(room, Run(room, first, events).turn.session, seat, requestId, basedOn, action);
    }
  }

  /** No other event reaches the recorder. */
  lemma OnlySubmissionsCount(room: Room, first: Recording, events: seq<SessionEvent>, event: SessionEvent)
    requires !event.Submit?
    ensures Run(room, first, events + [event]).submissions == Run(room, first, events).submissions
  {
    var longer := events + [event];
    assert longer[..|longer| - 1] == events;
    hide Handle;
  }

  // ----- What a submission is told -----

  /**
   A submission that does not reach the recorder is told why, under its own id and to its sender
   alone; it uses up its id unless that was used before, and changes nothing else.
   */
  lemma RefusedAreTold(room: Room, session: Session, seat: Seat, requestId: nat, basedOn: nat, action: ActionV1)
    requires session.recording.state.status.Playing?
    requires At(session.joined, seat) && !IsTimely(room, session, seat, requestId, basedOn, action)
    ensures var Turn(after, ending) := Handle(room, session, Submit(seat, requestId, basedOn, action));
            var reached := room.delivers(session.post.attempts);
            var denied := Denied(Some(requestId), Complaint(room, session, seat, requestId, action));
            && after.recording == session.recording && after.revision == session.revision
            && after.joined == session.joined
            && after.post.attempts == session.post.attempts + 1
            && ending == (if reached then None else Some(Err(DeliveryFailed)))
            && forall any: Seat ::
                 && At(after.post.mail, any) ==
                    At(session.post.mail, any) + (if any == seat && reached then [denied] else [])
                 && At(after.requests, any) ==
                    if any == seat && requestId > At(session.requests, seat) then requestId
                    else At(session.requests, any)
  {
    hide Judge, IsTimely, Complaint, HandleAdmitted;
    TimelyIsAdmitted(room, session, seat, requestId, basedOn, action);
  }

  /** Whoever has no seat is not heard. */
  lemma UnseatedAreIgnored(room: Room, session: Session, seat: Seat, requestId: nat, basedOn: nat, action: ActionV1)
    requires !At(session.joined, seat)
    ensures Handle(room, session, Submit(seat, requestId, basedOn, action)) == Turn(session, None)
    ensures Handle(room, session, Gone(seat)) == Turn(session, None)
  {
  }

  // ----- How a session goes on -----

  /** A seated client is sent a farewell, which is the next delivery but for one to seat One before it. */
  function FarewellTo(room: Room, joined: D.PerPlayer<bool>, seat: Seat, attempts: nat, reason: string)
    : seq<Envelope>
  {
    if At(joined, seat) && room.delivers(attempts + if seat.Two? && joined.one then 1 else 0) then
      [StoppedBecause(reason)]
    else []
  }

  /** News went to the two seats in turn, and behind it a farewell when either did not arrive. */
  ghost predicate NewsThenFarewell(room: Room, attempts: nat, before: seq<Envelope>, after: seq<Envelope>, seat: Seat) {
    var both := D.PerPlayer(true, true);
    var news := if room.delivers(attempts + if seat.Two? then 1 else 0) then 1 else 0;
    var close := if room.delivers(attempts) && room.delivers(attempts + 1) then []
                 else FarewellTo(room, both, seat, attempts + 2, "connection closed");
    && |after| == |before| + news + |close|
    && before <= after && after[|before| + news..] == close
    && (news == 1 ==> after[|before|].Update? || after[|before|].Finished?)
  }

  lemma FarewellsAreSent(room: Room, joined: D.PerPlayer<bool>, post: Post, reason: string)
    ensures forall any: Seat ::
              At(StopAll(room, joined, post, reason).mail, any) ==
              At(post.mail, any) + FarewellTo(room, joined, any, post.attempts, reason)
  {
  }

  lemma NewsIsSent(room: Room, post: Post, news: News)
    ensures var both := D.PerPlayer(true, true);
            var (told, ok) := Broadcast(room, both, post, news);
            var after := if ok then told else StopAll(room, both, told, "connection closed");
            && ok == (room.delivers(post.attempts) && room.delivers(post.attempts + 1))
            && forall any: Seat ::
                 NewsThenFarewell(room, post.attempts, At(post.mail, any), At(after.mail, any), any)
  {
    var both := D.PerPlayer(true, true);
    var (told, ok) := Broadcast(room, both, post, news);
    FarewellsAreSent(room, both, told, "connection closed");
    var after := if ok then told else StopAll(room, both, told, "connection closed");
    forall any: Seat
      ensures NewsThenFarewell(room, post.attempts, At(post.mail, any), At(after.mail, any), any)
    {
      hide StopAll;
    }
  }

  lemma AdmittedMovesOn(room: Room, session: Session, seat: Seat, requestId: nat, normal: GameAction)
    requires session.joined == D.PerPlayer(true, true)
    ensures var recorded := SubmitWith(room.codec, room.device, session.recording, normal,
                              room.engine(session.recording.state, normal));
            var Turn(after, ending) := HandleAdmitted(room, session, seat, requestId, normal);
            var from := session.post.attempts;
            && after.recording == recorded.recording && after.joined == session.joined
            && after.requests == session.requests
            && match recorded.result
               case Err(error) =>
                 && after.revision == session.revision && ending == Some(Err(RecordingStoppedWith(error)))
                 && forall any: Seat ::
                      At(after.post.mail, any) ==
                      At(session.post.mail, any) + FarewellTo(room, session.joined, any, from, "recording failed")
               case Ok(_) =>
                 && after.revision == session.revision + 1
                 && ending == (if !(room.delivers(from) && room.delivers(from + 1)) then Some(Err(DeliveryFailed))
                               else if recorded.recording.state.status.Ended? then Some(Ok(()))
                               else None)
                 && forall any: Seat ::
                      NewsThenFarewell(room, from, At(session.post.mail, any), At(after.post.mail, any), any)
  {
    hide SubmitWith, StopAll, Broadcast, NewsThenFarewell, FarewellTo;
    var recorded := SubmitWith(room.codec, room.device, session.recording, normal,
      room.engine(session.recording.state, normal));
    FarewellsAreSent(room, session.joined, session.post, "recording failed");
    if recorded.result.Ok? {
      var step := recorded.result.value;
      var result := if step.AcceptedStep? then SubmissionAccepted else SubmissionRejected(room.explain(step.error));
      NewsIsSent(room, session.post, News(recorded.recording.state, if step.AcceptedStep? then step.events else [],
        session.revision + 1, Some(requestId), Some(seat), Some(result)));
    }
  }

  /**
   A submission that reaches the recorder makes the next revision unless recording it fails. The
   session ends when it does, when either client cannot be told, or when the game has ended.
   */
  lemma TimelyMovesOn(room: Room, session: Session, seat: Seat, requestId: nat, basedOn: nat, action: ActionV1)
    requires session.recording.lifecycle.Active? && session.recording.state.status.Playing?
    requires IsTimely(room, session, seat, requestId, basedOn, action)
    ensures var normal := room.codec.ActionFromWire(action).value;
            var response := room.engine(session.recording.state, normal);
            var recorded := SubmitWith(room.codec, room.device, session.recording, normal, response);
            var Turn(after, ending) := Handle(room, session, Submit(seat, requestId, basedOn, action));
            var from := session.post.attempts;
            && after.recording == recorded.recording && after.joined == session.joined
            && after.requests == With(session.requests, seat, requestId)
            && match recorded.result
               case Err(error) =>
                 && after.revision == session.revision && ending == Some(Err(RecordingStoppedWith(error)))
                 && forall any: Seat ::
                      At(after.post.mail, any) ==
                      At(session.post.mail, any) + FarewellTo(room, session.joined, any, from, "recording failed")
               case Ok(_) =>
                 && after.revision == session.revision + 1
                 && ending == (if !(room.delivers(from) && room.delivers(from + 1)) then Some(Err(DeliveryFailed))
                               else if response.Applied? && response.state.status.Ended? then Some(Ok(()))
                               else None)
                 && forall any: Seat ::
                      NewsThenFarewell(room, from, At(session.post.mail, any), At(after.post.mail, any), any)
  {
    var normal := room.codec.ActionFromWire(action).value;
    var response := room.engine(session.recording.state, normal);
    SubmitAnswers(room.codec, room.device, session.recording, normal, response);
    TimelyIsAdmitted(room, session, seat, requestId, basedOn, action);
    assert session.joined == D.PerPlayer(true, true);
    hide SubmitWith, NamesFailure, HandleAdmitted, NewsThenFarewell, FarewellTo, Judge, IsTimely, Complaint;
    AdmittedMovesOn(room, session.(requests := With(session.requests, seat, requestId)), seat, requestId, normal);
  }

  /** Whoever asks for a taken seat changes nothing, whether or not the refusal arrives. */
  lemma TakenSeatStays(room: Room, session: Session, seat: Seat)
    requires At(session.joined, seat)
    ensures var post := session.post.(attempts := session.post.attempts + 1);
            Handle(room, session, Joined(seat)) == Turn(session.(post := post), None)
  {
  }

  /**
   A free seat is taken exactly when its player was told to wait. With both seats taken the match is
   shown to both, and any delivery that fails ends the session.
   */
  lemma JoinTakesFreeSeat(room: Room, session: Session, seat: Seat)
    requires !At(session.joined, seat)
    ensures var Turn(after, ending) := Handle(room, session, Joined(seat));
            var from := session.post.attempts;
            var joined := With(session.joined, seat, room.delivers(from));
            var waiting := if room.delivers(from) then [Waiting(seat)] else [];
            && after == session.(joined := joined, post := after.post)
            && if !room.delivers(from) then
                 && ending == Some(Err(DeliveryFailed))
                 && forall any: Seat ::
                      At(after.post.mail, any) ==
                      At(session.post.mail, any) + FarewellTo(room, joined, any, from + 1, "connection closed")
               else if !Both(joined) then
                 && ending.None?
                 && after.post.mail == With(session.post.mail, seat, At(session.post.mail, seat) + [Waiting(seat)])
               else
                 && ending == (if room.delivers(from + 1) && room.delivers(from + 2) then None
                               else Some(Err(DeliveryFailed)))
                 && forall any: Seat ::
                      NewsThenFarewell(room, from + 1,
                        At(session.post.mail, any) + (if any == seat then [Waiting(seat)] else []),
                        At(after.post.mail, any), any)
  {
    hide StopAll, Broadcast, NewsThenFarewell, FarewellTo;
    var (post, ok) := Deliver(room, session.post, Some(seat), Waiting(seat));
    if ok {
      assert forall any: Seat ::
          At(post.mail, any) == At(session.post.mail, any) + (if any == seat then [Waiting(seat)] else []);
      NewsIsSent(room, post, News(session.recording.state, [], session.revision, None, None, None));
    } else {
      FarewellsAreSent(room, session.joined, post, "connection closed");
    }
  }

  /** A lost connection and an interrupt end the session, and every seated client is told. */
  lemma EndsAreTold(room: Room, session: Session, event: SessionEvent)
    requires event.Interrupted? || (event.Gone? && At(session.joined, event.seat))
    ensures var Turn(after, ending) := Handle(room, session, event);
            && ending == Some(Ok(())) && after == session.(post := after.post)
            && forall any: Seat ::
                 At(after.post.mail, any) ==
                 At(session.post.mail, any)
                 + FarewellTo(room, session.joined, any, session.post.attempts,
                     if event.Gone? then "connection closed" else "interrupted")
  {
  }

  /** A foreign version ends the session; its sender is refused first, and all are told unless that fails. */
  lemma ForeignVersionEnds(room: Room, session: Session, seat: Seat, requestId: nat)
    ensures var Turn(after, ending) := Handle(room, session, UnsupportedVersion(seat, requestId));
            var from := session.post.attempts;
            var denied := Denied(Some(requestId), "unsupported version");
            var refused := At(session.joined, seat) && !room.delivers(from);
            && ending == Some(if refused then Err(DeliveryFailed) else Ok(())) && after == session.(post := after.post)
            && forall any: Seat ::
                 At(after.post.mail, any) ==
                 At(session.post.mail, any)
                 + if refused then []
                   else
                     (if any == seat && At(session.joined, seat) then [denied] else [])
                     + FarewellTo(room, session.joined, any, from + if At(session.joined, seat) then 1 else 0,
                         "protocol error")
  {
  }

  /** A host that can no longer wait for an interrupt ends the session without a word. */
  lemma HostFailureEnds(room: Room, session: Session)
    ensures Handle(room, session, HostFailed) == Turn(session, Some(Err(InterruptFailed)))
  {
  }
}
