/**
 What the session server keeps over every interleaving of events: the revision counts the recorded
 actions, an action only meets the state its sender was shown, request ids only grow, and each
 client sees revisions 0, 1, 2, … without a gap, with the engine's own events and its own replies.
 */
module SessionRuns {
  import opened Wrappers
  import opened Records
  import opened Recorder
  import opened RecorderAnswers
  import opened RecorderRuns
  import opened Session
  import P = Parser
  import D = Domain

  /** One action handed to the recorder: who asked, under which numbers, and the state it met. */
  datatype Submission = Submission(seat: Seat, requestId: nat, basedOn: nat, action: GameAction, state: D.GameState)

  /**
   A session with its history: the submissions that reached the recorder, and for every revision
   so far the state that it announced.
   */
  datatype Chronicle = Chronicle(turn: Turn, submissions: seq<Submission>, states: seq<D.GameState>)

  function Admission(room: Room, session: Session, event: SessionEvent): Option<Submission> {
    match event
    case Submit(seat, requestId, basedOn, action) =>
      (match Judge(room, session, seat, requestId, basedOn, action)
       case Admitted(normal) => Some(Submission(seat, requestId, basedOn, normal, session.recording.state))
       case _ => None)
    case _ => None
  }

  function Observe(room: Room, chronicle: Chronicle, event: SessionEvent): Chronicle {
    if chronicle.turn.ending.Some? then chronicle
    else
      var session := chronicle.turn.session;
      var turn := Handle(room, session, event);
      var admission := Admission(room, session, event);
      Chronicle(turn,
        chronicle.submissions + (if admission.Some? then [admission.value] else []),
        chronicle.states + (if turn.session.revision > session.revision then [turn.session.recording.state] else []))
  }

  function Run(room: Room, recording: Recording, events: seq<SessionEvent>): Chronicle {
    if events == [] then Chronicle(Turn(Opened(recording), None), [], [recording.state])
    else Observe(room, Run(room, recording, events[..|events| - 1]), events[|events| - 1])
  }

  /** The chronicle only watches: its session is the session served. */
  lemma {:induction false} RunIsServe(room: Room, recording: Recording, events: seq<SessionEvent>)
    ensures Run(room, recording, events).turn == Serve(room, Opened(recording), events)
    decreases |events|
  {
    hide Handle;
    if events != [] {
      RunIsServe(room, recording, events[..|events| - 1]);
    }
  }

  function Answered(room: Room, submissions: seq<Submission>): (r: seq<Call>)
    ensures |r| == |submissions|
  {
    seq(|submissions|, k requires 0 <= k < |submissions| =>
      Call(submissions[k].action, room.engine(submissions[k].state, submissions[k].action)))
  }

  // ----- What holds of a chronicle -----

  /** The updates among the envelopes, and the ending if it was announced, in order. */
  function Announcements(mail: seq<Envelope>): seq<Envelope> {
    if mail == [] then []
    else
      var before, last := Announcements(mail[..|mail| - 1]), mail[|mail| - 1];
      if last.Update? || last.Finished? then before + [last] else before
  }

  /** What the engine answered to a submission. */
  function AnswerTo(room: Room, submission: Submission): ApplyResult {
    room.engine(submission.state, submission.action)
  }

  /** The events behind a revision; opening the match has none, and neither has a refused action. */
  function EventsBehind(room: Room, submissions: seq<Submission>, revision: nat): seq<GameEvent>
    requires revision <= |submissions|
  {
    if revision == 0 then []
    else
      match AnswerTo(room, submissions[revision - 1])
      case Applied(_, events) => events
      case Refused(_) => []
  }

  /** The submission behind a revision, when it was this seat's own. */
  function OwnSubmission(submissions: seq<Submission>, seat: Seat, revision: nat): Option<Submission>
    requires revision <= |submissions|
  {
    if revision > 0 && submissions[revision - 1].seat == seat then Some(submissions[revision - 1]) else None
  }

  function ResultOf(room: Room, response: ApplyResult): SubmissionResult {
    match response
    case Applied(_, _) => SubmissionAccepted
    case Refused(error) => SubmissionRejected(room.explain(error))
  }

  /**
   The envelope tells this seat the revision: its own view of the state and its own notices of the
   engine's events, and the reply and result only if the seat asked for it.
   */
  ghost predicate Tells(room: Room, seat: Seat, states: seq<D.GameState>, submissions: seq<Submission>, revision: nat,
                        envelope: Envelope)
    requires revision < |states| && revision <= |submissions|
  {
    var state, own := states[revision], OwnSubmission(submissions, seat, revision);
    && (envelope.Update? || envelope.Finished?)
    && (envelope.Finished? <==> state.status.Ended?)
    && envelope.view == room.view(state, seat)
    && envelope.notices == room.notices(EventsBehind(room, submissions, revision), seat)
    && envelope.reply == (if own.Some? then Some(own.value.requestId) else None)
    && (envelope.Finished? ==> envelope.outcome == state.status.outcome)
    && (envelope.Update? ==>
          && envelope.revision == revision
          && envelope.result == if own.Some? then Some(ResultOf(room, AnswerTo(room, own.value))) else None)
  }

  ghost predicate Shown(room: Room, seat: Seat, states: seq<D.GameState>, submissions: seq<Submission>,
                        news: seq<Envelope>) {
    && |news| <= |states| <= |submissions| + 1
    && forall k | 0 <= k < |news| :: Tells(room, seat, states, submissions, k, news[k])
  }

  predicate HasFinished(mail: seq<Envelope>) {
    exists k :: 0 <= k < |mail| && mail[k].Finished?
  }

  /** A client has heard of every submission but the last, and of that too while the session goes on. */
  ghost predicate MailRule(room: Room, seat: Seat, states: seq<D.GameState>, submissions: seq<Submission>,
                           session: Session, ending: Ending) {
    var mail := At(session.post.mail, seat);
    && Shown(room, seat, states, submissions, Announcements(mail))
    && |submissions| <= |Announcements(mail)|
    && (ending.None? ==> |Announcements(mail)| == if Both(session.joined) then |states| else 0)
    && (HasFinished(mail) ==> session.recording.lifecycle == StoppedFor(AlreadyCompleted))
  }

  ghost predicate MailRules(room: Room, states: seq<D.GameState>, submissions: seq<Submission>, session: Session,
                            ending: Ending) {
    && MailRule(room, D.One, states, submissions, session, ending)
    && MailRule(room, D.Two, states, submissions, session, ending)
  }

  ghost predicate IdsGrow(submissions: seq<Submission>, requests: D.PerPlayer<nat>) {
    && (forall j, k | 0 <= j < k < |submissions| && submissions[j].seat == submissions[k].seat ::
          submissions[j].requestId < submissions[k].requestId)
    && (forall k | 0 <= k < |submissions| :: submissions[k].requestId <= At(requests, submissions[k].seat))
  }

  /** The action belongs to its seat and, unless it resigns, meets the state of the revision it names. */
  ghost predicate Timely(submission: Submission, k: nat, states: seq<D.GameState>) {
    && k < |states|
    && submission.state == states[k]
    && submission.state.status.Playing?
    && submission.action.player == submission.seat
    && (submission.action.Resign? || submission.basedOn == k)
  }

  ghost predicate AllTimely(submissions: seq<Submission>, states: seq<D.GameState>) {
    forall k | 0 <= k < |submissions| :: Timely(submissions[k], k, states)
  }

  ghost predicate Keeps(room: Room, first: Recording, chronicle: Chronicle) {
    var Turn(session, ending) := chronicle.turn;
    && session.recording == RunCalls(room.codec, room.device, first, Answered(room, chronicle.submissions))
    && |chronicle.states| == session.revision + 1
    && session.revision <= |chronicle.submissions|
    && (ending.None? ==>
          && session.recording.lifecycle.Active?
          && session.recording.state.status.Playing?
          && session.revision == |chronicle.submissions|
          && chronicle.states[session.revision] == session.recording.state)
    && (!Both(session.joined) ==> session.revision == 0)
    && AllTimely(chronicle.submissions, chronicle.states)
    && IdsGrow(chronicle.submissions, session.requests)
    && MailRules(room, chronicle.states, chronicle.submissions, session, ending)
  }

  // ----- Mail -----

  lemma AnnouncementsSnoc(mail: seq<Envelope>, envelope: Envelope)
    ensures Announcements(mail + [envelope]) ==
            if envelope.Update? || envelope.Finished? then Announcements(mail) + [envelope] else Announcements(mail)
    ensures HasFinished(mail + [envelope]) <==> HasFinished(mail) || envelope.Finished?
  {
    assert (mail + [envelope])[..|mail|] == mail;
    assert (mail + [envelope])[|mail|] == envelope;
    if HasFinished(mail) {
      var k :| 0 <= k < |mail| && mail[k].Finished?;
      assert (mail + [envelope])[k].Finished?;
    }
  }

  /** How one delivery to a seat can change that seat's mail. */
  ghost predicate Took(before: Post, after: Post, seat: Seat, envelope: Envelope, ok: bool) {
    At(after.mail, seat) == if ok then At(before.mail, seat) + [envelope] else At(before.mail, seat)
  }

  /** News no client can mistake for a game state. */
  predicate Quiet(envelope: Envelope) {
    !envelope.Update? && !envelope.Finished?
  }

  ghost predicate SameNewsAt(before: Post, after: Post, seat: Seat) {
    && Announcements(At(after.mail, seat)) == Announcements(At(before.mail, seat))
    && (HasFinished(At(after.mail, seat)) <==> HasFinished(At(before.mail, seat)))
  }

  ghost predicate SameNews(before: Post, after: Post) {
    SameNewsAt(before, after, D.One) && SameNewsAt(before, after, D.Two)
  }

  lemma QuietDelivery(room: Room, post: Post, to: Option<Seat>, envelope: Envelope)
    requires Quiet(envelope)
    ensures SameNews(post, Deliver(room, post, to, envelope).0)
  {
    hide Announcements, HasFinished;
    AnnouncementsSnoc(post.mail.one, envelope);
    AnnouncementsSnoc(post.mail.two, envelope);
  }

  lemma StopIsQuiet(room: Room, joined: D.PerPlayer<bool>, post: Post, reason: string)
    ensures SameNews(post, StopAll(room, joined, post, reason))
  {
    QuietDelivery(room, post, Some(D.One), StoppedBecause(reason));
    var first := DeliverIfSeated(room, joined, post, D.One, StoppedBecause(reason)).0;
    QuietDelivery(room, first, Some(D.Two), StoppedBecause(reason));
  }

  /** After a broadcast to both seats each has taken its own envelope or nothing. */
  lemma BroadcastDelivers(room: Room, joined: D.PerPlayer<bool>, post: Post, news: News)
    returns (took: D.PerPlayer<bool>)
    requires Both(joined)
    ensures var (after, ok) := Broadcast(room, joined, post, news);
            && Took(post, after, D.One, BroadcastEnvelope(room, news, D.One), took.one)
            && Took(post, after, D.Two, BroadcastEnvelope(room, news, D.Two), took.two)
            && ok == (took.one && took.two)
  {
    var (first, one) := DeliverIfSeated(room, joined, post, D.One, BroadcastEnvelope(room, news, D.One));
    var (second, two) := DeliverIfSeated(room, joined, first, D.Two, BroadcastEnvelope(room, news, D.Two));
    took := D.PerPlayer(one, two);
  }

  /** What has to be told of the newest state. */
  function NewsOf(room: Room, states: seq<D.GameState>, submissions: seq<Submission>): News
    requires 0 < |states| == |submissions| + 1
  {
    var revision := |submissions|;
    if submissions == [] then News(states[0], [], 0, None, None, None)
    else
      var last := submissions[revision - 1];
      News(states[revision], EventsBehind(room, submissions, revision), revision, Some(last.requestId),
        Some(last.seat), Some(ResultOf(room, AnswerTo(room, last))))
  }

  lemma EnvelopeTells(room: Room, seat: Seat, states: seq<D.GameState>, submissions: seq<Submission>)
    requires |states| == |submissions| + 1
    ensures Tells(room, seat, states, submissions, |submissions|,
              BroadcastEnvelope(room, NewsOf(room, states, submissions), seat))
  {
  }

  /** What was told of earlier revisions stays true as the match goes on. */
  lemma ShownGrows(room: Room, seat: Seat, states: seq<D.GameState>, submissions: seq<Submission>,
                   news: seq<Envelope>, moreStates: seq<D.GameState>, more: seq<Submission>)
    requires Shown(room, seat, states, submissions, news) && |states + moreStates| <= |submissions + more| + 1
    ensures Shown(room, seat, states + moreStates, submissions + more, news)
  {
    forall k | 0 <= k < |news| ensures Tells(room, seat, states + moreStates, submissions + more, k, news[k]) {
      assert Tells(room, seat, states, submissions, k, news[k]);
    }
  }

  /** A seat has been told exactly these states and no ending. */
  ghost predicate CaughtUp(room: Room, seat: Seat, states: seq<D.GameState>, submissions: seq<Submission>, post: Post) {
    var mail := At(post.mail, seat);
    && Shown(room, seat, states, submissions, Announcements(mail))
    && |Announcements(mail)| == |states| && !HasFinished(mail)
  }

  ghost predicate Told(room: Room, seat: Seat, states: seq<D.GameState>, submissions: seq<Submission>, post: Post,
                       ok: bool, ended: bool) {
    var mail := At(post.mail, seat);
    && Shown(room, seat, states, submissions, Announcements(mail))
    && |states| <= |Announcements(mail)| + 1
    && (ok ==> |Announcements(mail)| == |states|)
    && (HasFinished(mail) ==> ended)
  }

  /** A seat that was told every state but the newest takes the broadcast of the newest, or not. */
  lemma TakesNews(room: Room, seat: Seat, before: Post, after: Post, states: seq<D.GameState>,
                  submissions: seq<Submission>, ok: bool)
    requires |states| == |submissions| + 1
    requires var news := NewsOf(room, states, submissions);
             Took(before, after, seat, BroadcastEnvelope(room, news, seat), ok)
    requires CaughtUp(room, seat, states[..|submissions|], submissions, before)
    ensures Told(room, seat, states, submissions, after, ok, states[|submissions|].status.Ended?)
  {
    hide Announcements, HasFinished, BroadcastEnvelope, Tells;
    var envelope := BroadcastEnvelope(room, NewsOf(room, states, submissions), seat);
    AnnouncementsSnoc(At(before.mail, seat), envelope);
    EnvelopeTells(room, seat, states, submissions);
    EnvelopeKind(room, NewsOf(room, states, submissions), seat);
    assert states[..|submissions|] + [states[|submissions|]] == states;
    ShownGrows(room, seat, states[..|submissions|], submissions, Announcements(At(before.mail, seat)),
      [states[|submissions|]], []);
    assert submissions + [] == submissions;
  }

  lemma EnvelopeKind(room: Room, news: News, seat: Seat)
    ensures var envelope := BroadcastEnvelope(room, news, seat);
            (envelope.Update? || envelope.Finished?) && (envelope.Finished? <==> news.state.status.Ended?)
  {
  }

  /** What holds of both mailboxes after the newest state has been announced. */
  lemma NewsKeepsMail(room: Room, joined: D.PerPlayer<bool>, post: Post, states: seq<D.GameState>,
                      submissions: seq<Submission>)
    requires Both(joined) && |states| == |submissions| + 1
    requires CaughtUp(room, D.One, states[..|submissions|], submissions, post)
    requires CaughtUp(room, D.Two, states[..|submissions|], submissions, post)
    ensures var (after, ok) := Broadcast(room, joined, post, NewsOf(room, states, submissions));
            var ended := states[|submissions|].status.Ended?;
            && Told(room, D.One, states, submissions, after, ok, ended)
            && Told(room, D.Two, states, submissions, after, ok, ended)
  {
    hide Broadcast, CaughtUp, Told, NewsOf;
    var news := NewsOf(room, states, submissions);
    var took := BroadcastDelivers(room, joined, post, news);
    var after := Broadcast(room, joined, post, news).0;
    TakesNews(room, D.One, post, after, states, submissions, took.one);
    TakesNews(room, D.Two, post, after, states, submissions, took.two);
    var ok, ended := took.one && took.two, states[|submissions|].status.Ended?;
    ToldLess(room, D.One, states, submissions, after, took.one, ok, ended);
    ToldLess(room, D.Two, states, submissions, after, took.two, ok, ended);
  }

  lemma ToldLess(room: Room, seat: Seat, states: seq<D.GameState>, submissions: seq<Submission>, post: Post, ok: bool,
                 less: bool, ended: bool)
    requires Told(room, seat, states, submissions, post, ok, ended) && (less ==> ok)
    ensures Told(room, seat, states, submissions, post, less, ended)
  {
  }

  // ----- One event keeps everything -----

  /** A recorded submission leaves the recording active, or completed when the game has ended. */
  lemma RecordedLifecycle(codec: Codec, device: Device, recording: Recording, action: GameAction, response: ApplyResult)
    requires recording.lifecycle.Active? && recording.state.status.Playing?
    ensures var Attempt(after, result) := SubmitWith(codec, device, recording, action, response);
            result.Ok? ==>
              && result.value == AsStep(response)
              && if after.state.status.Ended? then after.lifecycle == StoppedFor(AlreadyCompleted)
                 else after.lifecycle.Active? && after.state.status.Playing?
  {
    hide SubmitWith;
    SubmitAnswers(codec, device, recording, action, response);
  }

  lemma AnsweredSnoc(room: Room, first: Recording, submissions: seq<Submission>, more: Submission)
    ensures Answered(room, submissions + [more]) ==
            Answered(room, submissions) + [Call(more.action, room.engine(more.state, more.action))]
    ensures RunCalls(room.codec, room.device, first, Answered(room, submissions + [more])) ==
            SubmitWith(room.codec, room.device, RunCalls(room.codec, room.device, first, Answered(room, submissions)),
              more.action, room.engine(more.state, more.action)).recording
  {
    var calls, last := Answered(room, submissions), Call(more.action, room.engine(more.state, more.action));
    assert Answered(room, submissions + [more]) == calls + [last];
    assert (calls + [last])[..|calls|] == calls;
  }

  lemma SubmissionsGrow(submissions: seq<Submission>, requests: D.PerPlayer<nat>, more: Submission)
    requires IdsGrow(submissions, requests)
    requires RequestIsNext(At(requests, more.seat), more.requestId)
    ensures IdsGrow(submissions + [more], With(requests, more.seat, more.requestId))
    ensures IdsGrow(submissions, With(requests, more.seat, more.requestId))
  {
    var longer, counted := submissions + [more], With(requests, more.seat, more.requestId);
    forall k | 0 <= k < |submissions| ensures submissions[k].requestId <= At(counted, submissions[k].seat) {
      assert submissions[k].requestId <= At(requests, submissions[k].seat);
    }
    forall j, k | 0 <= j < k < |longer| && longer[j].seat == longer[k].seat
      ensures longer[j].requestId < longer[k].requestId
    {
      assert submissions[j].requestId <= At(requests, submissions[j].seat);
    }
  }

  /** What an admitted submission adds to the chronicle. */
  lemma AdmittedObserved(room: Room, chronicle: Chronicle, seat: Seat, requestId: nat, basedOn: nat, action: ActionV1,
                         normal: GameAction)
    requires chronicle.turn.ending.None?
    requires Judge(room, chronicle.turn.session, seat, requestId, basedOn, action) == Admitted(normal)
    ensures var session := chronicle.turn.session;
            var counted := session.(requests := With(session.requests, seat, requestId));
            var turn := HandleAdmitted(room, counted, seat, requestId, normal);
            Observe(room, chronicle, Submit(seat, requestId, basedOn, action)) ==
            Chronicle(turn,
              chronicle.submissions + [Submission(seat, requestId, basedOn, normal, session.recording.state)],
              chronicle.states +
                (if turn.session.revision > session.revision then [turn.session.recording.state] else []))
  {
    hide HandleAdmitted;
  }

  /** How the session moves on, apart from its mail. */
  lemma AdmittedMoves(room: Room, session: Session, seat: Seat, requestId: nat, normal: GameAction)
    requires session.recording.lifecycle.Active? && session.recording.state.status.Playing?
    ensures var turn := HandleAdmitted(room, session, seat, requestId, normal);
            && turn.session.recording ==
               SubmitWith(room.codec, room.device, session.recording, normal,
                 room.engine(session.recording.state, normal)).recording
            && turn.session.joined == session.joined && turn.session.requests == session.requests
            && session.revision <= turn.session.revision <= session.revision + 1
            && (turn.ending.None? ==>
                  && turn.session.revision == session.revision + 1
                  && turn.session.recording.lifecycle.Active? && turn.session.recording.state.status.Playing?)
  {
    hide SubmitWith, Broadcast, StopAll;
    RecordedLifecycle(room.codec, room.device, session.recording, normal, room.engine(session.recording.state, normal));
  }

  /** What a submission has passed when it is admitted. */
  lemma AdmittedPassed(room: Room, session: Session, seat: Seat, requestId: nat, basedOn: nat, action: ActionV1,
                       normal: GameAction)
    requires Judge(room, session, seat, requestId, basedOn, action) == Admitted(normal)
    ensures RequestIsNext(At(session.requests, seat), requestId) && Both(session.joined) && normal.player == seat
    ensures AcceptsRevision(session.revision, basedOn, normal, session.recording.state.status)
  {
  }

  lemma TimelyGrows(submissions: seq<Submission>, states: seq<D.GameState>, more: Submission, extra: seq<D.GameState>)
    requires AllTimely(submissions, states) && Timely(more, |submissions|, states)
    ensures AllTimely(submissions + [more], states + extra)
  {
    forall k | 0 <= k < |submissions + [more]| ensures Timely((submissions + [more])[k], k, states + extra) {
      if k < |submissions| {
        assert Timely(submissions[k], k, states);
      }
    }
  }

  lemma AdmittedKeeps(room: Room, first: Recording, chronicle: Chronicle, seat: Seat, requestId: nat, basedOn: nat,
                      action: ActionV1, normal: GameAction)
    requires Keeps(room, first, chronicle) && chronicle.turn.ending.None?
    requires Judge(room, chronicle.turn.session, seat, requestId, basedOn, action) == Admitted(normal)
    ensures Keeps(room, first, Observe(room, chronicle, Submit(seat, requestId, basedOn, action)))
  {
    hide Observe, HandleAdmitted, SubmitWith, RunCalls, MailRules, IdsGrow, Answered, Judge, AllTimely, With, At;
    var session := chronicle.turn.session;
    var more := Submission(seat, requestId, basedOn, normal, session.recording.state);
    AdmittedPassed(room, session, seat, requestId, basedOn, action, normal);
    AdmittedObserved(room, chronicle, seat, requestId, basedOn, action, normal);
    var after := Observe(room, chronicle, Submit(seat, requestId, basedOn, action));
    AdmittedMoves(room, session.(requests := With(session.requests, seat, requestId)), seat, requestId, normal);
    AnsweredSnoc(room, first, chronicle.submissions, more);
    SubmissionsGrow(chronicle.submissions, session.requests, more);
    AdmittedMail(room, chronicle, seat, requestId, basedOn, normal);
    TimelyGrows(chronicle.submissions, chronicle.states, more,
      if after.turn.session.revision > session.revision then [after.turn.session.recording.state] else []);
  }

  lemma AdmittedMail(room: Room, chronicle: Chronicle, seat: Seat, requestId: nat, basedOn: nat, normal: GameAction)
    requires chronicle.turn.ending.None? && Both(chronicle.turn.session.joined)
    requires chronicle.turn.session.recording.lifecycle.Active? &&
             chronicle.turn.session.recording.state.status.Playing?
    requires |chronicle.states| == chronicle.turn.session.revision + 1 == |chronicle.submissions| + 1
    requires MailRules(room, chronicle.states, chronicle.submissions, chronicle.turn.session, None)
    ensures var session := chronicle.turn.session;
            var counted := session.(requests := With(session.requests, seat, requestId));
            var turn := HandleAdmitted(room, counted, seat, requestId, normal);
            var states := chronicle.states +
              (if turn.session.revision > session.revision then [turn.session.recording.state] else []);
            MailRules(room, states,
              chronicle.submissions + [Submission(seat, requestId, basedOn, normal, session.recording.state)],
              turn.session, turn.ending)
  {
    var session := chronicle.turn.session;
    var more := Submission(seat, requestId, basedOn, normal, session.recording.state);
    var response := room.engine(session.recording.state, normal);
    var attempt := SubmitWith(room.codec, room.device, session.recording, normal, response);
    RecordedLifecycle(room.codec, room.device, session.recording, normal, response);
    var numbered := session.(requests := With(session.requests, seat, requestId), recording := attempt.recording);
    hide SubmitWith, Broadcast, StopAll, MailRules;
    if attempt.result.Err? {
      UnannouncedMail(room, chronicle.states, chronicle.submissions, more, session, numbered,
        RecordingStoppedWith(attempt.result.error));
      assert chronicle.states + [] == chronicle.states;
    } else {
      NewestNews(room, chronicle.states, chronicle.submissions, more, attempt.recording.state);
      AnnouncedMail(room, chronicle.states, chronicle.submissions, more, session,
        numbered.(revision := session.revision + 1));
    }
  }

  lemma NewestNews(room: Room, states: seq<D.GameState>, submissions: seq<Submission>, more: Submission,
                   state: D.GameState)
    requires |states| == |submissions| + 1
    ensures var response := AnswerTo(room, more);
            NewsOf(room, states + [state], submissions + [more]) ==
            News(state, if response.Applied? then response.events else [], |states|, Some(more.requestId),
              Some(more.seat), Some(ResultOf(room, response)))
  {
  }

  /** A recording that fails announces nothing. */
  lemma UnannouncedMail(room: Room, states: seq<D.GameState>, submissions: seq<Submission>, more: Submission,
                        before: Session, after: Session, error: ServeError)
    requires Both(before.joined) && after.joined == before.joined && after.post == before.post
    requires |states| == |submissions| + 1
    requires MailRules(room, states, submissions, before, None) && before.recording.lifecycle.Active?
    ensures MailRules(room, states, submissions + [more],
              after.(post := StopAll(room, before.joined, before.post, "recording failed")), Some(Err(error)))
  {
    hide StopAll, Announcements, HasFinished, Shown;
    StopIsQuiet(room, before.joined, before.post, "recording failed");
    assert states + [] == states;
    ShownGrows(room, D.One, states, submissions, Announcements(before.post.mail.one), [], [more]);
    ShownGrows(room, D.Two, states, submissions, Announcements(before.post.mail.two), [], [more]);
  }

  lemma StillCaughtUp(room: Room, seat: Seat, states: seq<D.GameState>, submissions: seq<Submission>, more: Submission,
                      session: Session)
    requires |states| == |submissions| + 1 && Both(session.joined) && session.recording.lifecycle.Active?
    requires MailRule(room, seat, states, submissions, session, None)
    ensures CaughtUp(room, seat, states, submissions + [more], session.post)
  {
    hide Announcements, HasFinished, Tells;
    assert states + [] == states;
    ShownGrows(room, seat, states, submissions, Announcements(At(session.post.mail, seat)), [], [more]);
  }

  /** Announcing the next revision, whether or not every client can still be reached. */
  lemma AnnouncedMail(room: Room, states: seq<D.GameState>, submissions: seq<Submission>, more: Submission,
                      before: Session, after: Session)
    requires Both(before.joined) && after.joined == before.joined
    requires |states| == |submissions| + 1
    requires MailRules(room, states, submissions, before, None) && before.recording.lifecycle.Active?
    requires after.recording.state.status.Ended? ==> after.recording.lifecycle == StoppedFor(AlreadyCompleted)
    ensures var announced, recorded := states + [after.recording.state], submissions + [more];
            var (told, ok) := Broadcast(room, before.joined, before.post, NewsOf(room, announced, recorded));
            && MailRules(room, announced, recorded,
                 after.(post := StopAll(room, before.joined, told, "connection closed")), Some(Err(DeliveryFailed)))
            && (ok ==> MailRules(room, announced, recorded, after.(post := told),
                  if after.recording.state.status.Ended? then Some(Ok(())) else None))
  {
    hide Broadcast, StopAll, Announcements, HasFinished, BroadcastEnvelope, Shown, NewsOf, CaughtUp;
    var announced, recorded := states + [after.recording.state], submissions + [more];
    assert announced[..|recorded|] == states;
    StillCaughtUp(room, D.One, states, submissions, more, before);
    StillCaughtUp(room, D.Two, states, submissions, more, before);
    NewsKeepsMail(room, before.joined, before.post, announced, recorded);
    StopIsQuiet(room, before.joined, Broadcast(room, before.joined, before.post, NewsOf(room, announced, recorded)).0,
      "connection closed");
  }

  lemma QuietMail(room: Room, states: seq<D.GameState>, submissions: seq<Submission>, before: Session, after: Session,
                  ending: Ending)
    requires MailRules(room, states, submissions, before, None)
    requires SameNews(before.post, after.post)
    requires after.joined == before.joined || (!Both(before.joined) && !Both(after.joined))
    requires after.recording == before.recording
    ensures MailRules(room, states, submissions, after, ending)
  {
    hide Announcements, HasFinished, Shown;
  }

  /** An event that reaches neither the recorder nor the revision keeps the rest. */
  lemma UnrecordedKeeps(room: Room, first: Recording, chronicle: Chronicle, event: SessionEvent)
    requires Keeps(room, first, chronicle) && chronicle.turn.ending.None?
    requires Admission(room, chronicle.turn.session, event).None?
    requires var before, Turn(after, ending) := chronicle.turn.session, Handle(room, chronicle.turn.session, event);
             && after.recording == before.recording
             && after.revision == before.revision
             && (Both(before.joined) ==> Both(after.joined))
             && (!Both(after.joined) ==> before.revision == 0)
             && IdsGrow(chronicle.submissions, after.requests)
             && MailRules(room, chronicle.states, chronicle.submissions, after, ending)
    ensures Keeps(room, first, Observe(room, chronicle, event))
  {
    hide RunCalls, IdsGrow, Answered, Handle, Admission, MailRules, AllTimely;
    assert chronicle.submissions + [] == chronicle.submissions;
    assert chronicle.states + [] == chronicle.states;
  }

  lemma JoinKeeps(room: Room, first: Recording, chronicle: Chronicle, seat: Seat)
    requires Keeps(room, first, chronicle) && chronicle.turn.ending.None?
    ensures Keeps(room, first, Observe(room, chronicle, Joined(seat)))
  {
    JoinMail(room, chronicle, seat);
    UnrecordedKeeps(room, first, chronicle, Joined(seat));
  }

  lemma JoinMail(room: Room, chronicle: Chronicle, seat: Seat)
    requires chronicle.turn.ending.None? && chronicle.turn.session.recording.lifecycle.Active?
    requires |chronicle.states| == chronicle.turn.session.revision + 1 == |chronicle.submissions| + 1
    requires chronicle.states[chronicle.turn.session.revision] == chronicle.turn.session.recording.state
    requires !Both(chronicle.turn.session.joined) ==> chronicle.turn.session.revision == 0
    requires chronicle.turn.session.recording.state.status.Playing?
    requires MailRules(room, chronicle.states, chronicle.submissions, chronicle.turn.session, None)
    ensures var turn := HandleJoin(room, chronicle.turn.session, seat);
            MailRules(room, chronicle.states, chronicle.submissions, turn.session, turn.ending)
  {
    var session, states := chronicle.turn.session, chronicle.states;
    var turn := HandleJoin(room, session, seat);
    hide Deliver, StopAll, Broadcast, Announcements, HasFinished, BroadcastEnvelope;
    if At(session.joined, seat) || Both(session.joined) {
      QuietDelivery(room, session.post, None, Denied(None, "seat is occupied"));
    } else {
      QuietDelivery(room, session.post, Some(seat), Waiting(seat));
      var (post, ok) := Deliver(room, session.post, Some(seat), Waiting(seat));
      var joined := With(session.joined, seat, true);
      if !ok {
        StopIsQuiet(room, session.joined, post, "connection closed");
      } else if Both(joined) {
        assert states == [session.recording.state] && chronicle.submissions == [];
        assert NewsOf(room, states, []) == News(session.recording.state, [], session.revision, None, None, None);
        NewsKeepsMail(room, joined, post, states, []);
        StopIsQuiet(room, joined, Broadcast(room, joined, post, NewsOf(room, states, [])).0, "connection closed");
      }
    }
  }

  lemma RefusalKeeps(room: Room, first: Recording, chronicle: Chronicle, seat: Seat, requestId: nat, basedOn: nat,
                     action: ActionV1)
    requires Keeps(room, first, chronicle) && chronicle.turn.ending.None?
    requires !Judge(room, chronicle.turn.session, seat, requestId, basedOn, action).Admitted?
    ensures Keeps(room, first, Observe(room, chronicle, Submit(seat, requestId, basedOn, action)))
  {
    var session := chronicle.turn.session;
    var verdict := Judge(room, session, seat, requestId, basedOn, action);
    var event := Submit(seat, requestId, basedOn, action);
    if verdict.Refusal? {
      QuietDelivery(room, session.post, Some(seat), Denied(Some(requestId), verdict.reason));
      if verdict.counted {
        SubmissionsGrow(chronicle.submissions, session.requests,
          Submission(seat, requestId, basedOn, Resign(seat), session.recording.state));
      }
    }
    hide RunCalls, IdsGrow, Answered, Deliver, Announcements, HasFinished, Judge, MailRules;
    var turn := Handle(room, session, event);
    QuietMail(room, chronicle.states, chronicle.submissions, session, turn.session, turn.ending);
    UnrecordedKeeps(room, first, chronicle, event);
  }

  lemma CloseKeeps(room: Room, first: Recording, chronicle: Chronicle, event: SessionEvent)
    requires Keeps(room, first, chronicle) && chronicle.turn.ending.None?
    requires !event.Joined? && !event.Submit?
    ensures Keeps(room, first, Observe(room, chronicle, event))
  {
    var session := chronicle.turn.session;
    hide RunCalls, IdsGrow, Answered, Deliver, StopAll, Announcements, HasFinished, MailRules;
    match event {
      case UnsupportedVersion(seat, requestId) =>
        var envelope := Denied(Some(requestId), "unsupported version");
        QuietDelivery(room, session.post, Some(seat), envelope);
        StopIsQuiet(room, session.joined, DeliverIfSeated(room, session.joined, session.post, seat, envelope).0,
          "protocol error");
      case Gone(seat) => StopIsQuiet(room, session.joined, session.post, "connection closed");
      case Interrupted => StopIsQuiet(room, session.joined, session.post, "interrupted");
      case HostFailed =>
    }
    var turn := Handle(room, session, event);
    QuietMail(room, chronicle.states, chronicle.submissions, session, turn.session, turn.ending);
    UnrecordedKeeps(room, first, chronicle, event);
  }

  lemma ObserveKeeps(room: Room, first: Recording, chronicle: Chronicle, event: SessionEvent)
    requires Keeps(room, first, chronicle)
    ensures Keeps(room, first, Observe(room, chronicle, event))
  {
    if chronicle.turn.ending.None? {
      var session := chronicle.turn.session;
      hide Keeps, Observe;
      match event
      case Joined(seat) => JoinKeeps(room, first, chronicle, seat);
      case Submit(seat, requestId, basedOn, action) =>
        var verdict := Judge(room, session, seat, requestId, basedOn, action);
        if verdict.Admitted? {
          AdmittedKeeps(room, first, chronicle, seat, requestId, basedOn, action, verdict.action);
        } else {
          RefusalKeeps(room, first, chronicle, seat, requestId, basedOn, action);
        }
      case _ => CloseKeeps(room, first, chronicle, event);
    }
  }

  // ----- Over every run -----

  /** Every interleaving of events keeps the rules of the session. */
  lemma {:induction false} RunKeeps(room: Room, first: Recording, events: seq<SessionEvent>)
    requires first.lifecycle.Active? && first.state.status.Playing?
    ensures Keeps(room, first, Run(room, first, events))
    decreases |events|
  {
    if events == [] {
      assert Answered(room, []) == [];
      assert Announcements([]) == [];
    } else {
      hide Keeps, Observe;
      RunKeeps(room, first, events[..|events| - 1]);
      ObserveKeeps(room, first, Run(room, first, events[..|events| - 1]), events[|events| - 1]);
    }
  }

  /** Whenever the loop waits for an event, the revision is the number of recorded actions. */
  lemma RevisionCountsActions(room: Room, opening: Opening, first: Recording, events: seq<SessionEvent>)
    requires room.codec.KeepsStatus() && Invariant(room.codec, opening, first, []) && first.lifecycle.Active?
    requires Serve(room, Opened(first), events).ending.None?
    ensures var session := Serve(room, Opened(first), events).session;
            && session.recording.lifecycle.Active?
            && session.revision == CountActions(session.recording.sink.lines)
            && P.FoldRecords(room.codec, session.recording.sink.lines).Err?
  {
    hide Serve, Run, P.FoldRecords, CountActions, RunCalls, Invariant;
    var calls := Answered(room, Run(room, first, events).submissions);
    FirstIsPlaying(room, opening, first);
    RunKeeps(room, first, events);
    RunIsServe(room, first, events);
    ActiveCountersAgree(room.codec, room.device, opening, first, calls);
    AcceptedExactlyWhenCompleted(room.codec, room.device, opening, first, calls);
  }

  lemma FirstIsPlaying(room: Room, opening: Opening, first: Recording)
    requires room.codec.KeepsStatus() && Invariant(room.codec, opening, first, []) && first.lifecycle.Active?
    ensures first.state.status.Playing?
  {
    hide Invariant;
    ActiveCountersAgree(room.codec, room.device, opening, first, []);
  }

  /**
   No action but a resignation reaches the recorder in any state but the one its sender was shown
   under the revision the submission names.
   */
  lemma ActionsMeetShownStates(room: Room, first: Recording, events: seq<SessionEvent>, k: nat)
    requires first.lifecycle.Active? && first.state.status.Playing?
    requires k < |Run(room, first, events).submissions|
    ensures var chronicle := Run(room, first, events);
            var submission := chronicle.submissions[k];
            var updates := Announcements(At(chronicle.turn.session.post.mail, submission.seat));
            && submission.action.player == submission.seat
            && (!submission.action.Resign? ==>
                  && submission.basedOn < |chronicle.states|
                  && submission.state == chronicle.states[submission.basedOn]
                  && submission.basedOn < |updates|
                  && updates[submission.basedOn].Update?
                  && updates[submission.basedOn].revision == submission.basedOn
                  && updates[submission.basedOn].view == room.view(submission.state, submission.seat))
  {
    hide Run, Announcements, Answered, RunCalls;
    RunKeeps(room, first, events);
    assert Timely(Run(room, first, events).submissions[k], k, Run(room, first, events).states);
  }

  /** Per seat the ids that reach the recorder strictly increase, so none does so twice. */
  lemma RequestIdsIncrease(room: Room, first: Recording, events: seq<SessionEvent>, j: nat, k: nat)
    requires first.lifecycle.Active? && first.state.status.Playing?
    requires j < k < |Run(room, first, events).submissions|
    requires Run(room, first, events).submissions[j].seat == Run(room, first, events).submissions[k].seat
    ensures Run(room, first, events).submissions[j].requestId < Run(room, first, events).submissions[k].requestId
  {
    hide Run;
    RunKeeps(room, first, events);
  }

  /**
   Each client is told exactly the revisions 0, 1, 2, … with its own view of the states those
   announced, its own notices of the engine's events, and replies to its own requests alone.
   */
  lemma UpdatesHaveNoGaps(room: Room, first: Recording, events: seq<SessionEvent>, seat: Seat)
    requires first.lifecycle.Active? && first.state.status.Playing?
    ensures var chronicle := Run(room, first, events);
            var news := Announcements(At(chronicle.turn.session.post.mail, seat));
            && Shown(room, seat, chronicle.states, chronicle.submissions, news)
            && |chronicle.submissions| <= |news|
            && (chronicle.turn.ending.None? && Both(chronicle.turn.session.joined) ==>
                  |news| == chronicle.turn.session.revision + 1)
  {
    hide Run;
    RunKeeps(room, first, events);
  }

  /** A client is told that the match is finished only when the whole transcript is on record. */
  lemma FinishedIsOnRecord(room: Room, opening: Opening, first: Recording, events: seq<SessionEvent>, seat: Seat)
    requires room.codec.KeepsStatus() && Invariant(room.codec, opening, first, []) && first.lifecycle.Active?
    requires HasFinished(At(Serve(room, Opened(first), events).session.post.mail, seat))
    ensures P.FoldRecords(room.codec, Serve(room, Opened(first), events).session.recording.sink.lines).Ok?
  {
    hide Serve, Run, P.FoldRecords, RunCalls, Invariant, HasFinished, Announcements;
    var calls := Answered(room, Run(room, first, events).submissions);
    FirstIsPlaying(room, opening, first);
    RunKeeps(room, first, events);
    RunIsServe(room, first, events);
    AcceptedExactlyWhenCompleted(room.codec, room.device, opening, first, calls);
  }
}
