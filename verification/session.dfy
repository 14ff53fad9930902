/**
 The two-seat session server: one event at a time it joins clients, checks submissions against the
 request ids and the revision, records them and broadcasts the result. The functions say what each
 event does to a session as a value; `ServeSession` is the event loop itself, proved to do that.
 */
module Session {
  import opened Wrappers
  import opened Records
  import opened Recorder
  import D = Domain

  type Seat = D.PlayerId

  type PlayerView(==,!new)
  type Notices(==,!new)

  datatype SubmissionResult = SubmissionAccepted | SubmissionRejected(reason: string)

  /** What the server sends to one client. */
  datatype Envelope =
    | Waiting(seat: Seat)
    | Update(revision: nat, view: PlayerView, notices: Notices, reply: Option<nat>, result: Option<SubmissionResult>)
    | Finished(outcome: D.GameOutcome, view: PlayerView, notices: Notices, reply: Option<nat>)
    | StoppedBecause(reason: string)
    | Denied(requestId: Option<nat>, reason: string)

  /** What reaches the event loop: frames of the clients, lost connections and failures of the host. */
  datatype SessionEvent =
    | Joined(seat: Seat)
    | Submit(seat: Seat, requestId: nat, basedOnRevision: nat, action: ActionV1)
    | UnsupportedVersion(seat: Seat, requestId: nat)
    | Gone(seat: Seat)
    | Interrupted
    | HostFailed

  datatype ServeError = RecordingStoppedWith(error: RecordingError) | DeliveryFailed | InterruptFailed

  type Ending = Option<Result<(), ServeError>>

  /** Everything around the loop: the match, the recording device, the deliveries and the renderings. */
  datatype Room = Room(
    codec: Codec,
    engine: Engine,
    device: Device,
    delivers: nat -> bool,
    view: (D.GameState, Seat) -> PlayerView,
    notices: (seq<GameEvent>, Seat) -> Notices,
    describe: WireConversionError -> string,
    explain: ActionError -> string)

  /** What has reached each seated client, in order, and how many deliveries were tried. */
  datatype Post = Post(mail: D.PerPlayer<seq<Envelope>>, attempts: nat)

  datatype Session = Session(
    joined: D.PerPlayer<bool>,
    revision: nat,
    requests: D.PerPlayer<nat>,
    recording: Recording,
    post: Post)

  datatype Turn = Turn(session: Session, ending: Ending)

  function At<T>(values: D.PerPlayer<T>, seat: Seat): T {
    match seat
    case One => values.one
    case Two => values.two
  }

  function With<T>(values: D.PerPlayer<T>, seat: Seat, value: T): D.PerPlayer<T> {
    match seat
    case One => values.(one := value)
    case Two => values.(two := value)
  }

  predicate Both(joined: D.PerPlayer<bool>) {
    joined.one && joined.two
  }

  // ----- Deliveries -----

  /** One delivery; a client that was never admitted has no mail in the session. */
  function Deliver(room: Room, post: Post, to: Option<Seat>, envelope: Envelope): (Post, bool) {
    var ok := room.delivers(post.attempts);
    var mail := if ok && to.Some? then With(post.mail, to.value, At(post.mail, to.value) + [envelope]) else post.mail;
    (Post(mail, post.attempts + 1), ok)
  }

  /** Delivers to a seat if somebody sits there. */
  function DeliverIfSeated(room: Room, joined: D.PerPlayer<bool>, post: Post, seat: Seat, envelope: Envelope)
    : (Post, bool)
  {
    if At(joined, seat) then Deliver(room, post, Some(seat), envelope) else (post, true)
  }

  /** Tells every seated client why the session ends, whether or not that reaches them. */
  function StopAll(room: Room, joined: D.PerPlayer<bool>, post: Post, reason: string): Post {
    var first := DeliverIfSeated(room, joined, post, D.One, StoppedBecause(reason)).0;
    DeliverIfSeated(room, joined, first, D.Two, StoppedBecause(reason)).0
  }

  /** What a broadcast says, and to whose request it is the reply. */
  datatype News = News(
    state: D.GameState,
    events: seq<GameEvent>,
    revision: nat,
    reply: Option<nat>,
    requester: Option<Seat>,
    result: Option<SubmissionResult>)

  function BroadcastEnvelope(room: Room, news: News, seat: Seat): Envelope {
    var view, notices := room.view(news.state, seat), room.notices(news.events, seat);
    var mine := news.requester == Some(seat);
    var reply := if mine then news.reply else None;
    match news.state.status
    case Ended(outcome) => Finished(outcome, view, notices, reply)
    case _ => Update(news.revision, view, notices, reply, if mine then news.result else None)
  }

  /** Both seats are tried even when the first fails. */
  function Broadcast(room: Room, joined: D.PerPlayer<bool>, post: Post, news: News): (Post, bool) {
    var (first, firstOk) := DeliverIfSeated(room, joined, post, D.One, BroadcastEnvelope(room, news, D.One));
    var (second, secondOk) := DeliverIfSeated(room, joined, first, D.Two, BroadcastEnvelope(room, news, D.Two));
    (second, firstOk && secondOk)
  }

  // ----- One event -----

  predicate RequestIsNext(last: nat, request: nat) {
    request > last
  }

  predicate AcceptsRevision(revision: nat, basedOnRevision: nat, action: GameAction, status: D.GameStatus) {
    status.Playing? && (basedOnRevision == revision || action.Resign?)
  }

  datatype Verdict = Ignored | Refusal(counted: bool, reason: string) | Admitted(action: GameAction)

  /** What a submission meets before the recorder sees it. */
  function Judge(room: Room, session: Session, seat: Seat, requestId: nat, basedOnRevision: nat,
                 action: ActionV1): Verdict {
    if !At(session.joined, seat) then Ignored
    else if !RequestIsNext(At(session.requests, seat), requestId) then Refusal(false, "request id must increase")
    else if !Both(session.joined) then Refusal(true, "waiting for opponent")
    else
      match room.codec.ActionFromWire(action)
      case Err(error) => Refusal(true, room.describe(error))
      case Ok(normal) =>
        if normal.player != seat then Refusal(true, "actor does not own this connection")
        else if !AcceptsRevision(session.revision, basedOnRevision, normal, session.recording.state.status) then
          Refusal(true, "stale revision")
        else Admitted(normal)
  }

  function HandleJoin(room: Room, session: Session, seat: Seat): Turn {
    if At(session.joined, seat) || Both(session.joined) then
      var (post, _) := Deliver(room, session.post, None, Denied(None, "seat is occupied"));
      Turn(session.(post := post), None)
    else
      var (post, ok) := Deliver(room, session.post, Some(seat), Waiting(seat));
      if !ok then
        Turn(session.(post := StopAll(room, session.joined, post, "connection closed")), Some(Err(DeliveryFailed)))
      else
        var seated := session.(joined := With(session.joined, seat, true), post := post);
        if !Both(seated.joined) then Turn(seated, None)
        else
          var (told, okAll) := Broadcast(room, seated.joined, post,
            News(seated.recording.state, [], seated.revision, None, None, None));
          if okAll then Turn(seated.(post := told), None)
          else Turn(seated.(post := StopAll(room, seated.joined, told, "connection closed")), Some(Err(DeliveryFailed)))
  }

  function HandleAdmitted(room: Room, session: Session, seat: Seat, requestId: nat, action: GameAction): Turn {
    var attempt := SubmitWith(room.codec, room.device, session.recording, action,
      room.engine(session.recording.state, action));
    var recorded := session.(recording := attempt.recording);
    match attempt.result
    case Err(error) =>
      Turn(recorded.(post := StopAll(room, session.joined, session.post, "recording failed")),
        Some(Err(RecordingStoppedWith(error))))
    case Ok(step) =>
      var result := if step.AcceptedStep? then SubmissionAccepted else SubmissionRejected(room.explain(step.error));
      var events := if step.AcceptedStep? then step.events else [];
      var counted := recorded.(revision := session.revision + 1);
      var (told, ok) := Broadcast(room, session.joined, session.post,
        News(attempt.recording.state, events, counted.revision, Some(requestId), Some(seat), Some(result)));
      if !ok then
        Turn(counted.(post := StopAll(room, session.joined, told, "connection closed")), Some(Err(DeliveryFailed)))
      else
        Turn(counted.(post := told), if attempt.recording.state.status.Ended? then Some(Ok(())) else None)
  }

  function HandleSubmit(room: Room, session: Session, seat: Seat, requestId: nat, basedOnRevision: nat,
                        action: ActionV1): Turn {
    var counted := session.(requests := With(session.requests, seat, requestId));
    match Judge(room, session, seat, requestId, basedOnRevision, action)
    case Ignored => Turn(session, None)
    case Refusal(counts, reason) =>
      var (post, ok) := Deliver(room, session.post, Some(seat), Denied(Some(requestId), reason));
      Turn((if counts then counted else session).(post := post), if ok then None else Some(Err(DeliveryFailed)))
    case Admitted(normal) => HandleAdmitted(room, counted, seat, requestId, normal)
  }

  function HandleUnsupported(room: Room, session: Session, seat: Seat, requestId: nat): Turn {
    var (post, ok) := DeliverIfSeated(room, session.joined, session.post, seat,
      Denied(Some(requestId), "unsupported version"));
    if !ok then Turn(session.(post := post), Some(Err(DeliveryFailed)))
    else Turn(session.(post := StopAll(room, session.joined, post, "protocol error")), Some(Ok(())))
  }

  function Handle(room: Room, session: Session, event: SessionEvent): Turn {
    match event
    case Joined(seat) => HandleJoin(room, session, seat)
    case Submit(seat, requestId, basedOnRevision, action) =>
      HandleSubmit(room, session, seat, requestId, basedOnRevision, action)
    case UnsupportedVersion(seat, requestId) => HandleUnsupported(room, session, seat, requestId)
    case Gone(seat) =>
      if At(session.joined, seat) then
        Turn(session.(post := StopAll(room, session.joined, session.post, "connection closed")), Some(Ok(())))
      else Turn(session, None)
    case Interrupted =>
      Turn(session.(post := StopAll(room, session.joined, session.post, "interrupted")), Some(Ok(())))
    case HostFailed => Turn(session, Some(Err(InterruptFailed)))
  }

  /** The session after some events; once it has ended, nothing more is read. */
  function Serve(room: Room, session: Session, events: seq<SessionEvent>): Turn {
    if events == [] then Turn(session, None)
    else
      var before := Serve(room, session, events[..|events| - 1]);
      if before.ending.Some? then before else Handle(room, before.session, events[|events| - 1])
  }

  function Opened(recording: Recording): Session {
    Session(D.PerPlayer(false, false), 0, D.PerPlayer(0, 0), recording, Post(D.PerPlayer([], []), 0))
  }

  lemma {:induction false} EndedServeStays(room: Room, session: Session, events: seq<SessionEvent>, k: nat)
    requires k <= |events|
    requires Serve(room, session, events[..k]).ending.Some?
    ensures Serve(room, session, events) == Serve(room, session, events[..k])
    decreases |events|
  {
    if k == |events| {
      assert events[..k] == events;
    } else {
      assert events[..|events| - 1][..k] == events[..k];
      EndedServeStays(room, session, events[..|events| - 1], k);
    }
  }

  // ----- The event loop, in place -----

  class PostOffice {
    const delivers: nat -> bool
    var mail: D.PerPlayer<seq<Envelope>>
    var attempts: nat

    function Value(): Post
      reads this
    {
      Post(mail, attempts)
    }

    constructor (delivers: nat -> bool)
      ensures this.delivers == delivers && Value() == Post(D.PerPlayer([], []), 0)
    {
      this.delivers, mail, attempts := delivers, D.PerPlayer([], []), 0;
    }

    method Send(room: Room, to: Option<Seat>, envelope: Envelope) returns (ok: bool)
      requires delivers == room.delivers
      modifies this
      ensures (Value(), ok) == Deliver(room, old(Value()), to, envelope)
    {
      ok := delivers(attempts);
      attempts := attempts + 1;
      if ok && to.Some? {
        mail := With(mail, to.value, At(mail, to.value) + [envelope]);
      }
    }

    method SendIfSeated(room: Room, joined: D.PerPlayer<bool>, seat: Seat, envelope: Envelope) returns (ok: bool)
      requires delivers == room.delivers
      modifies this
      ensures (Value(), ok) == DeliverIfSeated(room, joined, old(Value()), seat, envelope)
    {
      ok := true;
      if At(joined, seat) {
        ok := Send(room, Some(seat), envelope);
      }
    }

    method SendStop(room: Room, joined: D.PerPlayer<bool>, reason: string)
      requires delivers == room.delivers
      modifies this
      ensures Value() == StopAll(room, joined, old(Value()), reason)
    {
      var _ := SendIfSeated(room, joined, D.One, StoppedBecause(reason));
      var _ := SendIfSeated(room, joined, D.Two, StoppedBecause(reason));
    }

    method SendNews(room: Room, joined: D.PerPlayer<bool>, news: News) returns (ok: bool)
      requires delivers == room.delivers
      modifies this
      ensures (Value(), ok) == Broadcast(room, joined, old(Value()), news)
    {
      var first := SendIfSeated(room, joined, D.One, BroadcastEnvelope(room, news, D.One));
      var second := SendIfSeated(room, joined, D.Two, BroadcastEnvelope(room, news, D.Two));
      ok := first && second;
    }
  }

  class SessionLoop {
    const room: Room
    const recorder: RecordedMatch
    const post: PostOffice
    var joined: D.PerPlayer<bool>
    var revision: nat
    var requests: D.PerPlayer<nat>

    ghost predicate Valid()
      reads this
    {
      && recorder.codec == room.codec && recorder.writer.device == room.device && post.delivers == room.delivers
    }

    function Value(): Session
      reads this, recorder, recorder.writer, post
    {
      Session(joined, revision, requests, recorder.Value(), post.Value())
    }

    constructor (room: Room, recorder: RecordedMatch, post: PostOffice)
      requires recorder.codec == room.codec && recorder.writer.device == room.device && post.delivers == room.delivers
      requires post.Value() == Post(D.PerPlayer([], []), 0)
      ensures Valid() && this.room == room && this.recorder == recorder && this.post == post
      ensures Value() == Opened(recorder.Value())
    {
      this.room, this.recorder, this.post := room, recorder, post;
      joined, revision, requests := D.PerPlayer(false, false), 0, D.PerPlayer(0, 0);
    }

    method Join(seat: Seat) returns (ending: Ending)
      requires Valid()
      modifies this, recorder, recorder.writer, post
      ensures Valid() && Turn(Value(), ending) == HandleJoin(room, old(Value()), seat)
    {
      if At(joined, seat) || Both(joined) {
        var _ := post.Send(room, None, Denied(None, "seat is occupied"));
        return None;
      }
      var ok := post.Send(room, Some(seat), Waiting(seat));
      if !ok {
        post.SendStop(room, joined, "connection closed");
        return Some(Err(DeliveryFailed));
      }
      joined := With(joined, seat, true);
      if Both(joined) {
        ok := post.SendNews(room, joined, News(recorder.state, [], revision, None, None, None));
        if !ok {
          post.SendStop(room, joined, "connection closed");
          return Some(Err(DeliveryFailed));
        }
      }
      return None;
    }

    method Refuse(seat: Seat, requestId: nat, reason: string) returns (ending: Ending)
      requires Valid()
      modifies post
      ensures Valid()
      ensures var (after, ok) := Deliver(room, old(post.Value()), Some(seat), Denied(Some(requestId), reason));
              post.Value() == after && ending == if ok then None else Some(Err(DeliveryFailed))
    {
      var ok := post.Send(room, Some(seat), Denied(Some(requestId), reason));
      return if ok then None else Some(Err(DeliveryFailed));
    }

    method Admit(seat: Seat, requestId: nat, action: GameAction) returns (ending: Ending)
      requires Valid()
      modifies this, recorder, recorder.writer, post
      ensures Valid() && Turn(Value(), ending) == HandleAdmitted(room, old(Value()), seat, requestId, action)
    {
      hide SubmitWith, StopAll, Broadcast;
      var submitted := recorder.Submit(room.engine, action);
      if submitted.Err? {
        post.SendStop(room, joined, "recording failed");
        return Some(Err(RecordingStoppedWith(submitted.error)));
      }
      var step := submitted.value;
      var result := if step.AcceptedStep? then SubmissionAccepted else SubmissionRejected(room.explain(step.error));
      var events := if step.AcceptedStep? then step.events else [];
      revision := revision + 1;
      var terminal := recorder.state.status.Ended?;
      var ok := post.SendNews(room, joined,
        News(recorder.state, events, revision, Some(requestId), Some(seat), Some(result)));
      if !ok {
        post.SendStop(room, joined, "connection closed");
        return Some(Err(DeliveryFailed));
      }
      return if terminal then Some(Ok(())) else None;
    }

    method Receive(seat: Seat, requestId: nat, basedOnRevision: nat, action: ActionV1) returns (ending: Ending)
      requires Valid()
      modifies this, recorder, recorder.writer, post
      ensures Valid()
      ensures Turn(Value(), ending) == HandleSubmit(room, old(Value()), seat, requestId, basedOnRevision, action)
    {
      if !At(joined, seat) { return None; }
      if !RequestIsNext(At(requests, seat), requestId) {
        ending := Refuse(seat, requestId, "request id must increase");
        return;
      }
      requests := With(requests, seat, requestId);
      if !Both(joined) {
        ending := Refuse(seat, requestId, "waiting for opponent");
        return;
      }
      var normal := room.codec.ActionFromWire(action);
      if normal.Err? {
        ending := Refuse(seat, requestId, room.describe(normal.error));
        return;
      }
      if normal.value.player != seat {
        ending := Refuse(seat, requestId, "actor does not own this connection");
        return;
      }
      if !AcceptsRevision(revision, basedOnRevision, normal.value, recorder.state.status) {
        ending := Refuse(seat, requestId, "stale revision");
        return;
      }
      ending := Admit(seat, requestId, normal.value);
    }

    method HandleEvent(event: SessionEvent) returns (ending: Ending)
      requires Valid()
      modifies this, recorder, recorder.writer, post
      ensures Valid() && Turn(Value(), ending) == Handle(room, old(Value()), event)
    {
      match event {
        case Joined(seat) => ending := Join(seat);
        case Submit(seat, requestId, basedOnRevision, action) =>
          ending := Receive(seat, requestId, basedOnRevision, action);
        case UnsupportedVersion(seat, requestId) =>
          var ok := post.SendIfSeated(room, joined, seat, Denied(Some(requestId), "unsupported version"));
          if !ok { return Some(Err(DeliveryFailed)); }
          post.SendStop(room, joined, "protocol error");
          ending := Some(Ok(()));
        case Gone(seat) =>
          ending := None;
          if At(joined, seat) {
            post.SendStop(room, joined, "connection closed");
            ending := Some(Ok(()));
          }
        case Interrupted =>
          post.SendStop(room, joined, "interrupted");
          ending := Some(Ok(()));
        case HostFailed => ending := Some(Err(InterruptFailed));
      }
    }

    /** Reads events until one ends the session or, for a session still running, there are no more yet. */
    method ServeSession(events: seq<SessionEvent>) returns (ending: Ending)
      requires Valid()
      modifies this, recorder, recorder.writer, post
      ensures Valid() && Turn(Value(), ending) == Serve(room, old(Value()), events)
    {
      hide Handle;
      ending := None;
      var k := 0;
      while k < |events| && ending.None?
        invariant k <= |events| && Valid()
        invariant Turn(Value(), ending) == Serve(room, old(Value()), events[..k])
      {
        assert events[..k + 1][..k] == events[..k];
        ending := HandleEvent(events[k]);
        k := k + 1;
      }
      EndedOrDone(room, old(Value()), events, k, ending);
    }
  }

  lemma EndedOrDone(room: Room, session: Session, events: seq<SessionEvent>, k: nat, ending: Ending)
    requires k <= |events| && (k == |events| || ending.Some?)
    requires Serve(room, session, events[..k]).ending == ending
    ensures Serve(room, session, events) == Serve(room, session, events[..k])
  {
    if ending.Some? {
      EndedServeStays(room, session, events, k);
    } else {
      assert events[..k] == events;
    }
  }
}
