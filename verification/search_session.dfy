/**
 The session behind the search page, updated in place by searches and by batches of provider
 outcomes, with the invariant that every run of those keeps.
 */
module SearchSessions {
  import opened Wrappers
  import opened Search

  /** A non-empty choice of sources, in registry order without repeats. */
  predicate InRegistryOrder(sources: seq<SourceKind>) {
    sources == Chosen(|ALL|, set source <- sources)
  }

  /** The registry's first n sources, without those not chosen. */
  function Chosen(n: nat, chosen: set<SourceKind>): (r: seq<SourceKind>)
    requires n <= |ALL|
    ensures forall source :: source in r <==> source in ALL[..n] && source in chosen
  {
    if n == 0 then []
    else
      assert ALL[..n] == ALL[..n - 1] + [ALL[n - 1]];
      Chosen(n - 1, chosen) + if ALL[n - 1] in chosen then [ALL[n - 1]] else []
  }

  datatype SearchInputError = EmptySources

  function ParseSources(raw: seq<SourceKind>): (r: Result<seq<SourceKind>, SearchInputError>)
    ensures r.Ok? <==> raw != []
    ensures r.Ok? ==> InRegistryOrder(r.value) && forall source :: source in r.value <==> source in raw
  {
    var sources := Chosen(|ALL|, set source <- raw);
    assert forall source <- raw :: source in ALL by {
      forall source <- raw ensures source in ALL {
        var k := AnySourceIsRegistered(source);
      }
    }
    assert ALL[..|ALL|] == ALL;
    assert raw != [] ==> raw[0] in sources;
    assert sources != [] ==> sources[0] in sources && sources[0] in set source <- raw;
    assert (set source <- sources) == (set source <- raw);
    if sources == [] then Err(EmptySources) else Ok(sources)
  }

  datatype SearchQuery = SearchQuery(query: Phrase, sources: seq<SourceKind>, culture: Option<Phrase>)

  datatype ProviderPage = ProviderPage(source: SourceKind, artworks: seq<Artwork>, nextCursor: Option<string>)

  datatype ProviderNotice = UnavailableNotice(source: SourceKind) | FailedNotice(source: SourceKind)

  datatype ProviderOutcome = Success(page: ProviderPage) | Unavailable(source: SourceKind) | Failed(source: SourceKind)

  datatype ProviderCursor = ProviderCursor(source: SourceKind, cursor: Option<string>)

  datatype Session = Session(
    query: SearchQuery,
    notices: seq<ProviderNotice>,
    artworks: seq<Artwork>,
    activeSources: set<SourceKind>,
    cursors: map<SourceKind, Option<string>>,
    seen: set<Key>)

  function NewSession(query: SearchQuery): Session {
    Session(query, [], [], set source <- query.sources, map source | source in query.sources :: None, {})
  }

  function AddNotice(notices: seq<ProviderNotice>, notice: ProviderNotice): seq<ProviderNotice> {
    if notice in notices then notices else notices + [notice]
  }

  /** A session while it takes in one batch, with the pages gathered so far. */
  datatype Gathered = Gathered(session: Session, pages: Pages)

  function GatherOne(gathered: Gathered, outcome: ProviderOutcome): Gathered {
    var session := gathered.session;
    match outcome
    case Success(page) =>
      Gathered(
        session.(cursors := session.cursors[page.source := page.nextCursor],
                 activeSources := if page.nextCursor.None? then session.activeSources - {page.source}
                                  else session.activeSources),
        gathered.pages[page.source := page.artworks])
    case Unavailable(source) =>
      gathered.(session := session.(activeSources := session.activeSources - {source},
                                    notices := AddNotice(session.notices, UnavailableNotice(source))))
    case Failed(source) =>
      gathered.(session := session.(activeSources := session.activeSources - {source},
                                    notices := AddNotice(session.notices, FailedNotice(source))))
  }

  function Gather(gathered: Gathered, outcomes: seq<ProviderOutcome>): Gathered
    decreases |outcomes|
  {
    if outcomes == [] then gathered else Gather(GatherOne(gathered, outcomes[0]), outcomes[1..])
  }

  function Merge(session: Session, outcomes: seq<ProviderOutcome>): (Session, seq<Artwork>) {
    var gathered := Gather(Gathered(session, map[]), outcomes);
    var merged := RoundRobin(gathered.pages, session.seen);
    (gathered.session.(artworks := session.artworks + merged.row, seen := merged.seen), merged.row)
  }

  // ----- The merge loops -----

  /** The inner loop: skip what has been seen and take one artwork from the page. */
  method TakeUnseen(page: seq<Artwork>, start: nat, seen: set<Key>) returns (position: nat, taken: Option<Artwork>)
    requires start <= |page|
    ensures start <= position <= |page|
    ensures TakeOne(page[start..], seen) == (page[position..], taken)
  {
    position := start;
    while position < |page|
      invariant start <= position <= |page|
      invariant TakeOne(page[position..], seen) == TakeOne(page[start..], seen)
    {
      var artwork := page[position];
      position := position + 1;
      if KeyOf(artwork) !in seen {
        return position, Some(artwork);
      }
    }
    taken := None;
  }

  function Rest(pages: Pages, positions: map<SourceKind, nat>): Pages
    requires Within(pages, positions)
  {
    map source | source in pages :: pages[source][positions[source]..]
  }

  ghost predicate Within(pages: Pages, positions: map<SourceKind, nat>) {
    forall source <- pages :: source in positions && positions[source] <= |pages[source]|
  }

  /** One source's turn in a round. */
  method TakeTurn(pages: Pages, start: map<SourceKind, nat>, seen: set<Key>, row: seq<Artwork>, source: SourceKind)
    returns (positions: map<SourceKind, nat>, seen': set<Key>, row': seq<Artwork>)
    requires Within(pages, start)
    ensures Within(pages, positions)
    ensures Round(Rest(pages, positions), seen', row') == TakeFrom(source, Round(Rest(pages, start), seen, row))
  {
    positions, seen', row' := start, seen, row;
    if source in pages {
      var position, taken := TakeUnseen(pages[source], start[source], seen);
      positions := start[source := position];
      assert Rest(pages, positions) == Rest(pages, start)[source := pages[source][position..]];
      if taken.Some? {
        seen' := seen + {KeyOf(taken.value)};
        row' := row + [taken.value];
      }
    }
  }

  /** One pass over the registry. */
  method TakeRound(pages: Pages, start: map<SourceKind, nat>, seen: set<Key>)
    returns (positions: map<SourceKind, nat>, seen': set<Key>, row: seq<Artwork>)
    requires Within(pages, start)
    ensures Within(pages, positions)
    ensures Round(Rest(pages, positions), seen', row) == RoundOver(|ALL|, Rest(pages, start), seen)
  {
    hide TakeFrom, Rest, Within;
    positions, seen', row := start, seen, [];
    for k := 0 to |ALL|
      invariant Within(pages, positions)
      invariant Round(Rest(pages, positions), seen', row) == RoundOver(k, Rest(pages, start), seen)
    {
      positions, seen', row := TakeTurn(pages, positions, seen', row, ALL[k]);
    }
  }

  /** What is still to come: all later rounds, or nothing after a round that took nothing. */
  ghost function ToCome(pages: Pages, seen: set<Key>, added: bool): Round {
    if added then RoundRobin(pages, seen) else Round(pages, seen, [])
  }

  lemma OneRound(pages: Pages, seen: set<Key>)
    ensures var round := RoundOver(|ALL|, pages, seen);
            var later := ToCome(round.pages, round.seen, round.row != []);
            && RoundRobin(pages, seen).row == round.row + later.row
            && RoundRobin(pages, seen).seen == later.seen
            && (round.row != [] ==> Left(|ALL|, round.pages) < Left(|ALL|, pages))
  {
    hide RoundOver, Left;
    LeftAfterRound(|ALL|, pages, seen);
  }

  lemma StartsWhole(pages: Pages)
    ensures var positions: map<SourceKind, nat> := map source | source in pages :: 0;
            Within(pages, positions) && Rest(pages, positions) == pages
  {
  }

  method RoundRobinUnique(pages: Pages, seen: set<Key>) returns (merged: seq<Artwork>, seen': set<Key>)
    ensures var round := RoundRobin(pages, seen); merged == round.row && seen' == round.seen
    ensures OwnSources(pages) ==> merged == Transpose(Columns(pages, seen))
  {
    StartsWhole(pages);
    hide RoundOver, RoundRobin, OwnSources, Transpose, Columns, Left, Rest, Within;
    var positions: map<SourceKind, nat> := map source | source in pages :: 0;
    merged, seen' := [], seen;
    var added := true;
    while added
      invariant Within(pages, positions)
      invariant merged + ToCome(Rest(pages, positions), seen', added).row == RoundRobin(pages, seen).row
      invariant ToCome(Rest(pages, positions), seen', added).seen == RoundRobin(pages, seen).seen
      decreases added, Left(|ALL|, Rest(pages, positions))
    {
      OneRound(Rest(pages, positions), seen');
      var row;
      positions, seen', row := TakeRound(pages, positions, seen');
      merged := merged + row;
      added := row != [];
    }
    if OwnSources(pages) { MergeIsTranspose(pages, seen); }
  }

  class SearchSession {
    var query: SearchQuery
    var notices: seq<ProviderNotice>
    var artworks: seq<Artwork>
    var activeSources: set<SourceKind>
    var cursors: map<SourceKind, Option<string>>
    var seen: set<Key>

    function Value(): Session
      reads this
    {
      Session(query, notices, artworks, activeSources, cursors, seen)
    }

    constructor (query: SearchQuery)
      ensures Value() == NewSession(query)
    {
      this.query, notices, artworks := query, [], [];
      activeSources := set source <- query.sources;
      cursors := map source | source in query.sources :: None;
      seen := {};
    }

    method BeginSearch(query: SearchQuery) returns (changed: bool)
      modifies this
      ensures Value() == NewSession(query)
      ensures changed <==> old(this.query) != query
    {
      changed := this.query != query;
      this.query := query;
      notices, artworks := [], [];
      activeSources := set source <- query.sources;
      cursors := map source | source in query.sources :: None;
      seen := {};
    }

    /** Takes in every outcome, merges the new artworks into the page and returns just those. */
    method MergeBatch(outcomes: seq<ProviderOutcome>) returns (appended: seq<Artwork>)
      modifies this
      ensures (Value(), appended) == Merge(old(Value()), outcomes)
    {
      var pages: Pages := map[];
      var k := 0;
      while k < |outcomes|
        invariant k <= |outcomes|
        invariant Gather(Gathered(Value(), pages), outcomes[k..]) == Gather(Gathered(old(Value()), map[]), outcomes)
        invariant artworks == old(artworks) && seen == old(seen)
      {
        match outcomes[k] {
          case Success(page) =>
            cursors := cursors[page.source := page.nextCursor];
            if page.nextCursor.None? {
              activeSources := activeSources - {page.source};
            }
            pages := pages[page.source := page.artworks];
          case Unavailable(source) =>
            activeSources := activeSources - {source};
            notices := AddNotice(notices, UnavailableNotice(source));
          case Failed(source) =>
            activeSources := activeSources - {source};
            notices := AddNotice(notices, FailedNotice(source));
        }
        k := k + 1;
      }
      appended, seen := RoundRobinUnique(pages, seen);
      artworks := artworks + appended;
    }

    method NextBatch() returns (batch: seq<ProviderCursor>)
      ensures batch == Batch(Value())
    {
      batch := [];
      for k := 0 to |ALL|
        invariant batch == BatchOver(k, Value())
      {
        var source := ALL[k];
        if source in activeSources {
          batch := batch + [ProviderCursor(source, if source in cursors then cursors[source] else None)];
        }
      }
    }
  }

  // ----- The next batch -----

  function BatchOver(n: nat, session: Session): seq<ProviderCursor>
    requires n <= |ALL|
  {
    if n == 0 then []
    else
      var source := ALL[n - 1];
      BatchOver(n - 1, session) +
      if source in session.activeSources then
        [ProviderCursor(source, if source in session.cursors then session.cursors[source] else None)]
      else []
  }

  function Batch(session: Session): seq<ProviderCursor> {
    BatchOver(|ALL|, session)
  }

  predicate HasMore(session: Session) {
    session.activeSources != {}
  }

  ghost predicate Asks(batch: seq<ProviderCursor>, source: SourceKind) {
    exists k :: 0 <= k < |batch| && batch[k].source == source
  }

  lemma AsksSnoc(batch: seq<ProviderCursor>, cursor: ProviderCursor, source: SourceKind)
    ensures Asks(batch + [cursor], source) <==> Asks(batch, source) || cursor.source == source
  {
    assert (batch + [cursor])[|batch|] == cursor;
    if Asks(batch, source) {
      var k :| 0 <= k < |batch| && batch[k].source == source;
      assert (batch + [cursor])[k].source == source;
    }
  }

  lemma {:induction false} BatchNamesActive(n: nat, session: Session, source: SourceKind)
    requires n <= |ALL|
    ensures Asks(BatchOver(n, session), source) <==> source in session.activeSources && source in ALL[..n]
  {
    if n > 0 {
      BatchNamesActive(n - 1, session, source);
      assert ALL[..n] == ALL[..n - 1] + [ALL[n - 1]];
      var last := ALL[n - 1];
      var cursor := ProviderCursor(last, if last in session.cursors then session.cursors[last] else None);
      AsksSnoc(BatchOver(n - 1, session), cursor, source);
      assert last !in session.activeSources ==> BatchOver(n, session) == BatchOver(n - 1, session);
    }
  }

  /** The next batch asks exactly the active sources, so there is more to load exactly when it asks any. */
  lemma MoreMeansBatch(session: Session)
    ensures HasMore(session) <==> Batch(session) != []
    ensures forall source :: source in session.activeSources <==> Asks(Batch(session), source)
  {
    assert ALL[..|ALL|] == ALL;
    forall source ensures source in session.activeSources <==> Asks(Batch(session), source) {
      BatchNamesActive(|ALL|, session, source);
      var k := AnySourceIsRegistered(source);
    }
    if HasMore(session) {
      var source :| source in session.activeSources;
      assert Asks(Batch(session), source);
    }
    if Batch(session) != [] {
      assert Asks(Batch(session), Batch(session)[0].source);
    }
  }

  // ----- What every run keeps -----

  datatype Call = Begin(query: SearchQuery) | MergeIn(outcomes: seq<ProviderOutcome>)

  function Apply(session: Session, call: Call): Session {
    match call
    case Begin(query) => NewSession(query)
    case MergeIn(outcomes) => Merge(session, outcomes).0
  }

  function Run(query: SearchQuery, calls: seq<Call>): Session {
    if calls == [] then NewSession(query) else Apply(Run(query, calls[..|calls| - 1]), calls[|calls| - 1])
  }

  ghost predicate DistinctNotices(notices: seq<ProviderNotice>) {
    forall j, k | 0 <= j < k < |notices| :: notices[j] != notices[k]
  }

  ghost predicate Consistent(session: Session) {
    && DistinctKeys(session.artworks)
    && session.seen == Keys(session.artworks)
    && session.activeSources <= (set source <- session.query.sources)
    && session.activeSources <= session.cursors.Keys
    && DistinctNotices(session.notices)
  }

  lemma {:induction false} GatherKeeps(gathered: Gathered, outcomes: seq<ProviderOutcome>)
    requires DistinctNotices(gathered.session.notices)
    requires gathered.session.activeSources <= gathered.session.cursors.Keys
    ensures var after, before := Gather(gathered, outcomes).session, gathered.session;
            && after.query == before.query && after.artworks == before.artworks && after.seen == before.seen
            && after.activeSources <= before.activeSources
            && after.activeSources <= after.cursors.Keys
            && before.notices <= after.notices && DistinctNotices(after.notices)
    decreases |outcomes|
  {
    if outcomes != [] {
      GatherKeeps(GatherOne(gathered, outcomes[0]), outcomes[1..]);
    }
  }

  /** A batch only adds artworks, at the end and never one already shown, and only drops active sources. */
  lemma MergeKeeps(session: Session, outcomes: seq<ProviderOutcome>)
    requires Consistent(session)
    ensures var (after, appended) := Merge(session, outcomes);
            && Consistent(after)
            && after.artworks == session.artworks + appended
            && after.activeSources <= session.activeSources
            && after.query == session.query
  {
    hide RoundRobin, Gather;
    var gathered := Gather(Gathered(session, map[]), outcomes);
    GatherKeeps(Gathered(session, map[]), outcomes);
    MergeIsFresh(gathered.pages, session.seen);
    var merged := RoundRobin(gathered.pages, session.seen);
    FreshAppend({}, Round(map[], session.seen, session.artworks), merged);
  }

  lemma {:induction false} RunIsConsistent(query: SearchQuery, calls: seq<Call>)
    ensures Consistent(Run(query, calls))
    decreases |calls|
  {
    if calls != [] {
      RunIsConsistent(query, calls[..|calls| - 1]);
      var last := calls[|calls| - 1];
      if last.MergeIn? {
        MergeKeeps(Run(query, calls[..|calls| - 1]), last.outcomes);
      }
    }
  }

  /** A provider whose page had no next cursor, or that failed, is not asked again before the next search. */
  lemma {:induction false} FinishedStaysFinished(session: Session, calls: seq<Call>, source: SourceKind)
    requires Consistent(session) && source !in session.activeSources
    requires forall call <- calls :: call.MergeIn?
    ensures source !in Continue(session, calls).activeSources
    ensures Consistent(Continue(session, calls))
    decreases |calls|
  {
    if calls != [] {
      FinishedStaysFinished(session, calls[..|calls| - 1], source);
      MergeKeeps(Continue(session, calls[..|calls| - 1]), calls[|calls| - 1].outcomes);
    }
  }

  function Continue(session: Session, calls: seq<Call>): Session {
    if calls == [] then session else Apply(Continue(session, calls[..|calls| - 1]), calls[|calls| - 1])
  }

  // ----- What a batch settles -----

  function SourceOf(outcome: ProviderOutcome): SourceKind {
    match outcome
    case Success(page) => page.source
    case Unavailable(source) => source
    case Failed(source) => source
  }

  /** The outcome leaves nothing more to ask of its source. */
  predicate Exhausts(outcome: ProviderOutcome) {
    outcome.Success? ==> outcome.page.nextCursor.None?
  }

  predicate Notifies(outcome: ProviderOutcome, notice: ProviderNotice) {
    || (outcome.Unavailable? && notice == UnavailableNotice(outcome.source))
    || (outcome.Failed? && notice == FailedNotice(outcome.source))
  }

  /**
   After a batch a source is active exactly when it was and no outcome exhausted it, and a notice is
   shown exactly when it was or an outcome gives it.
   */
  lemma {:induction false} BatchSettles(gathered: Gathered, outcomes: seq<ProviderOutcome>, source: SourceKind,
                                        notice: ProviderNotice)
    ensures var before, after := gathered.session, Gather(gathered, outcomes).session;
            && (source in after.activeSources <==>
                source in before.activeSources &&
                forall k | 0 <= k < |outcomes| :: SourceOf(outcomes[k]) == source ==> !Exhausts(outcomes[k]))
            && (notice in after.notices <==>
                notice in before.notices || exists k | 0 <= k < |outcomes| :: Notifies(outcomes[k], notice))
    decreases |outcomes|
  {
    if outcomes != [] {
      var next := GatherOne(gathered, outcomes[0]);
      OneSettles(gathered, outcomes[0], source, notice);
      hide GatherOne, SourceOf, Exhausts, Notifies;
      BatchSettles(next, outcomes[1..], source, notice);
      var rest := outcomes[1..];
      if forall k | 0 <= k < |rest| :: SourceOf(rest[k]) == source ==> !Exhausts(rest[k]) {
        if SourceOf(outcomes[0]) == source ==> !Exhausts(outcomes[0]) {
          forall k | 0 <= k < |outcomes| ensures SourceOf(outcomes[k]) == source ==> !Exhausts(outcomes[k]) {
            assert k > 0 ==> outcomes[k] == rest[k - 1];
          }
        }
      }
      if exists k | 0 <= k < |rest| :: Notifies(rest[k], notice) {
        var k :| 0 <= k < |rest| && Notifies(rest[k], notice);
        assert Notifies(outcomes[k + 1], notice);
      }
      if exists k | 0 <= k < |outcomes| :: Notifies(outcomes[k], notice) {
        var k :| 0 <= k < |outcomes| && Notifies(outcomes[k], notice);
        assert k > 0 ==> outcomes[k] == rest[k - 1];
      }
    }
  }

  lemma OneSettles(gathered: Gathered, outcome: ProviderOutcome, source: SourceKind, notice: ProviderNotice)
    ensures var before, after := gathered.session, GatherOne(gathered, outcome).session;
            && (source in after.activeSources <==>
                source in before.activeSources && (SourceOf(outcome) == source ==> !Exhausts(outcome)))
            && (notice in after.notices <==> notice in before.notices || Notifies(outcome, notice))
  {
  }
}
