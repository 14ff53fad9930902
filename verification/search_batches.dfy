/**
 What a search asks for next and what its answers bring: each active source is asked for the page
 behind the last one it delivered, and everything it delivered ends up on the page.
 */
module SearchBatches {
  import opened Wrappers
  import opened Search
  import opened SearchSessions

  // ----- Which sources are asked, and for what -----

  lemma {:induction false} BatchOverIsExact(n: nat, session: Session)
    requires n <= |ALL| && session.activeSources <= session.cursors.Keys
    ensures |BatchOver(n, session)| == |Chosen(n, session.activeSources)|
    ensures forall k | 0 <= k < |BatchOver(n, session)| ::
              var asked := BatchOver(n, session)[k];
              && asked.source == Chosen(n, session.activeSources)[k]
              && asked.source in session.activeSources
              && asked.cursor == session.cursors[asked.source]
  {
    if n > 0 {
      BatchOverIsExact(n - 1, session);
      assert ALL[..n] == ALL[..n - 1] + [ALL[n - 1]];
    }
  }

  /** The next batch asks each active source once, in registry order, with the cursor held for it. */
  lemma BatchIsExact(session: Session, k: nat)
    requires Consistent(session) && k < |Batch(session)|
    ensures |Batch(session)| == |Chosen(|ALL|, session.activeSources)|
    ensures Batch(session)[k].source == Chosen(|ALL|, session.activeSources)[k]
    ensures Batch(session)[k].source in session.activeSources
    ensures Batch(session)[k].cursor == session.cursors[Batch(session)[k].source]
  {
    BatchOverIsExact(|ALL|, session);
  }

  /** A new search asks each chosen source for its first page. */
  lemma NewSearchAsksFirstPages(session: Session, query: SearchQuery, source: SourceKind)
    requires source in query.sources
    ensures var after := Apply(session, Begin(query));
            Asks(Batch(after), source) &&
            forall k | 0 <= k < |Batch(after)| && Batch(after)[k].source == source :: Batch(after)[k].cursor == None
  {
    var after := Apply(session, Begin(query));
    assert Consistent(after) by {
      RunIsConsistent(query, []);
    }
    MoreMeansBatch(after);
    forall k | 0 <= k < |Batch(after)| && Batch(after)[k].source == source ensures Batch(after)[k].cursor == None {
      BatchIsExact(after, k);
    }
  }

  // ----- What a batch brings -----

  /** The last page among the outcomes that came from this source. */
  function LastPage(outcomes: seq<ProviderOutcome>, source: SourceKind): Option<ProviderPage> {
    if outcomes == [] then None
    else
      var later := LastPage(outcomes[1..], source);
      if later.Some? then later
      else if outcomes[0].Success? && outcomes[0].page.source == source then Some(outcomes[0].page)
      else None
  }

  /** Gathering keeps, of each source, the artworks and the next cursor of its last page and nothing else. */
  lemma {:induction false} LastPageCounts(gathered: Gathered, outcomes: seq<ProviderOutcome>, source: SourceKind)
    ensures var after := Gather(gathered, outcomes);
            match LastPage(outcomes, source)
            case Some(page) =>
              && source in after.pages && after.pages[source] == page.artworks
              && source in after.session.cursors && after.session.cursors[source] == page.nextCursor
            case None =>
              && (source in after.pages <==> source in gathered.pages)
              && PageOf(after.pages, source) == PageOf(gathered.pages, source)
              && (source in after.session.cursors <==> source in gathered.session.cursors)
              && (source in gathered.session.cursors ==>
                    after.session.cursors[source] == gathered.session.cursors[source])
    decreases |outcomes|
  {
    if outcomes != [] {
      LastPageCounts(GatherOne(gathered, outcomes[0]), outcomes[1..], source);
    }
  }

  /**
   After a batch a source still active is asked for the page behind the last one it delivered, and
   for the same page again when it delivered none.
   */
  lemma ActiveIsAskedForNextPage(session: Session, outcomes: seq<ProviderOutcome>, source: SourceKind, k: nat)
    requires Consistent(session) && source in Apply(session, MergeIn(outcomes)).activeSources
    requires k < |Batch(Apply(session, MergeIn(outcomes)))|
    requires Batch(Apply(session, MergeIn(outcomes)))[k].source == source
    ensures source in session.cursors
    ensures Batch(Apply(session, MergeIn(outcomes)))[k].cursor ==
            match LastPage(outcomes, source)
            case Some(page) => page.nextCursor
            case None => session.cursors[source]
  {
    hide RoundRobin, Batch, Gather, LastPage;
    MergeKeeps(session, outcomes);
    BatchIsExact(Apply(session, MergeIn(outcomes)), k);
    LastPageCounts(Gathered(session, map[]), outcomes, source);
  }

  /** Some source's last page of the batch holds the artwork. */
  ghost predicate Brought(outcomes: seq<ProviderOutcome>, artwork: Artwork) {
    exists source :: LastPage(outcomes, source).Some? && artwork in LastPage(outcomes, source).value.artworks
  }

  /** Every artwork of a delivered page is shown afterwards, and what is added comes from such a page. */
  lemma DeliveredIsShown(session: Session, outcomes: seq<ProviderOutcome>)
    requires Consistent(session)
    ensures var (after, appended) := Merge(session, outcomes);
            && (forall source :: LastPage(outcomes, source).Some? ==>
                  Keys(LastPage(outcomes, source).value.artworks) <= Keys(after.artworks))
            && (forall artwork <- appended :: Brought(outcomes, artwork))
  {
    hide RoundRobin, Gather, LastPage;
    var (after, appended) := Merge(session, outcomes);
    var pages := Gather(Gathered(session, map[]), outcomes).pages;
    MergeKeeps(session, outcomes);
    MergeIsComplete(pages, session.seen);
    forall source | LastPage(outcomes, source).Some?
      ensures Keys(LastPage(outcomes, source).value.artworks) <= Keys(after.artworks)
    {
      LastPageCounts(Gathered(session, map[]), outcomes, source);
    }
    forall artwork <- appended ensures Brought(outcomes, artwork) {
      assert InPages(pages, artwork);
      var source :| source in pages && artwork in pages[source];
      LastPageCounts(Gathered(session, map[]), outcomes, source);
      assert LastPage(outcomes, source).Some?;
    }
  }
}
