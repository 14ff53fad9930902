/**
 The search page's session: provider outcomes are gathered, their artworks merged round by round
 without repeats, and the session keeps one set of seen artworks in step with the page.
 */
module Search {
  import opened Wrappers

  datatype SourceKind = ArtInstituteChicago | ClevelandMuseum | MetropolitanMuseum | Smithsonian | WikimediaCommons

  const ALL: seq<SourceKind> :=
    [ArtInstituteChicago, ClevelandMuseum, MetropolitanMuseum, Smithsonian, WikimediaCommons]

  /** Title, creator, license, image addresses and the rest of an artwork's card. */
  type Card(==,!new)
  type Phrase(==,!new)

  datatype Artwork = Artwork(source: SourceKind, sourceId: string, card: Card)

  type Key = (SourceKind, string)

  function KeyOf(artwork: Artwork): Key {
    (artwork.source, artwork.sourceId)
  }

  function Keys(artworks: seq<Artwork>): set<Key> {
    set artwork <- artworks :: KeyOf(artwork)
  }

  ghost predicate DistinctKeys(artworks: seq<Artwork>) {
    forall j, k | 0 <= j < k < |artworks| :: KeyOf(artworks[j]) != KeyOf(artworks[k])
  }

  // ----- Merging round by round -----

  type Pages = map<SourceKind, seq<Artwork>>

  function PageOf(pages: Pages, source: SourceKind): seq<Artwork> {
    if source in pages then pages[source] else []
  }

  /** Skips artworks already seen and takes the next one, if any is left. */
  function TakeOne(page: seq<Artwork>, seen: set<Key>): (r: (seq<Artwork>, Option<Artwork>))
    ensures r.1.Some? ==> |r.0| < |page| && KeyOf(r.1.value) !in seen
    ensures r.1.None? ==> r.0 == []
  {
    if page == [] then ([], None)
    else if KeyOf(page[0]) !in seen then (page[1..], Some(page[0]))
    else TakeOne(page[1..], seen)
  }

  lemma {:induction false} TakeOneCovers(page: seq<Artwork>, seen: set<Key>)
    ensures var (rest, taken) := TakeOne(page, seen);
            && (forall artwork <- rest :: artwork in page)
            && (taken.Some? ==> taken.value in page)
            && Keys(page) <= seen + Keys(rest) + (if taken.Some? then {KeyOf(taken.value)} else {})
  {
    if page != [] && KeyOf(page[0]) in seen {
      TakeOneCovers(page[1..], seen);
    }
  }

  /** The rest of the pages after a round, what has been seen, and what the round took. */
  datatype Round = Round(pages: Pages, seen: set<Key>, row: seq<Artwork>)

  function TakeFrom(source: SourceKind, round: Round): Round {
    if source !in round.pages then round
    else
      var (rest, taken) := TakeOne(round.pages[source], round.seen);
      var pages := round.pages[source := rest];
      match taken
      case None => round.(pages := pages)
      case Some(artwork) => Round(pages, round.seen + {KeyOf(artwork)}, round.row + [artwork])
  }

  /** One round over the first n sources of the registry. */
  function RoundOver(n: nat, pages: Pages, seen: set<Key>): Round
    requires n <= |ALL|
  {
    if n == 0 then Round(pages, seen, []) else TakeFrom(ALL[n - 1], RoundOver(n - 1, pages, seen))
  }

  function Left(n: nat, pages: Pages): nat
    requires n <= |ALL|
  {
    if n == 0 then 0 else Left(n - 1, pages) + |PageOf(pages, ALL[n - 1])|
  }

  lemma {:induction false} LeftAfterTake(n: nat, source: SourceKind, round: Round)
    requires n <= |ALL|
    ensures Left(n, TakeFrom(source, round).pages) <= Left(n, round.pages)
    ensures |TakeFrom(source, round).row| > |round.row| && source in ALL[..n] ==>
              Left(n, TakeFrom(source, round).pages) < Left(n, round.pages)
  {
    if n > 0 {
      LeftAfterTake(n - 1, source, round);
      assert ALL[..n] == ALL[..n - 1] + [ALL[n - 1]];
    }
  }

  lemma {:induction false} LeftAfterRound(n: nat, pages: Pages, seen: set<Key>)
    requires n <= |ALL|
    ensures Left(|ALL|, RoundOver(n, pages, seen).pages) <= Left(|ALL|, pages)
    ensures RoundOver(n, pages, seen).row != [] ==> Left(|ALL|, RoundOver(n, pages, seen).pages) < Left(|ALL|, pages)
  {
    if n > 0 {
      LeftAfterRound(n - 1, pages, seen);
      LeftAfterTake(|ALL|, ALL[n - 1], RoundOver(n - 1, pages, seen));
    }
  }

  /** All rounds, up to the first that takes nothing. */
  function RoundRobin(pages: Pages, seen: set<Key>): Round
    decreases Left(|ALL|, pages)
  {
    var round := RoundOver(|ALL|, pages, seen);
    LeftAfterRound(|ALL|, pages, seen);
    if round.row == [] then round
    else
      var later := RoundRobin(round.pages, round.seen);
      later.(row := round.row + later.row)
  }

  // ----- What the merge takes -----

  /** Everything taken is new and taken once, and `seen` grows by exactly that. */
  ghost predicate Fresh(seen: set<Key>, round: Round) {
    && DistinctKeys(round.row)
    && Keys(round.row) !! seen
    && round.seen == seen + Keys(round.row)
  }

  lemma FreshAppend(seen: set<Key>, first: Round, second: Round)
    requires Fresh(seen, first) && Fresh(first.seen, second)
    ensures Fresh(seen, second.(row := first.row + second.row))
  {
    var row := first.row + second.row;
    assert Keys(row) == Keys(first.row) + Keys(second.row) by {
      forall key | key in Keys(first.row) + Keys(second.row) ensures key in Keys(row) {
        var artwork :| (artwork in first.row || artwork in second.row) && KeyOf(artwork) == key;
        assert artwork in row;
      }
    }
    forall j, k | 0 <= j < k < |row| ensures KeyOf(row[j]) != KeyOf(row[k]) {
      if j < |first.row| <= k {
        assert row[k] in second.row && row[j] in first.row;
        assert KeyOf(row[j]) in Keys(first.row) && KeyOf(row[k]) in Keys(second.row);
      } else if |first.row| <= j {
        assert row[j] == second.row[j - |first.row|] && row[k] == second.row[k - |first.row|];
      }
    }
  }

  lemma {:induction false} RoundIsFresh(n: nat, pages: Pages, seen: set<Key>)
    requires n <= |ALL|
    ensures Fresh(seen, RoundOver(n, pages, seen))
  {
    if n > 0 {
      RoundIsFresh(n - 1, pages, seen);
      var before, source := RoundOver(n - 1, pages, seen), ALL[n - 1];
      if source in before.pages && TakeOne(before.pages[source], before.seen).1.Some? {
        var artwork := TakeOne(before.pages[source], before.seen).1.value;
        FreshAppend(seen, before, Round(before.pages, before.seen + {KeyOf(artwork)}, [artwork]));
      }
    }
  }

  /** The page never repeats an artwork, and `seen` is exactly what it was plus what was added. */
  lemma {:induction false} MergeIsFresh(pages: Pages, seen: set<Key>)
    ensures Fresh(seen, RoundRobin(pages, seen))
    decreases Left(|ALL|, pages)
  {
    hide RoundOver, Fresh;
    var round := RoundOver(|ALL|, pages, seen);
    RoundIsFresh(|ALL|, pages, seen);
    LeftAfterRound(|ALL|, pages, seen);
    if round.row != [] {
      MergeIsFresh(round.pages, round.seen);
      FreshAppend(seen, round, RoundRobin(round.pages, round.seen));
    }
  }

  /** Nothing is dropped: what a page holds is either taken or had been seen. */
  ghost predicate Covers(pages: Pages, round: Round) {
    forall source <- pages ::
      source in round.pages && Keys(pages[source]) <= round.seen + Keys(round.pages[source])
  }

  ghost predicate ComesFrom(pages: Pages, round: Round) {
    && (forall artwork <- round.row :: InPages(pages, artwork))
    && (forall source <- round.pages ::
          source in pages && forall artwork <- round.pages[source] :: artwork in pages[source])
  }

  ghost predicate InPages(pages: Pages, artwork: Artwork) {
    exists source :: source in pages && artwork in pages[source]
  }

  lemma {:induction false} RoundCovers(n: nat, pages: Pages, seen: set<Key>)
    requires n <= |ALL|
    ensures Covers(pages, RoundOver(n, pages, seen)) && ComesFrom(pages, RoundOver(n, pages, seen))
    ensures seen <= RoundOver(n, pages, seen).seen
  {
    if n > 0 {
      RoundCovers(n - 1, pages, seen);
      var before, source := RoundOver(n - 1, pages, seen), ALL[n - 1];
      TakeOneCovers(PageOf(before.pages, source), before.seen);
      if source in before.pages && TakeOne(before.pages[source], before.seen).1.Some? {
        assert InPages(pages, TakeOne(before.pages[source], before.seen).1.value);
      }
    }
  }

  lemma AnySourceIsRegistered(source: SourceKind) returns (k: nat)
    ensures k < |ALL| && ALL[k] == source
  {
    k := match source
      case ArtInstituteChicago => 0
      case ClevelandMuseum => 1
      case MetropolitanMuseum => 2
      case Smithsonian => 3
      case WikimediaCommons => 4;
  }

  /** A round that takes nothing has seen all of every page. */
  lemma {:induction false} EmptyRoundSawAll(n: nat, pages: Pages, seen: set<Key>)
    requires n <= |ALL| && RoundOver(n, pages, seen).row == []
    ensures RoundOver(n, pages, seen).seen == seen
    ensures forall k | 0 <= k < |ALL| :: k < n && ALL[k] in pages ==> Keys(pages[ALL[k]]) <= seen
    ensures forall k | n <= k < |ALL| :: PageOf(RoundOver(n, pages, seen).pages, ALL[k]) == PageOf(pages, ALL[k])
    ensures RoundOver(n, pages, seen).pages.Keys == pages.Keys
  {
    if n > 0 {
      EmptyRoundSawAll(n - 1, pages, seen);
      TakeOneCovers(PageOf(pages, ALL[n - 1]), seen);
    }
  }

  /** Every artwork of every page ends up seen, and what is added comes from the pages. */
  lemma {:induction false} MergeIsComplete(pages: Pages, seen: set<Key>)
    ensures forall source <- pages :: Keys(pages[source]) <= RoundRobin(pages, seen).seen
    ensures forall artwork <- RoundRobin(pages, seen).row :: InPages(pages, artwork)
    ensures seen <= RoundRobin(pages, seen).seen
    decreases Left(|ALL|, pages)
  {
    hide RoundOver;
    var round := RoundOver(|ALL|, pages, seen);
    RoundCovers(|ALL|, pages, seen);
    LeftAfterRound(|ALL|, pages, seen);
    if round.row == [] {
      EmptyRoundSawAll(|ALL|, pages, seen);
      forall source <- pages ensures Keys(pages[source]) <= seen {
        var k := AnySourceIsRegistered(source);
      }
    } else {
      MergeIsComplete(round.pages, round.seen);
      var later := RoundRobin(round.pages, round.seen);
      forall source <- pages ensures Keys(pages[source]) <= later.seen {
        assert Keys(round.pages[source]) <= later.seen;
      }
      forall artwork <- later.row ensures InPages(pages, artwork) {
        assert InPages(round.pages, artwork);
        var source :| source in round.pages && artwork in round.pages[source];
        assert artwork in pages[source];
      }
    }
  }

  // ----- The simple form: a transpose of what is new in each page -----

  /** A page's artworks that have not been seen, each at its first occurrence. */
  function Firsts(page: seq<Artwork>, seen: set<Key>): seq<Artwork> {
    if page == [] then []
    else if KeyOf(page[0]) in seen then Firsts(page[1..], seen)
    else [page[0]] + Firsts(page[1..], seen + {KeyOf(page[0])})
  }

  /** One column per registered source, in registry order. */
  function Columns(pages: Pages, seen: set<Key>): (r: seq<seq<Artwork>>)
    ensures |r| == |ALL|
  {
    seq(|ALL|, k requires 0 <= k < |ALL| => Firsts(PageOf(pages, ALL[k]), seen))
  }

  /** The r-th entry of every column that is long enough, over the first n columns. */
  function RowAt(columns: seq<seq<Artwork>>, r: nat, n: nat): seq<Artwork>
    requires n <= |columns|
  {
    if n == 0 then []
    else RowAt(columns, r, n - 1) + if r < |columns[n - 1]| then [columns[n - 1][r]] else []
  }

  function Rows(columns: seq<seq<Artwork>>, count: nat): seq<Artwork> {
    if count == 0 then [] else Rows(columns, count - 1) + RowAt(columns, count - 1, |columns|)
  }

  function Height(columns: seq<seq<Artwork>>): (r: nat)
    ensures forall k | 0 <= k < |columns| :: |columns[k]| <= r
    ensures r > 0 ==> exists k :: 0 <= k < |columns| && |columns[k]| == r
  {
    if columns == [] then 0
    else
      var before, last := Height(columns[..|columns| - 1]), |columns[|columns| - 1]|;
      if before < last then last else before
  }

  function Transpose(columns: seq<seq<Artwork>>): seq<Artwork> {
    Rows(columns, Height(columns))
  }

  /** Every artwork on a page names the source the page came from. */
  ghost predicate OwnSources(pages: Pages) {
    forall source <- pages :: forall artwork <- pages[source] :: artwork.source == source
  }

  lemma {:induction false} TakesFirst(page: seq<Artwork>, seen: set<Key>)
    ensures var (rest, taken) := TakeOne(page, seen);
            Firsts(page, seen) ==
            if taken.Some? then [taken.value] + Firsts(rest, seen + {KeyOf(taken.value)}) else []
  {
    if page != [] && KeyOf(page[0]) in seen {
      TakesFirst(page[1..], seen);
    }
  }

  /** What other sources add to `seen` does not matter to a page. */
  lemma {:induction false} FirstsIgnoreOthers(page: seq<Artwork>, source: SourceKind, seen: set<Key>, other: Key)
    requires forall artwork <- page :: artwork.source == source
    requires other.0 != source
    ensures Firsts(page, seen + {other}) == Firsts(page, seen)
  {
    if page != [] {
      if KeyOf(page[0]) in seen {
        FirstsIgnoreOthers(page[1..], source, seen, other);
      } else {
        FirstsIgnoreOthers(page[1..], source, seen + {KeyOf(page[0])}, other);
        assert seen + {other} + {KeyOf(page[0])} == seen + {KeyOf(page[0])} + {other};
      }
    }
  }

  function Tail(column: seq<Artwork>): seq<Artwork> {
    if column == [] then [] else column[1..]
  }

  function Tails(columns: seq<seq<Artwork>>): (r: seq<seq<Artwork>>)
    ensures |r| == |columns|
  {
    seq(|columns|, k requires 0 <= k < |columns| => Tail(columns[k]))
  }

  /** A round over the first n sources takes the heads of the first n columns and leaves the rest alone. */
  lemma {:induction false} RoundTakesHeads(n: nat, pages: Pages, seen: set<Key>)
    requires n <= |ALL| && OwnSources(pages)
    ensures var round, columns := RoundOver(n, pages, seen), Columns(pages, seen);
            && OwnSources(round.pages)
            && round.row == RowAt(columns, 0, n)
            && forall k | 0 <= k < |ALL| ::
                 Columns(round.pages, round.seen)[k] == if k < n then Tail(columns[k]) else columns[k]
  {
    hide TakeFrom, Tail, OwnSources, Firsts;
    if n > 0 {
      RoundTakesHeads(n - 1, pages, seen);
      var before, source := RoundOver(n - 1, pages, seen), ALL[n - 1];
      TakeKeepsColumns(before, n - 1);
    }
  }

  lemma TakeKeepsColumns(before: Round, n: nat)
    requires n < |ALL| && OwnSources(before.pages)
    ensures var after, columns := TakeFrom(ALL[n], before), Columns(before.pages, before.seen);
            && OwnSources(after.pages)
            && after.row == before.row + (if columns[n] == [] then [] else [columns[n][0]])
            && forall k | 0 <= k < |ALL| ::
                 Columns(after.pages, after.seen)[k] == if k == n then Tail(columns[k]) else columns[k]
  {
    var source, after, columns := ALL[n], TakeFrom(ALL[n], before), Columns(before.pages, before.seen);
    TakeOneCovers(PageOf(before.pages, source), before.seen);
    if source in before.pages {
      TakesFirst(before.pages[source], before.seen);
      var taken := TakeOne(before.pages[source], before.seen).1;
      forall k | 0 <= k < |ALL|
        ensures Columns(after.pages, after.seen)[k] == if k == n then Tail(columns[k]) else columns[k]
      {
        if k != n && taken.Some? {
          FirstsIgnoreOthers(PageOf(before.pages, ALL[k]), ALL[k], before.seen, KeyOf(taken.value));
        }
      }
    }
  }

  lemma {:induction false} RowOfTails(columns: seq<seq<Artwork>>, r: nat, n: nat)
    requires n <= |columns|
    ensures RowAt(Tails(columns), r, n) == RowAt(columns, r + 1, n)
  {
    if n > 0 {
      RowOfTails(columns, r, n - 1);
    }
  }

  lemma {:induction false} RowsOfTails(columns: seq<seq<Artwork>>, count: nat)
    ensures Rows(columns, count + 1) == RowAt(columns, 0, |columns|) + Rows(Tails(columns), count)
  {
    hide RowAt, Tails;
    if count > 0 {
      RowsOfTails(columns, count - 1);
      RowOfTails(columns, count - 1, |columns|);
      assert Rows(columns, count + 1) == Rows(columns, count) + RowAt(columns, count, |columns|);
    } else {
      assert Rows(columns, 1) == [] + RowAt(columns, 0, |columns|);
    }
  }

  lemma {:induction false} EmptyRowMeansEmpty(columns: seq<seq<Artwork>>, n: nat)
    requires n <= |columns|
    ensures RowAt(columns, 0, n) == [] <==> forall k | 0 <= k < n :: columns[k] == []
  {
    if n > 0 {
      EmptyRowMeansEmpty(columns, n - 1);
    }
  }

  lemma HeightOfTails(columns: seq<seq<Artwork>>)
    ensures Height(columns) > 0 ==> Height(Tails(columns)) == Height(columns) - 1
  {
    if Height(columns) > 0 {
      var k :| 0 <= k < |columns| && |columns[k]| == Height(columns);
      assert |Tails(columns)[k]| == Height(columns) - 1;
      if Height(Tails(columns)) > 0 {
        var j :| 0 <= j < |columns| && |Tails(columns)[j]| == Height(Tails(columns));
      }
    }
  }

  lemma NoRows(columns: seq<seq<Artwork>>)
    ensures Rows(columns, 0) == []
  {
  }

  lemma HeightOfRow(columns: seq<seq<Artwork>>)
    requires RowAt(columns, 0, |columns|) != []
    ensures Height(columns) > 0
  {
    EmptyRowMeansEmpty(columns, |columns|);
  }

  lemma TailsRemain(columns: seq<seq<Artwork>>, rest: seq<seq<Artwork>>)
    requires |rest| == |columns| && forall k | 0 <= k < |columns| :: rest[k] == Tail(columns[k])
    ensures rest == Tails(columns)
  {
  }

  /** When pages carry their own source, the merge is the transpose of what is new in each of them. */
  lemma {:induction false} MergeIsTranspose(pages: Pages, seen: set<Key>)
    requires OwnSources(pages)
    ensures RoundRobin(pages, seen).row == Transpose(Columns(pages, seen))
    decreases Left(|ALL|, pages)
  {
    hide RoundOver, Height, RowAt, Columns, OwnSources, Tails, Rows, Left;
    var round, columns := RoundOver(|ALL|, pages, seen), Columns(pages, seen);
    RoundTakesHeads(|ALL|, pages, seen);
    LeftAfterRound(|ALL|, pages, seen);
    EmptyRowMeansEmpty(columns, |ALL|);
    if round.row == [] {
      assert Height(columns) == 0;
      NoRows(columns);
    } else {
      MergeIsTranspose(round.pages, round.seen);
      TailsRemain(columns, Columns(round.pages, round.seen));
      assert Height(columns) > 0 by { HeightOfRow(columns); }
      HeightOfTails(columns);
      RowsOfTails(columns, Height(columns) - 1);
    }
  }
}
