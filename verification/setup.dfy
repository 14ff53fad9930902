/**
 Dealing an opening board: two Decks, shuffled by any shuffler, become a match state. For Decks
 resolved against a library of converted Sets this never fails, and the state it gives can be
 recorded, parsed back and replayed.
 */
module Setup {
  import opened Wrappers
  import opened EntityIds
  import opened CardLibraries
  import opened Decks
  import opened Scenarios
  import D = Domain

  const HAND_SIZE: nat := 5
  const PRIZE_COUNT: nat := 2

  /** The k-th shuffle of a match; a shuffle only reorders. */
  type Shuffler = (nat, seq<EntityId>) -> seq<EntityId>

  ghost predicate Shuffles(shuffler: Shuffler) {
    forall k, cards :: multiset(shuffler(k, cards)) == multiset(cards)
  }

  // ----- Dealing -----

  /** Cards with consecutive instance numbers. */
  function Minted(defs: seq<EntityId>, first: nat): (r: seq<D.CardRef>)
    ensures |r| == |defs|
  {
    seq(|defs|, k requires 0 <= k < |defs| => D.CardRef(first + k, defs[k]))
  }

  function NoMana(): D.ManaBank {
    D.ManaBank(0, 0, 0)
  }

  /** The starter alone on the board, then hand, prizes and deck off the shuffled body. */
  function Dealt(deck: Deck, first: nat, shuffled: seq<EntityId>): ScenarioPlayer
    requires |shuffled| >= HAND_SIZE + PRIZE_COUNT
  {
    var body := Minted(shuffled, first + 1);
    ScenarioPlayer(body[HAND_SIZE + PRIZE_COUNT..], body[..HAND_SIZE], body[HAND_SIZE..HAND_SIZE + PRIZE_COUNT], [],
      NoMana(), 0, Some(ScenarioSummon([D.CardRef(first, deck.starter)], 0, D.Exhausted)), D.BenchOf(None, None, None))
  }

  method Mint(nextInstance: nat) returns (instance: nat, next: nat)
    ensures instance == nextInstance && next == nextInstance + 1
  {
    instance, next := nextInstance, nextInstance + 1;
  }

  method Deal(deck: Deck, nextInstance: nat, shuffled: seq<EntityId>) returns (player: ScenarioPlayer, next: nat)
    requires |shuffled| >= HAND_SIZE + PRIZE_COUNT
    ensures player == Dealt(deck, nextInstance, shuffled)
    ensures next == nextInstance + 1 + |shuffled|
  {
    var instance;
    instance, next := Mint(nextInstance);
    var starter := D.CardRef(instance, deck.starter);
    var body: seq<D.CardRef> := [];
    for k := 0 to |shuffled|
      invariant next == nextInstance + 1 + k
      invariant body == Minted(shuffled, nextInstance + 1)[..k]
    {
      instance, next := Mint(next);
      body := body + [D.CardRef(instance, shuffled[k])];
    }
    var hand, rest := body[..HAND_SIZE], body[HAND_SIZE..];
    var prizes, left := rest[..PRIZE_COUNT], rest[PRIZE_COUNT..];
    player := ScenarioPlayer(left, hand, prizes, [], NoMana(), 0,
      Some(ScenarioSummon([starter], 0, D.Exhausted)), D.BenchOf(None, None, None));
  }

  function Board(decks: D.PerPlayer<Deck>, one: seq<EntityId>, two: seq<EntityId>): Scenario
    requires |one| >= HAND_SIZE + PRIZE_COUNT && |two| >= HAND_SIZE + PRIZE_COUNT
  {
    Scenario(D.PerPlayer(Dealt(decks.one, 1, one), Dealt(decks.two, 2 + |one|, two)), D.One, Some(D.Coin))
  }

  function InitialState(library: CardLibrary, decks: D.PerPlayer<Deck>, one: seq<EntityId>, two: seq<EntityId>)
    : Result<D.GameState, InvalidScenario>
    requires |one| >= HAND_SIZE + PRIZE_COUNT && |two| >= HAND_SIZE + PRIZE_COUNT
  {
    FromScenario(library.coreCards, Board(decks, one, two))
  }

  method OpenMatch(library: CardLibrary, decks: D.PerPlayer<Deck>, shuffler: Shuffler)
    returns (r: Result<D.GameState, InvalidScenario>)
    requires Shuffles(shuffler)
    requires |decks.one.body| == BODY_SIZE && |decks.two.body| == BODY_SIZE
    ensures |shuffler(0, decks.one.body)| == BODY_SIZE && |shuffler(1, decks.two.body)| == BODY_SIZE
    ensures r == InitialState(library, decks, shuffler(0, decks.one.body), shuffler(1, decks.two.body))
  {
    ShuffleKeepsSize(shuffler, 0, decks.one.body);
    ShuffleKeepsSize(shuffler, 1, decks.two.body);
    var next := 1;
    var one, two;
    one, next := Deal(decks.one, next, shuffler(0, decks.one.body));
    two, next := Deal(decks.two, next, shuffler(1, decks.two.body));
    r := ParseScenario(library.coreCards, Scenario(D.PerPlayer(one, two), D.One, Some(D.Coin)));
  }

  lemma ShuffleKeepsSize(shuffler: Shuffler, k: nat, cards: seq<EntityId>)
    requires Shuffles(shuffler)
    ensures |shuffler(k, cards)| == |cards|
  {
    assert |multiset(shuffler(k, cards))| == |multiset(cards)|;
  }

  // ----- What an opening board looks like -----

  function Defs(refs: seq<D.CardRef>): (r: seq<EntityId>)
    ensures |r| == |refs|
  {
    seq(|refs|, k requires 0 <= k < |refs| => refs[k].def)
  }

  /** Hand, prizes and deck hold the Deck's body and nothing else; the starter stands alone on Main. */
  ghost predicate OpeningSide(deck: Deck, shuffled: seq<EntityId>, player: D.PlayerState, owner: D.PlayerId) {
    && |player.hand| == 5 && |player.prizes| == 2 && |player.deck| == 13
    && Defs(player.hand + player.prizes + player.deck) == shuffled
    && multiset(shuffled) == multiset(deck.body)
    && player.main.Some? && OpeningSummon(deck, player.main.value, owner)
    && player.bench == D.BenchOf(None, None, None)
    && player.discard == [] && player.enchantments == [] && player.mainLosses == 0
    && player.mana.matter == player.mana.mind == player.mana.spirit == 0
  }

  /** The starter alone, exhausted, undamaged and under its owner's control. */
  ghost predicate OpeningSummon(deck: Deck, summon: D.SummonInstance, owner: D.PlayerId) {
    && |summon.chain.Layers()| == 1 && summon.chain.base.def == deck.starter
    && summon.damage == 0 && summon.readiness == D.Exhausted
    && summon.owner == summon.controller == owner && summon.durationMarkers == []
  }

  function SideRefs(player: D.PlayerState): seq<D.CardRef>
    requires player.main.Some?
  {
    player.main.value.chain.Layers() + player.hand + player.prizes + player.deck
  }

  /** Forty-two instances in all, each number from 1 to 42 once. */
  ghost predicate NumberedUpTo(refs: seq<D.CardRef>, count: nat) {
    |refs| == count && forall k | 0 <= k < |refs| :: refs[k].instance == k + 1
  }

  lemma DealtRefs(deck: Deck, first: nat, shuffled: seq<EntityId>)
    requires |shuffled| == BODY_SIZE
    ensures var player, minted := Dealt(deck, first, shuffled), Minted(shuffled, first + 1);
            && player.hand + player.prizes + player.deck == minted
            && PlayerCardRefs(player) == minted[7..] + minted[..5] + minted[5..7] + [D.CardRef(first, deck.starter)]
            && Defs(minted) == shuffled
  {
  }

  lemma DealtIsDistinct(deck: Deck, first: nat, shuffled: seq<EntityId>)
    requires |shuffled| == BODY_SIZE
    ensures var refs := PlayerCardRefs(Dealt(deck, first, shuffled));
            && DistinctInstances(refs) && |refs| == 21
            && forall k | 0 <= k < |refs| :: first <= refs[k].instance < first + 21
  {
    DealtRefs(deck, first, shuffled);
    var minted := Minted(shuffled, first + 1);
    var refs := PlayerCardRefs(Dealt(deck, first, shuffled));
    forall k | 0 <= k < 21 ensures refs[k].instance == InstanceAt(first, k) {
      if k < 13 {
        assert refs[k] == minted[k + 7];
      } else if k < 20 {
        assert refs[k] == minted[k - 13];
      }
    }
  }

  /** The instance of the k-th card in board order: deck, hand, prizes, starter. */
  function InstanceAt(first: nat, k: nat): nat {
    if k < 13 then first + 8 + k else if k < 20 then first + k - 12 else first
  }

  lemma DealtIsKnown(cards: D.CardSet, deck: Deck, first: nat, shuffled: seq<EntityId>)
    requires Legal(cards, deck) && multiset(shuffled) == multiset(deck.body) && |shuffled| == BODY_SIZE
    ensures AllKnown(cards, PlayerCardRefs(Dealt(deck, first, shuffled)))
    ensures PlayerStands(cards, Dealt(deck, first, shuffled))
  {
    DealtRefs(deck, first, shuffled);
    var minted := Minted(shuffled, first + 1);
    var refs := PlayerCardRefs(Dealt(deck, first, shuffled));
    forall k | 0 <= k < |minted| ensures cards.Get(minted[k].def).Some? {
      assert shuffled[k] in multiset(shuffled);
      assert shuffled[k] in deck.body;
    }
    forall k | 0 <= k < |refs| ensures cards.Get(refs[k].def).Some? {
      if k < 13 {
        assert refs[k] == minted[k + 7];
      } else if k < 20 {
        assert refs[k] == minted[k - 13];
      }
    }
    assert Climbs(cards, [D.CardRef(first, deck.starter)]);
  }

  /** For legal Decks and any shuffle the opening board is accepted. */
  lemma BoardIsRepresentable(cards: D.CardSet, decks: D.PerPlayer<Deck>, one: seq<EntityId>, two: seq<EntityId>)
    requires Legal(cards, decks.one) && multiset(one) == multiset(decks.one.body) && |one| == BODY_SIZE
    requires Legal(cards, decks.two) && multiset(two) == multiset(decks.two.body) && |two| == BODY_SIZE
    ensures Representable(cards, Board(decks, one, two))
  {
    hide Legal, Dealt, PlayerCardRefs, PlayerStands;
    DealtIsDistinct(decks.one, 1, one);
    DealtIsDistinct(decks.two, 22, two);
    DealtIsKnown(cards, decks.one, 1, one);
    DealtIsKnown(cards, decks.two, 22, two);
    var left, right := PlayerCardRefs(Dealt(decks.one, 1, one)), PlayerCardRefs(Dealt(decks.two, 22, two));
    assert AllCardRefs(Board(decks, one, two)) == left + right;
  }

  lemma SideIsOpening(cards: D.CardSet, deck: Deck, owner: D.PlayerId, first: nat, shuffled: seq<EntityId>)
    requires multiset(shuffled) == multiset(deck.body) && |shuffled| == BODY_SIZE
    requires BuildPlayer(cards, owner, Dealt(deck, first, shuffled)).Ok?
    ensures var player := BuildPlayer(cards, owner, Dealt(deck, first, shuffled)).value;
            && OpeningSide(deck, shuffled, player, owner)
            && |SideRefs(player)| == 21
            && forall k | 0 <= k < 21 :: SideRefs(player)[k].instance == first + k
  {
    DealtRefs(deck, first, shuffled);
    var described := Dealt(deck, first, shuffled);
    var player := BuildPlayer(cards, owner, described).value;
    ChainMeansClimbs(cards, owner, D.Main, described.main.value.chain);
    var minted := Minted(shuffled, first + 1);
    assert player.hand + player.prizes + player.deck == minted;
    assert SideRefs(player) == [D.CardRef(first, deck.starter)] + minted;
  }

  /**
   Whatever two Decks were resolved against whatever converted Sets, and however they are shuffled,
   the opening state exists, deals each side's own cards in their shuffled order to zones of 5, 2 and
   13 around a lone undamaged Base starter, numbers all 42 cards apart, and opens an untouched turn of
   player One with the coin on the table.
   */
  lemma OpeningNeverFails(library: CardLibrary, sets: seq<LoadedSet>, raw: D.PerPlayer<DeckDocument>,
                          shuffler: Shuffler)
    returns (decks: D.PerPlayer<Deck>, one: seq<EntityId>, two: seq<EntityId>)
    requires AssembledFrom(library, sets) && forall loaded <- sets :: Converted(loaded)
    requires Resolve(raw.one, library).Ok? && Resolve(raw.two, library).Ok? && Shuffles(shuffler)
    ensures decks == D.PerPlayer(Resolve(raw.one, library).value, Resolve(raw.two, library).value)
    ensures one == shuffler(0, decks.one.body) && two == shuffler(1, decks.two.body)
    ensures |one| == BODY_SIZE && |two| == BODY_SIZE
    ensures Legal(library.coreCards, decks.one) && Legal(library.coreCards, decks.two)
    ensures InitialState(library, decks, one, two).Ok?
    ensures var state := InitialState(library, decks, one, two).value;
            && OpeningSide(decks.one, one, state.players.one, D.One)
            && OpeningSide(decks.two, two, state.players.two, D.Two)
            && NumberedUpTo(SideRefs(state.players.one) + SideRefs(state.players.two), 42)
            && UntouchedTurn(state.turn, D.One) && state.coin == Some(D.Coin)
            && state.stack == [] && state.stackSegmentBases == [] && state.work == [] && state.pending.None?
            && state.status == D.Playing && state.cards == library.coreCards
  {
    hide AssembledFrom, Converted, Resolve, Legal, Dealt, OpeningSide, BuildPlayer, PlayerCardRefs, SideRefs,
      Representable, SideKept;
    decks := D.PerPlayer(Resolve(raw.one, library).value, Resolve(raw.two, library).value);
    one, two := shuffler(0, decks.one.body), shuffler(1, decks.two.body);
    ResolvedIsLegal(raw.one, library, sets);
    ResolvedIsLegal(raw.two, library, sets);
    LegalSize(library.coreCards, decks.one);
    LegalSize(library.coreCards, decks.two);
    ShuffleKeepsSize(shuffler, 0, decks.one.body);
    ShuffleKeepsSize(shuffler, 1, decks.two.body);
    BoardIsRepresentable(library.coreCards, decks, one, two);
    AcceptsRepresentable(library.coreCards, Board(decks, one, two));
    SideIsOpening(library.coreCards, decks.one, D.One, 1, one);
    SideIsOpening(library.coreCards, decks.two, D.Two, 22, two);
    var state := InitialState(library, decks, one, two).value;
    MainStands(decks.one, one, state.players.one, D.One);
    MainStands(decks.two, two, state.players.two, D.Two);
    ParsedKeepsBoard(library.coreCards, Board(decks, one, two));
  }

  lemma LegalSize(cards: D.CardSet, deck: Deck)
    requires Legal(cards, deck)
    ensures |deck.body| == BODY_SIZE
  {
  }

  lemma MainStands(deck: Deck, shuffled: seq<EntityId>, player: D.PlayerState, owner: D.PlayerId)
    requires OpeningSide(deck, shuffled, player, owner)
    ensures player.main.Some?
  {
  }
}
