/**
 From a described board to a match state: the checks in their order, and the proof that exactly the
 boards with distinct instances, known cards, climbing chains and a Summon each are accepted.
 */
module Scenarios {
  import opened Wrappers
  import opened EntityIds
  import D = Domain

  datatype ScenarioSummon = ScenarioSummon(chain: seq<D.CardRef>, damage: nat, readiness: D.Readiness)

  datatype ScenarioPlayer = ScenarioPlayer(
    deck: seq<D.CardRef>,
    hand: seq<D.CardRef>,
    prizes: seq<D.CardRef>,
    discard: seq<D.CardRef>,
    mana: D.ManaBank,
    mainLosses: nat,
    main: Option<ScenarioSummon>,
    bench: D.Bench<ScenarioSummon>)

  datatype Scenario = Scenario(players: D.PerPlayer<ScenarioPlayer>, activePlayer: D.PlayerId, coin: Option<D.Coin>)

  datatype InvalidScenario =
    | DuplicateCardInstance(instance: nat)
    | UnknownCardDef(def: EntityId)
    | EmptyUpgradeChain(player: D.PlayerId, position: D.Position)
    | IllegalChainOrder(player: D.PlayerId, position: D.Position)
    | NoSummonInPlay(player: D.PlayerId)

  // ----- Every card on the board -----

  function ChainOf(summon: Option<ScenarioSummon>): seq<D.CardRef> {
    match summon
    case Some(present) => present.chain
    case None => []
  }

  function PlayerCardRefs(player: ScenarioPlayer): seq<D.CardRef> {
    player.deck + player.hand + player.prizes + player.discard
    + ChainOf(player.main) + ChainOf(player.bench.first) + ChainOf(player.bench.second) + ChainOf(player.bench.third)
  }

  function AllCardRefs(scenario: Scenario): seq<D.CardRef> {
    PlayerCardRefs(scenario.players.one) + PlayerCardRefs(scenario.players.two)
  }

  /** Every card that lies anywhere on a side, as often as it does. */
  function SideCards(player: ScenarioPlayer): multiset<D.CardRef> {
    multiset(player.deck) + multiset(player.hand) + multiset(player.prizes) + multiset(player.discard)
    + multiset(ChainOf(player.main))
    + multiset(ChainOf(player.bench.first)) + multiset(ChainOf(player.bench.second))
    + multiset(ChainOf(player.bench.third))
  }

  /** The checks see every card of the board, each as often as it is there. */
  lemma EveryCardIsChecked(scenario: Scenario)
    ensures multiset(AllCardRefs(scenario)) == SideCards(scenario.players.one) + SideCards(scenario.players.two)
  {
    hide ChainOf;
  }

  /** The first instance met again after those already seen. */
  function FirstRepeat(refs: seq<D.CardRef>, seen: set<nat>): Option<nat> {
    if refs == [] then None
    else if refs[0].instance in seen then Some(refs[0].instance)
    else FirstRepeat(refs[1..], seen + {refs[0].instance})
  }

  function FirstUnknown(cards: D.CardSet, refs: seq<D.CardRef>): Option<EntityId> {
    if refs == [] then None
    else if cards.Get(refs[0].def).None? then Some(refs[0].def)
    else FirstUnknown(cards, refs[1..])
  }

  method CheckNoDuplicateInstances(scenario: Scenario) returns (r: Result<(), InvalidScenario>)
    ensures var repeat := FirstRepeat(AllCardRefs(scenario), {});
            r == if repeat.Some? then Err(DuplicateCardInstance(repeat.value)) else Ok(())
  {
    var refs, seen: set<nat> := AllCardRefs(scenario), {};
    for k := 0 to |refs|
      invariant FirstRepeat(refs[k..], seen) == FirstRepeat(refs, {})
    {
      if refs[k].instance in seen { return Err(DuplicateCardInstance(refs[k].instance)); }
      seen := seen + {refs[k].instance};
    }
    return Ok(());
  }

  method CheckEveryDefKnown(cards: D.CardSet, scenario: Scenario) returns (r: Result<(), InvalidScenario>)
    ensures var unknown := FirstUnknown(cards, AllCardRefs(scenario));
            r == if unknown.Some? then Err(UnknownCardDef(unknown.value)) else Ok(())
  {
    var refs := AllCardRefs(scenario);
    for k := 0 to |refs|
      invariant FirstUnknown(cards, refs[k..]) == FirstUnknown(cards, refs)
    {
      if cards.Get(refs[k].def).None? { return Err(UnknownCardDef(refs[k].def)); }
    }
    return Ok(());
  }

  // ----- Chains -----

  function Rank(form: D.Form): nat {
    match form
    case Base => 0
    case Enhanced => 1
    case Elite => 2
  }

  function FormOf(cards: D.CardSet, card: D.CardRef, player: D.PlayerId, position: D.Position)
    : Result<D.Form, InvalidScenario>
  {
    match cards.Get(card.def)
    case None => Err(UnknownCardDef(card.def))
    case Some(entity) =>
      match entity.form
      case None => Err(IllegalChainOrder(player, position))
      case Some(form) => Ok(form)
  }

  /** Checks that the rest of a chain climbs on from a Form. */
  function Climb(cards: D.CardSet, player: D.PlayerId, position: D.Position, previous: D.Form, rest: seq<D.CardRef>)
    : Result<(), InvalidScenario>
    decreases |rest|
  {
    if rest == [] then Ok(())
    else
      var form :- FormOf(cards, rest[0], player, position);
      if Rank(form) <= Rank(previous) then Err(IllegalChainOrder(player, position))
      else Climb(cards, player, position, form, rest[1..])
  }

  function BuildChain(cards: D.CardSet, player: D.PlayerId, position: D.Position, refs: seq<D.CardRef>)
    : Result<D.UpgradeChain, InvalidScenario>
  {
    if refs == [] then Err(EmptyUpgradeChain(player, position))
    else
      var first :- FormOf(cards, refs[0], player, position);
      var _ :- Climb(cards, player, position, first, refs[1..]);
      Ok(D.UpgradeChain(refs[0], refs[1..]))
  }

  method BuildUpgradeChain(cards: D.CardSet, player: D.PlayerId, position: D.Position, refs: seq<D.CardRef>)
    returns (r: Result<D.UpgradeChain, InvalidScenario>)
    ensures r == BuildChain(cards, player, position, refs)
  {
    if refs == [] { return Err(EmptyUpgradeChain(player, position)); }
    var base, rest := refs[0], refs[1..];
    var previous :- FormOf(cards, base, player, position);
    ghost var first := previous;
    for k := 0 to |rest|
      invariant Climb(cards, player, position, previous, rest[k..]) == Climb(cards, player, position, first, rest)
    {
      assert rest[k..][1..] == rest[k + 1..];
      var form :- FormOf(cards, rest[k], player, position);
      if Rank(form) <= Rank(previous) { return Err(IllegalChainOrder(player, position)); }
      previous := form;
    }
    return Ok(D.UpgradeChain(base, rest));
  }

  // ----- Players and the whole board -----

  function FreshTurn(): D.SummonTurnRecord {
    D.SummonTurnRecord(D.Available, None)
  }

  function BuildSummon(cards: D.CardSet, player: D.PlayerId, position: D.Position, summon: ScenarioSummon)
    : Result<D.SummonInstance, InvalidScenario>
  {
    var chain :- BuildChain(cards, player, position, summon.chain);
    Ok(D.SummonInstance(chain, summon.damage, summon.readiness, player, player, [], FreshTurn()))
  }

  function BuildOptional(cards: D.CardSet, player: D.PlayerId, position: D.Position, summon: Option<ScenarioSummon>)
    : Result<Option<D.SummonInstance>, InvalidScenario>
  {
    match summon
    case None => Ok(None)
    case Some(present) =>
      var built :- BuildSummon(cards, player, position, present);
      Ok(Some(built))
  }

  function BuildPlayer(cards: D.CardSet, player: D.PlayerId, described: ScenarioPlayer)
    : Result<D.PlayerState, InvalidScenario>
  {
    var main :- BuildOptional(cards, player, D.Main, described.main);
    var first :- BuildOptional(cards, player, D.Position.Bench(D.First), described.bench.first);
    var second :- BuildOptional(cards, player, D.Position.Bench(D.Second), described.bench.second);
    var third :- BuildOptional(cards, player, D.Position.Bench(D.Third), described.bench.third);
    if main.None? && first.None? && second.None? && third.None? then Err(NoSummonInPlay(player))
    else
      Ok(D.PlayerState(main, D.BenchOf(first, second, third), described.deck, described.hand, described.prizes,
        described.discard, described.mana, described.mainLosses, []))
  }

  function DerivePending(players: D.PerPlayer<D.PlayerState>): Option<D.PendingInput> {
    if players.one.main.None? then Some(D.Promotion(D.One))
    else if players.two.main.None? then Some(D.Promotion(D.Two))
    else None
  }

  function BoardState(cards: D.CardSet, scenario: Scenario, players: D.PerPlayer<D.PlayerState>): D.GameState {
    D.GameState(players, scenario.coin,
      D.TurnState(scenario.activePlayer, D.MainPhase, None, false, false, D.PerPlayer(false, false)),
      [], [], [], DerivePending(players), D.Playing, cards)
  }

  function FromScenario(cards: D.CardSet, scenario: Scenario): Result<D.GameState, InvalidScenario> {
    var refs := AllCardRefs(scenario);
    var repeat := FirstRepeat(refs, {});
    if repeat.Some? then Err(DuplicateCardInstance(repeat.value))
    else
      var unknown := FirstUnknown(cards, refs);
      if unknown.Some? then Err(UnknownCardDef(unknown.value))
      else
        var one :- BuildPlayer(cards, D.One, scenario.players.one);
        var two :- BuildPlayer(cards, D.Two, scenario.players.two);
        Ok(BoardState(cards, scenario, D.PerPlayer(one, two)))
  }

  method BuildOccupant(cards: D.CardSet, player: D.PlayerId, position: D.Position, summon: Option<ScenarioSummon>)
    returns (r: Result<Option<D.SummonInstance>, InvalidScenario>)
    ensures r == BuildOptional(cards, player, position, summon)
  {
    if summon.None? { return Ok(None); }
    var chain :- BuildUpgradeChain(cards, player, position, summon.value.chain);
    return Ok(Some(D.SummonInstance(chain, summon.value.damage, summon.value.readiness, player, player, [],
      FreshTurn())));
  }

  method BuildPlayerState(cards: D.CardSet, player: D.PlayerId, described: ScenarioPlayer)
    returns (r: Result<D.PlayerState, InvalidScenario>)
    ensures r == BuildPlayer(cards, player, described)
  {
    hide BuildOptional;
    var main :- BuildOccupant(cards, player, D.Main, described.main);
    var bench: D.Bench<D.SummonInstance> := D.BenchOf(None, None, None);
    var occupant :- BuildOccupant(cards, player, D.Position.Bench(D.First), described.bench.first);
    bench := bench.(first := occupant);
    occupant :- BuildOccupant(cards, player, D.Position.Bench(D.Second), described.bench.second);
    bench := bench.(second := occupant);
    occupant :- BuildOccupant(cards, player, D.Position.Bench(D.Third), described.bench.third);
    bench := bench.(third := occupant);
    if main.None? && bench == D.BenchOf(None, None, None) { return Err(NoSummonInPlay(player)); }
    return Ok(D.PlayerState(main, bench, described.deck, described.hand, described.prizes, described.discard,
      described.mana, described.mainLosses, []));
  }

  method ParseScenario(cards: D.CardSet, scenario: Scenario) returns (r: Result<D.GameState, InvalidScenario>)
    ensures r == FromScenario(cards, scenario)
  {
    hide BuildPlayer, FirstRepeat, FirstUnknown, AllCardRefs;
    var _ :- CheckNoDuplicateInstances(scenario);
    var _ :- CheckEveryDefKnown(cards, scenario);
    var one :- BuildPlayerState(cards, D.One, scenario.players.one);
    var two :- BuildPlayerState(cards, D.Two, scenario.players.two);
    return Ok(BoardState(cards, scenario, D.PerPlayer(one, two)));
  }

  // ----- Exactly these boards are accepted -----

  ghost predicate DistinctInstances(refs: seq<D.CardRef>) {
    forall j, k | 0 <= j < k < |refs| :: refs[j].instance != refs[k].instance
  }

  ghost predicate AllKnown(cards: D.CardSet, refs: seq<D.CardRef>) {
    forall k | 0 <= k < |refs| :: cards.Get(refs[k].def).Some?
  }

  ghost predicate PrintsForm(cards: D.CardSet, card: D.CardRef) {
    cards.Get(card.def).Some? && cards.Get(card.def).value.form.Some?
  }

  function PrintedForm(cards: D.CardSet, card: D.CardRef): D.Form
    requires PrintsForm(cards, card)
  {
    cards.Get(card.def).value.form.value
  }

  /** Base before Enhanced before Elite. */
  predicate Above(lower: D.Form, upper: D.Form) {
    (lower.Base? && !upper.Base?) || (lower.Enhanced? && upper.Elite?)
  }

  /** A chain with cards in it, all printing Forms, each above the one before. */
  ghost predicate Climbs(cards: D.CardSet, chain: seq<D.CardRef>) {
    && chain != []
    && (forall k | 0 <= k < |chain| :: PrintsForm(cards, chain[k]))
    && (forall k | 0 < k < |chain| :: Above(PrintedForm(cards, chain[k - 1]), PrintedForm(cards, chain[k])))
  }

  ghost predicate Stands(cards: D.CardSet, summon: Option<ScenarioSummon>) {
    summon.Some? ==> Climbs(cards, summon.value.chain)
  }

  ghost predicate PlayerStands(cards: D.CardSet, player: ScenarioPlayer) {
    && Stands(cards, player.main) && Stands(cards, player.bench.first) && Stands(cards, player.bench.second)
    && Stands(cards, player.bench.third)
    && (player.main.Some? || player.bench.first.Some? || player.bench.second.Some? || player.bench.third.Some?)
  }

  ghost predicate Representable(cards: D.CardSet, scenario: Scenario) {
    && DistinctInstances(AllCardRefs(scenario))
    && AllKnown(cards, AllCardRefs(scenario))
    && PlayerStands(cards, scenario.players.one)
    && PlayerStands(cards, scenario.players.two)
  }

  lemma {:induction false} RepeatsAreFound(refs: seq<D.CardRef>, seen: set<nat>)
    ensures FirstRepeat(refs, seen).None? <==>
            DistinctInstances(refs) && forall k | 0 <= k < |refs| :: refs[k].instance !in seen
  {
    if refs != [] && refs[0].instance !in seen {
      RepeatsAreFound(refs[1..], seen + {refs[0].instance});
      if FirstRepeat(refs, seen).None? {
        forall j, k | 0 <= j < k < |refs| ensures refs[j].instance != refs[k].instance {
          assert refs[k] == refs[1..][k - 1];
          assert j > 0 ==> refs[j] == refs[1..][j - 1];
        }
        forall k | 0 <= k < |refs| ensures refs[k].instance !in seen {
          assert k > 0 ==> refs[k] == refs[1..][k - 1];
        }
      }
    }
  }

  lemma {:induction false} UnknownsAreFound(cards: D.CardSet, refs: seq<D.CardRef>)
    ensures FirstUnknown(cards, refs).None? <==> AllKnown(cards, refs)
  {
    if refs != [] {
      UnknownsAreFound(cards, refs[1..]);
      if AllKnown(cards, refs[1..]) && cards.Get(refs[0].def).Some? {
        forall k | 0 <= k < |refs| ensures cards.Get(refs[k].def).Some? {
          assert k > 0 ==> refs[k] == refs[1..][k - 1];
        }
      }
    }
  }

  /** A chain climbs when its first card does and the rest climbs on above it. */
  lemma ClimbsCons(cards: D.CardSet, first: D.CardRef, rest: seq<D.CardRef>)
    requires PrintsForm(cards, first) && rest != []
    ensures Climbs(cards, [first] + rest) <==>
            && PrintsForm(cards, rest[0]) && Above(PrintedForm(cards, first), PrintedForm(cards, rest[0]))
            && Climbs(cards, rest)
  {
    hide PrintsForm, PrintedForm;
    var chain := [first] + rest;
    assert forall k | 0 < k < |chain| :: chain[k] == rest[k - 1];
    if Climbs(cards, chain) {
      assert PrintsForm(cards, chain[1]) && Above(PrintedForm(cards, chain[0]), PrintedForm(cards, chain[1]));
      forall k | 0 <= k < |rest| ensures PrintsForm(cards, rest[k]) {
        assert chain[k + 1] == rest[k];
      }
      forall k | 0 < k < |rest| ensures Above(PrintedForm(cards, rest[k - 1]), PrintedForm(cards, rest[k])) {
        assert chain[k] == rest[k - 1] && chain[k + 1] == rest[k];
      }
    }
    if && PrintsForm(cards, rest[0]) && Above(PrintedForm(cards, first), PrintedForm(cards, rest[0]))
       && Climbs(cards, rest) {
      forall k | 0 <= k < |chain| ensures PrintsForm(cards, chain[k]) {
        assert k > 0 ==> chain[k] == rest[k - 1];
      }
      forall k | 0 < k < |chain| ensures Above(PrintedForm(cards, chain[k - 1]), PrintedForm(cards, chain[k])) {
        assert chain[k] == rest[k - 1];
        assert k > 1 ==> chain[k - 1] == rest[k - 2];
      }
    }
  }

  lemma {:induction false} ClimbMeansClimbs(cards: D.CardSet, player: D.PlayerId, position: D.Position,
                                            first: D.CardRef, rest: seq<D.CardRef>)
    requires PrintsForm(cards, first)
    ensures Climb(cards, player, position, cards.Get(first.def).value.form.value, rest).Ok? <==>
            Climbs(cards, [first] + rest)
    decreases |rest|
  {
    if rest == [] {
      assert Climbs(cards, [first]) && [first] + rest == [first];
    } else {
      hide Climbs;
      ClimbsCons(cards, first, rest);
      if PrintsForm(cards, rest[0]) {
        ClimbMeansClimbs(cards, player, position, rest[0], rest[1..]);
        assert [rest[0]] + rest[1..] == rest;
      }
    }
  }

  lemma ChainMeansClimbs(cards: D.CardSet, player: D.PlayerId, position: D.Position, refs: seq<D.CardRef>)
    ensures BuildChain(cards, player, position, refs).Ok? <==> Climbs(cards, refs)
    ensures BuildChain(cards, player, position, refs).Ok? ==>
            BuildChain(cards, player, position, refs).value.Layers() == refs
  {
    if refs != [] {
      assert [refs[0]] + refs[1..] == refs;
      if PrintsForm(cards, refs[0]) {
        ClimbMeansClimbs(cards, player, position, refs[0], refs[1..]);
      }
    }
  }

  lemma OccupantStands(cards: D.CardSet, player: D.PlayerId, position: D.Position, summon: Option<ScenarioSummon>)
    ensures BuildOptional(cards, player, position, summon).Ok? <==> Stands(cards, summon)
    ensures BuildOptional(cards, player, position, summon).Ok? ==>
              (BuildOptional(cards, player, position, summon).value.Some? <==> summon.Some?)
  {
    if summon.Some? {
      ChainMeansClimbs(cards, player, position, summon.value.chain);
    }
  }

  lemma PlayerIsBuilt(cards: D.CardSet, player: D.PlayerId, described: ScenarioPlayer)
    ensures BuildPlayer(cards, player, described).Ok? <==> PlayerStands(cards, described)
  {
    hide BuildOptional, Stands;
    OccupantStands(cards, player, D.Main, described.main);
    OccupantStands(cards, player, D.Position.Bench(D.First), described.bench.first);
    OccupantStands(cards, player, D.Position.Bench(D.Second), described.bench.second);
    OccupantStands(cards, player, D.Position.Bench(D.Third), described.bench.third);
  }

  /** Parsing accepts exactly the boards it can interpret. */
  lemma AcceptsRepresentable(cards: D.CardSet, scenario: Scenario)
    ensures FromScenario(cards, scenario).Ok? <==> Representable(cards, scenario)
    ensures FromScenario(cards, scenario).Ok? ==>
              && FromScenario(cards, scenario).value.status == D.Playing
              && FromScenario(cards, scenario).value.stackSegmentBases == []
              && FromScenario(cards, scenario).value.cards == cards
  {
    hide AllCardRefs, BuildPlayer, PlayerStands, DistinctInstances, AllKnown, FirstUnknown, FirstRepeat;
    RepeatsAreFound(AllCardRefs(scenario), {});
    UnknownsAreFound(cards, AllCardRefs(scenario));
    PlayerIsBuilt(cards, D.One, scenario.players.one);
    PlayerIsBuilt(cards, D.Two, scenario.players.two);
  }

  ghost predicate SummonKept(described: Option<ScenarioSummon>, built: Option<D.SummonInstance>, owner: D.PlayerId) {
    && (described.Some? <==> built.Some?)
    && (described.Some? ==>
          && built.value.chain.Layers() == described.value.chain
          && built.value.damage == described.value.damage && built.value.readiness == described.value.readiness
          && built.value.owner == built.value.controller == owner
          && built.value.durationMarkers == []
          && built.value.turn.upgrade == D.Available && built.value.turn.mainEntry.None?)
  }

  ghost predicate SideKept(described: ScenarioPlayer, built: D.PlayerState, owner: D.PlayerId) {
    && SummonKept(described.main, built.main, owner)
    && SummonKept(described.bench.first, built.bench.first, owner)
    && SummonKept(described.bench.second, built.bench.second, owner)
    && SummonKept(described.bench.third, built.bench.third, owner)
    && built.deck == described.deck && built.hand == described.hand && built.prizes == described.prizes
    && built.discard == described.discard && built.mana == described.mana
    && built.mainLosses == described.mainLosses && built.enchantments == []
  }

  lemma OccupantKept(cards: D.CardSet, owner: D.PlayerId, position: D.Position, described: Option<ScenarioSummon>)
    requires BuildOptional(cards, owner, position, described).Ok?
    ensures SummonKept(described, BuildOptional(cards, owner, position, described).value, owner)
  {
    if described.Some? {
      ChainMeansClimbs(cards, owner, position, described.value.chain);
    }
  }

  lemma SideIsKept(cards: D.CardSet, owner: D.PlayerId, described: ScenarioPlayer)
    requires BuildPlayer(cards, owner, described).Ok?
    ensures SideKept(described, BuildPlayer(cards, owner, described).value, owner)
  {
    hide BuildOptional, SummonKept;
    OccupantKept(cards, owner, D.Main, described.main);
    OccupantKept(cards, owner, D.Position.Bench(D.First), described.bench.first);
    OccupantKept(cards, owner, D.Position.Bench(D.Second), described.bench.second);
    OccupantKept(cards, owner, D.Position.Bench(D.Third), described.bench.third);
  }

  /** A turn in its Main phase in which nothing has been done yet. */
  predicate UntouchedTurn(turn: D.TurnState, player: D.PlayerId) {
    && turn.activePlayer == player && turn.phase == D.MainPhase && turn.window.None?
    && !turn.normalAttackUsed && !turn.normalRetreatUsed
    && !turn.spellPlayedThisTurn.one && !turn.spellPlayedThisTurn.two
  }

  /**
   An accepted board is kept card for card and opens an untouched turn, and an empty Main alone
   pauses it, on the first such side.
   */
  lemma ParsedKeepsBoard(cards: D.CardSet, scenario: Scenario)
    requires FromScenario(cards, scenario).Ok?
    ensures var state := FromScenario(cards, scenario).value;
            && SideKept(scenario.players.one, state.players.one, D.One)
            && SideKept(scenario.players.two, state.players.two, D.Two)
            && UntouchedTurn(state.turn, scenario.activePlayer) && state.coin == scenario.coin
            && state.stack == [] && state.stackSegmentBases == [] && state.work == []
            && state.status == D.Playing && state.cards == cards
            && (state.pending.None? <==> scenario.players.one.main.Some? && scenario.players.two.main.Some?)
            && (forall player :: state.pending == Some(D.Promotion(player)) <==>
                  (player == D.One && scenario.players.one.main.None?) ||
                  (player == D.Two && scenario.players.one.main.Some? && scenario.players.two.main.None?))
  {
    hide BuildPlayer, AllCardRefs, FirstRepeat, FirstUnknown;
    SideIsKept(cards, D.One, scenario.players.one);
    SideIsKept(cards, D.Two, scenario.players.two);
  }

  // ----- What a refusal says -----

  function SummonAt(player: ScenarioPlayer, position: D.Position): Option<ScenarioSummon> {
    match position
    case Main => player.main
    case Bench(First) => player.bench.first
    case Bench(Second) => player.bench.second
    case Bench(Third) => player.bench.third
  }

  function SideOf(scenario: Scenario, player: D.PlayerId): ScenarioPlayer {
    match player
    case One => scenario.players.one
    case Two => scenario.players.two
  }

  /** The first card in board order whose instance was met before is card k. */
  ghost predicate RepeatsFirstAt(refs: seq<D.CardRef>, instance: nat, k: nat) {
    && k < |refs| && refs[k].instance == instance && DistinctInstances(refs[..k])
    && exists j | 0 <= j < k :: refs[j].instance == instance
  }

  ghost predicate UnknownFirstAt(cards: D.CardSet, refs: seq<D.CardRef>, def: EntityId, k: nat) {
    && k < |refs| && refs[k].def == def && cards.Get(def).None? && AllKnown(cards, refs[..k])
  }

  /** What the error names is wrong with the board, and what is checked before it is in order. */
  ghost predicate IsWrong(cards: D.CardSet, scenario: Scenario, error: InvalidScenario) {
    var refs := AllCardRefs(scenario);
    match error
    case DuplicateCardInstance(instance) => exists k :: RepeatsFirstAt(refs, instance, k)
    case UnknownCardDef(def) => DistinctInstances(refs) && exists k :: UnknownFirstAt(cards, refs, def, k)
    case EmptyUpgradeChain(player, position) =>
      && DistinctInstances(refs) && AllKnown(cards, refs)
      && var summon := SummonAt(SideOf(scenario, player), position);
         summon.Some? && summon.value.chain == []
    case IllegalChainOrder(player, position) =>
      && DistinctInstances(refs) && AllKnown(cards, refs)
      && var summon := SummonAt(SideOf(scenario, player), position);
         summon.Some? && summon.value.chain != [] && !Climbs(cards, summon.value.chain)
    case NoSummonInPlay(player) =>
      && DistinctInstances(refs) && AllKnown(cards, refs)
      && forall position :: SummonAt(SideOf(scenario, player), position).None?
  }

  lemma {:induction false} FindsFirstRepeat(refs: seq<D.CardRef>, seen: set<nat>, k: nat)
    requires k <= |refs| && DistinctInstances(refs[..k]) && (set card <- refs[..k] :: card.instance) == seen
    ensures var repeat := FirstRepeat(refs[k..], seen);
            repeat.Some? ==> exists at :: RepeatsFirstAt(refs, repeat.value, at)
    decreases |refs| - k
  {
    if k < |refs| {
      var card, before := refs[k], refs[..k];
      if card.instance in seen {
        var earlier :| earlier in before && earlier.instance == card.instance;
        var j :| 0 <= j < k && before[j] == earlier;
        assert refs[j].instance == card.instance;
        assert RepeatsFirstAt(refs, card.instance, k);
      } else {
        assert refs[..k + 1] == before + [card];
        assert forall j | 0 <= j < k :: before[j] in before;
        FindsFirstRepeat(refs, seen + {card.instance}, k + 1);
      }
    }
  }

  lemma {:induction false} FindsFirstUnknown(cards: D.CardSet, refs: seq<D.CardRef>, k: nat)
    requires k <= |refs| && AllKnown(cards, refs[..k])
    ensures var unknown := FirstUnknown(cards, refs[k..]);
            unknown.Some? ==> exists at :: UnknownFirstAt(cards, refs, unknown.value, at)
    decreases |refs| - k
  {
    if k < |refs| {
      if cards.Get(refs[k].def).None? {
        assert UnknownFirstAt(cards, refs, refs[k].def, k);
      } else {
        FindsFirstUnknown(cards, refs, k + 1);
      }
    }
  }

  lemma {:induction false} ClimbRefuses(cards: D.CardSet, player: D.PlayerId, position: D.Position, previous: D.Form,
                                        rest: seq<D.CardRef>)
    requires AllKnown(cards, rest)
    ensures var climbed := Climb(cards, player, position, previous, rest);
            climbed.Err? ==> climbed.error == IllegalChainOrder(player, position)
    decreases |rest|
  {
    if rest != [] {
      assert AllKnown(cards, rest[1..]) by {
        assert forall k | 0 <= k < |rest| - 1 :: rest[1..][k] == rest[k + 1];
      }
      var form := FormOf(cards, rest[0], player, position);
      if form.Ok? {
        ClimbRefuses(cards, player, position, form.value, rest[1..]);
      }
    }
  }

  lemma OccupantRefuses(cards: D.CardSet, player: D.PlayerId, position: D.Position, summon: Option<ScenarioSummon>)
    requires AllKnown(cards, ChainOf(summon)) && BuildOptional(cards, player, position, summon).Err?
    ensures var error := BuildOptional(cards, player, position, summon).error;
            if summon.value.chain == [] then error == EmptyUpgradeChain(player, position)
            else error == IllegalChainOrder(player, position) && !Climbs(cards, summon.value.chain)
  {
    var chain := summon.value.chain;
    ChainMeansClimbs(cards, player, position, chain);
    if chain != [] {
      var first := FormOf(cards, chain[0], player, position);
      if first.Ok? {
        assert AllKnown(cards, chain[1..]) by {
          assert forall k | 0 <= k < |chain| - 1 :: chain[1..][k] == chain[k + 1];
        }
        ClimbRefuses(cards, player, position, first.value, chain[1..]);
      }
    }
  }

  lemma KnownParts(cards: D.CardSet, scenario: Scenario, owner: D.PlayerId)
    requires AllKnown(cards, AllCardRefs(scenario))
    ensures forall position :: AllKnown(cards, ChainOf(SummonAt(SideOf(scenario, owner), position)))
  {
    var all, side := AllCardRefs(scenario), SideOf(scenario, owner);
    forall position ensures AllKnown(cards, ChainOf(SummonAt(side, position))) {
      var chain := ChainOf(SummonAt(side, position));
      forall k | 0 <= k < |chain| ensures cards.Get(chain[k].def).Some? {
        assert chain[k] in PlayerCardRefs(side);
        assert chain[k] in all;
      }
    }
  }

  lemma OccupantIsWrong(cards: D.CardSet, scenario: Scenario, owner: D.PlayerId, position: D.Position)
    requires DistinctInstances(AllCardRefs(scenario)) && AllKnown(cards, AllCardRefs(scenario))
    ensures var summon := SummonAt(SideOf(scenario, owner), position);
            var built := BuildOptional(cards, owner, position, summon);
            && (built.Err? ==> IsWrong(cards, scenario, built.error))
            && (built == Ok(None) ==> summon.None?)
  {
    KnownParts(cards, scenario, owner);
    hide AllCardRefs, DistinctInstances, AllKnown, Climbs, BuildOptional;
    var summon := SummonAt(SideOf(scenario, owner), position);
    OccupantStands(cards, owner, position, summon);
    if BuildOptional(cards, owner, position, summon).Err? {
      EmptySeatStands(cards, owner, position);
      OccupantRefuses(cards, owner, position, summon);
    }
  }

  lemma EmptySeatStands(cards: D.CardSet, player: D.PlayerId, position: D.Position)
    ensures BuildOptional(cards, player, position, None).Ok?
  {
  }

  lemma SideRefuses(cards: D.CardSet, scenario: Scenario, owner: D.PlayerId)
    requires DistinctInstances(AllCardRefs(scenario)) && AllKnown(cards, AllCardRefs(scenario))
    requires BuildPlayer(cards, owner, SideOf(scenario, owner)).Err?
    ensures IsWrong(cards, scenario, BuildPlayer(cards, owner, SideOf(scenario, owner)).error)
  {
    hide AllCardRefs, DistinctInstances, AllKnown, BuildOptional, IsWrong;
    OccupantIsWrong(cards, scenario, owner, D.Main);
    OccupantIsWrong(cards, scenario, owner, D.Position.Bench(D.First));
    OccupantIsWrong(cards, scenario, owner, D.Position.Bench(D.Second));
    OccupantIsWrong(cards, scenario, owner, D.Position.Bench(D.Third));
    var side := SideOf(scenario, owner);
    if side.main.None? && side.bench == D.BenchOf(None, None, None) {
      NobodyStands(cards, scenario, owner);
    }
  }

  lemma NobodyStands(cards: D.CardSet, scenario: Scenario, owner: D.PlayerId)
    requires DistinctInstances(AllCardRefs(scenario)) && AllKnown(cards, AllCardRefs(scenario))
    requires var side := SideOf(scenario, owner); side.main.None? && side.bench == D.BenchOf(None, None, None)
    ensures IsWrong(cards, scenario, NoSummonInPlay(owner))
  {
    hide AllCardRefs, DistinctInstances, AllKnown;
  }

  /** A refused board has the very fault the error names, and none that is looked for earlier. */
  lemma RefusalIsTrue(cards: D.CardSet, scenario: Scenario)
    requires FromScenario(cards, scenario).Err?
    ensures IsWrong(cards, scenario, FromScenario(cards, scenario).error)
  {
    hide AllCardRefs, BuildPlayer, DistinctInstances, AllKnown, Climbs, FirstRepeat, FirstUnknown;
    var refs := AllCardRefs(scenario);
    RepeatsAreFound(refs, {});
    UnknownsAreFound(cards, refs);
    NothingYet(cards, refs);
    FindsFirstRepeat(refs, {}, 0);
    FindsFirstUnknown(cards, refs, 0);
    if DistinctInstances(refs) && AllKnown(cards, refs) {
      if BuildPlayer(cards, D.One, scenario.players.one).Err? {
        SideRefuses(cards, scenario, D.One);
      } else {
        SideRefuses(cards, scenario, D.Two);
      }
    }
  }

  lemma NothingYet(cards: D.CardSet, refs: seq<D.CardRef>)
    ensures refs[0..] == refs && refs[..0] == []
    ensures DistinctInstances(refs[..0]) && AllKnown(cards, refs[..0])
  {
  }
}
