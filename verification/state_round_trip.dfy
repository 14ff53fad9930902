/**
 The state projection loses nothing that a rebuild can express: a state comes back whole exactly
 when its status is one a rebuild can name, and a rebuilt projection is reproduced exactly when
 every entity id in it is canonical text.
 */
module StateRoundTrip {
  import opened Wrappers
  import opened EntityIds
  import opened Sequences
  import opened WireState
  import opened StateProjection
  import D = Domain

  // ----- From a state to the wire and back -----

  lemma IdRoundTrip(id: EntityId)
    ensures IdFromWire(Display(id)) == Ok(id)
  {
    ParseUndoesDisplay(id);
  }

  lemma CardsRoundTrip(cards: seq<D.CardRef>)
    ensures CardsFromWire(CardsToWire(cards)) == Ok(cards)
  {
    forall k | 0 <= k < |cards| ensures CardFromWire(CardToWire(cards[k])) == Ok(cards[k]) {
      IdRoundTrip(cards[k].def);
    }
    TryMapUndoesMap(CardToWire, CardFromWire, cards);
  }

  lemma ChainRoundTrip(chain: D.UpgradeChain)
    ensures ChainFromWire(ChainToWire(chain)) == Ok(chain)
  {
    var layers := ChainToWire(chain).layers;
    assert layers[0] == CardToWire(chain.base);
    assert layers[1..] == CardsToWire(chain.rest);
    IdRoundTrip(chain.base.def);
    CardsRoundTrip(chain.rest);
  }

  lemma MarkersRoundTrip(markers: seq<D.DurationMarker>)
    ensures MapSeq(MarkerFromWire, MapSeq(MarkerToWire, markers)) == markers
  {
    forall k | 0 <= k < |markers| ensures MarkerFromWire(MarkerToWire(markers[k])) == markers[k] {
    }
  }

  lemma SummonRoundTrip(summon: D.SummonInstance)
    ensures SummonFromWire(SummonToWire(summon)) == Ok(summon)
  {
    hide ChainToWire, ChainFromWire;
    ChainRoundTrip(summon.chain);
    MarkersRoundTrip(summon.durationMarkers);
    match summon.turn.mainEntry {
      case None =>
      case Some(EnteredMain) =>
    }
  }

  lemma SummonOptionRoundTrip(summon: Option<D.SummonInstance>)
    ensures TryOption(SummonFromWire, MapOption(SummonToWire, summon)) == Ok(summon)
  {
    if summon.Some? {
      SummonRoundTrip(summon.value);
    }
  }

  lemma PlayerStateRoundTrip(player: D.PlayerState)
    ensures PlayerStateFromWire(PlayerStateToWire(player)) == Ok(player)
  {
    SummonOptionRoundTrip(player.main);
    SummonOptionRoundTrip(player.bench.first);
    SummonOptionRoundTrip(player.bench.second);
    SummonOptionRoundTrip(player.bench.third);
    CardsRoundTrip(player.deck);
    CardsRoundTrip(player.hand);
    CardsRoundTrip(player.prizes);
    CardsRoundTrip(player.discard);
    CardsRoundTrip(player.enchantments);
  }

  lemma ConstraintsRoundTrip(constraints: D.DamageConstraints)
    ensures ConstraintsFromWire(ConstraintsToWire(constraints)) == constraints
  {
    var mask: bv8 := constraints;
    assert mask & 0xFC == 0 ==>
        (if mask & 1 != 0 then 1 else 0) | (if mask & 2 != 0 then 2 else 0) == mask;
  }

  lemma LeafRoundTrip(leaf: D.EffectLeaf)
    ensures LeafFromWire(LeafToWire(leaf)) == leaf
  {
    if leaf.DealDamage? {
      ConstraintsRoundTrip(leaf.damage.constraints);
      assert MapSeq(AdditionFromWire, MapSeq(AdditionToWire, leaf.damage.additions)) == leaf.damage.additions;
    }
  }

  lemma PositionsRoundTrip(positions: seq<D.Position>)
    ensures MapSeq(PositionFromWire, MapSeq(PositionToWire, positions)) == positions
  {
  }

  lemma LeavesRoundTrip(effects: seq<D.EffectLeaf>)
    ensures MapSeq(LeafFromWire, MapSeq(LeafToWire, effects)) == effects
  {
    hide LeafFromWire, LeafToWire;
    forall k | 0 <= k < |effects| ensures LeafFromWire(LeafToWire(effects[k])) == effects[k] {
      LeafRoundTrip(effects[k]);
    }
  }

  lemma StackItemRoundTrip(item: D.StackItem)
    ensures StackItemFromWire(StackItemToWire(item)) == Ok(item)
  {
    hide LeafFromWire, LeafToWire, Display, Parse;
    match item
    case AttackItem(_, _) =>
    case SpellItem(_, card, targets) =>
      IdRoundTrip(card.def);
      PositionsRoundTrip(targets);
    case TriggerItem(_, _, ability, _, targets, effects) =>
      IdRoundTrip(ability);
      PositionsRoundTrip(targets);
      LeavesRoundTrip(effects);
  }

  lemma ManaSourceRoundTrip(source: D.ManaSource)
    ensures ManaSourceFromWire(ManaSourceToWire(source)) == source
  {
    match source
    case PlayerSource =>
    case SummonSource(position) => assert PositionFromWire(PositionToWire(position)) == position;
  }

  lemma WorkRoundTrip(item: D.WorkItem)
    ensures WorkFromWire(WorkToWire(item)) == Ok(item)
  {
    hide IdFromWire, Display;
    match item
    case FireTrigger(_, _, _, ability) => IdRoundTrip(ability);
    case MovementTrigger(_, _, _) =>
    case ProduceMana(_, source) => ManaSourceRoundTrip(source);
    case _ =>
  }

  /** A state can name any broken rule; a rebuild can name only two. */
  predicate SupportedStatus(status: D.GameStatus) {
    status.Broken? ==> SupportedRule(status.breakage.rule)
  }

  lemma StatusRoundTrip(status: D.GameStatus)
    ensures SupportedStatus(status) ==> StatusFromWire(StatusToWire(status)) == Ok(status)
    ensures !SupportedStatus(status) ==>
              StatusFromWire(StatusToWire(status)) == Err(UnsupportedBreakageRule(status.breakage.rule))
  {
    if status.Broken? {
      IdRoundTrip(status.breakage.entity);
    }
  }

  predicate BasesFit(usizeMax: nat, bases: seq<nat>) {
    forall k | 0 <= k < |bases| :: bases[k] <= usizeMax
  }

  lemma BasesRebuild(usizeMax: nat, bases: seq<nat>)
    ensures TryMap(BaseFromWire(usizeMax), bases).Ok? <==> BasesFit(usizeMax, bases)
    ensures BasesFit(usizeMax, bases) ==> TryMap(BaseFromWire(usizeMax), bases) == Ok(bases)
  {
    if BasesFit(usizeMax, bases) {
      assert TryMap(BaseFromWire(usizeMax), bases).value == bases;
    }
  }

  /** Every match state survives projection and rebuild, unless it broke under an unnamed rule. */
  lemma ProjectionIsLossless(usizeMax: nat, state: D.GameState)
    requires BasesFit(usizeMax, state.stackSegmentBases)
    ensures IntoGameState(usizeMax, FromState(state), state.cards) == Ok(state) <==> SupportedStatus(state.status)
    ensures !SupportedStatus(state.status) ==> IntoGameState(usizeMax, FromState(state), state.cards).Err?
  {
    hide PlayerStateToWire, PlayerStateFromWire, StackItemToWire, StackItemFromWire, WorkToWire, WorkFromWire;
    hide StatusToWire, StatusFromWire, TurnToWire, TurnFromWire;
    PlayerStateRoundTrip(state.players.one);
    PlayerStateRoundTrip(state.players.two);
    forall k | 0 <= k < |state.stack| ensures StackItemFromWire(StackItemToWire(state.stack[k])) == Ok(state.stack[k]) {
      StackItemRoundTrip(state.stack[k]);
    }
    TryMapUndoesMap(StackItemToWire, StackItemFromWire, state.stack);
    forall k | 0 <= k < |state.work| ensures WorkFromWire(WorkToWire(state.work[k])) == Ok(state.work[k]) {
      WorkRoundTrip(state.work[k]);
    }
    TryMapUndoesMap(WorkToWire, WorkFromWire, state.work);
    BasesRebuild(usizeMax, state.stackSegmentBases);
    StatusRoundTrip(state.status);
    TurnRoundTrip(state.turn);
    PendingRoundTrip(state.pending);
    match state.coin {
      case None =>
      case Some(Coin) =>
    }
  }

  lemma PendingRoundTrip(pending: Option<D.PendingInput>)
    ensures MapOption(PendingFromWire, MapOption(PendingToWire, pending)) == pending
  {
  }

  lemma TurnRoundTrip(turn: D.TurnState)
    ensures TurnFromWire(TurnToWire(turn)) == turn
  {
  }

  /** Two states over the same pool that project alike are the same state. */
  lemma ProjectionIsInjective(left: D.GameState, right: D.GameState)
    requires left.cards == right.cards && FromState(left) == FromState(right)
    ensures left == right
  {
    var usizeMax := LargestBase(left.stackSegmentBases);
    assert left.stackSegmentBases == right.stackSegmentBases;
    ProjectionIsLossless(usizeMax, left.(status := D.Playing));
    ProjectionIsLossless(usizeMax, right.(status := D.Playing));
    StatusIsInjective(left.status, right.status);
  }

  lemma StatusIsInjective(left: D.GameStatus, right: D.GameStatus)
    requires StatusToWire(left) == StatusToWire(right)
    ensures left == right
  {
    if left.Broken? {
      IdRoundTrip(left.breakage.entity);
      IdRoundTrip(right.breakage.entity);
    }
  }

  function LargestBase(bases: seq<nat>): (r: nat)
    ensures BasesFit(r, bases)
  {
    if bases == [] then 0
    else
      var rest := LargestBase(bases[1..]);
      if bases[0] <= rest then rest else bases[0]
  }

  // ----- From the wire to a state and back -----

  predicate CanonicalCard(card: CardRefV1) {
    IsCanonical(card.definition)
  }

  predicate CanonicalCards(cards: seq<CardRefV1>) {
    forall k | 0 <= k < |cards| :: CanonicalCard(cards[k])
  }

  predicate CanonicalSummon(summon: SummonInstanceV1) {
    CanonicalCards(summon.chain.layers)
  }

  predicate CanonicalSummonOption(summon: Option<SummonInstanceV1>) {
    summon.Some? ==> CanonicalSummon(summon.value)
  }

  predicate CanonicalPlayer(player: PlayerStateV1) {
    && CanonicalSummonOption(player.main)
    && CanonicalSummonOption(player.bench.first)
    && CanonicalSummonOption(player.bench.second)
    && CanonicalSummonOption(player.bench.third)
    && CanonicalCards(player.deck)
    && CanonicalCards(player.hand)
    && CanonicalCards(player.prizes)
    && CanonicalCards(player.discard)
    && CanonicalCards(player.enchantments)
  }

  predicate CanonicalStackItem(item: StackItemV1) {
    match item
    case AttackItemV1(_, _) => true
    case SpellItemV1(_, card, _) => CanonicalCard(card)
    case TriggerItemV1(_, _, ability, _, _, _) => IsCanonical(ability)
  }

  predicate CanonicalWork(item: WorkItemV1) {
    item.FireTriggerV1? ==> IsCanonical(item.ability)
  }

  predicate CanonicalStatus(status: GameStatusV1) {
    status.BrokenV1? ==> IsCanonical(status.breakage.entity)
  }

  /** Every entity id anywhere in the projection is canonical text, as the strict parser demands. */
  predicate CanonicalIds(projection: StateProjectionV1) {
    && CanonicalPlayer(projection.players.one)
    && CanonicalPlayer(projection.players.two)
    && (forall k | 0 <= k < |projection.stack| :: CanonicalStackItem(projection.stack[k]))
    && (forall k | 0 <= k < |projection.work| :: CanonicalWork(projection.work[k]))
    && CanonicalStatus(projection.status)
  }

  lemma IdBack(text: EntityIdV1)
    requires IdFromWire(text).Ok?
    ensures Display(IdFromWire(text).value) == text <==> IsCanonical(text)
  {
  }

  lemma CardsBack(cards: seq<CardRefV1>)
    requires CardsFromWire(cards).Ok?
    ensures CardsToWire(CardsFromWire(cards).value) == cards <==> CanonicalCards(cards)
  {
    MapUndoesTryMap(CardToWire, CardFromWire, cards);
    forall k | 0 <= k < |cards|
      ensures CardToWire(CardFromWire(cards[k]).value) == cards[k] <==> CanonicalCard(cards[k])
    {
    }
  }

  lemma ChainBack(chain: UpgradeChainV1)
    requires ChainFromWire(chain).Ok?
    ensures ChainToWire(ChainFromWire(chain).value) == chain <==> CanonicalCards(chain.layers)
  {
    assert CardsFromWire(chain.layers) == Ok(ChainFromWire(chain).value.Layers());
    CardsBack(chain.layers);
  }

  lemma MarkersBack(markers: seq<DurationMarkerV1>)
    ensures MapSeq(MarkerToWire, MapSeq(MarkerFromWire, markers)) == markers
  {
    forall k | 0 <= k < |markers| ensures MarkerToWire(MarkerFromWire(markers[k])) == markers[k] {
    }
  }

  lemma SummonBack(summon: SummonInstanceV1)
    requires SummonFromWire(summon).Ok?
    ensures SummonToWire(SummonFromWire(summon).value) == summon <==> CanonicalSummon(summon)
  {
    hide ChainToWire, ChainFromWire;
    ChainBack(summon.chain);
    MarkersBack(summon.durationMarkers);
  }

  lemma SummonOptionBack(summon: Option<SummonInstanceV1>)
    requires TryOption(SummonFromWire, summon).Ok?
    ensures MapOption(SummonToWire, TryOption(SummonFromWire, summon).value) == summon <==>
            CanonicalSummonOption(summon)
  {
    if summon.Some? {
      SummonBack(summon.value);
    }
  }

  lemma PlayerStateBack(player: PlayerStateV1)
    requires PlayerStateFromWire(player).Ok?
    ensures PlayerStateToWire(PlayerStateFromWire(player).value) == player <==> CanonicalPlayer(player)
  {
    SummonOptionBack(player.main);
    SummonOptionBack(player.bench.first);
    SummonOptionBack(player.bench.second);
    SummonOptionBack(player.bench.third);
    CardsBack(player.deck);
    CardsBack(player.hand);
    CardsBack(player.prizes);
    CardsBack(player.discard);
    CardsBack(player.enchantments);
  }

  lemma LeafBack(leaf: EffectLeafV1)
    ensures LeafToWire(LeafFromWire(leaf)) == leaf
  {
    if leaf.DealDamageV1? {
      assert MapSeq(AdditionToWire, MapSeq(AdditionFromWire, leaf.damage.additions)) == leaf.damage.additions;
    }
  }

  lemma PositionsBack(positions: seq<PositionV1>)
    ensures MapSeq(PositionToWire, MapSeq(PositionFromWire, positions)) == positions
  {
  }

  lemma LeavesBack(effects: seq<EffectLeafV1>)
    ensures MapSeq(LeafToWire, MapSeq(LeafFromWire, effects)) == effects
  {
    hide LeafFromWire, LeafToWire;
    forall k | 0 <= k < |effects| ensures LeafToWire(LeafFromWire(effects[k])) == effects[k] {
      LeafBack(effects[k]);
    }
  }

  lemma StackItemBack(item: StackItemV1)
    requires StackItemFromWire(item).Ok?
    ensures StackItemToWire(StackItemFromWire(item).value) == item <==> CanonicalStackItem(item)
  {
    hide LeafFromWire, LeafToWire, Display, Parse;
    match item
    case AttackItemV1(_, _) =>
    case SpellItemV1(_, _, targets) =>
      PositionsBack(targets);
    case TriggerItemV1(_, _, _, _, targets, effects) =>
      PositionsBack(targets);
      LeavesBack(effects);
  }

  lemma ManaSourceBack(source: ManaSourceV1)
    ensures ManaSourceToWire(ManaSourceFromWire(source)) == source
  {
    match source
    case PlayerSourceV1 =>
    case SummonSourceV1(position) => assert PositionToWire(PositionFromWire(position)) == position;
  }

  lemma WorkBack(item: WorkItemV1)
    requires WorkFromWire(item).Ok?
    ensures WorkToWire(WorkFromWire(item).value) == item <==> CanonicalWork(item)
  {
    hide IdFromWire, Display, IsCanonical;
    match item
    case FireTriggerV1(_, _, _, ability) => IdBack(ability);
    case MovementTriggerV1(_, _, _) =>
    case ProduceManaV1(_, source) => ManaSourceBack(source);
    case _ =>
  }

  lemma PendingBack(pending: Option<PendingInputV1>)
    ensures MapOption(PendingToWire, MapOption(PendingFromWire, pending)) == pending
  {
  }

  lemma TurnBack(turn: TurnStateV1)
    ensures TurnToWire(TurnFromWire(turn)) == turn
  {
  }

  lemma StatusBack(status: GameStatusV1)
    requires StatusFromWire(status).Ok?
    ensures StatusToWire(StatusFromWire(status).value) == status <==> CanonicalStatus(status)
  {
  }

  lemma StackBack(stack: seq<StackItemV1>)
    requires TryMap(StackItemFromWire, stack).Ok?
    ensures MapSeq(StackItemToWire, TryMap(StackItemFromWire, stack).value) == stack <==>
            forall k | 0 <= k < |stack| :: CanonicalStackItem(stack[k])
  {
    hide StackItemToWire, StackItemFromWire, CanonicalStackItem;
    MapUndoesTryMap(StackItemToWire, StackItemFromWire, stack);
    forall k | 0 <= k < |stack|
      ensures StackItemToWire(StackItemFromWire(stack[k]).value) == stack[k] <==> CanonicalStackItem(stack[k])
    {
      StackItemBack(stack[k]);
    }
  }

  lemma QueueBack(work: seq<WorkItemV1>)
    requires TryMap(WorkFromWire, work).Ok?
    ensures MapSeq(WorkToWire, TryMap(WorkFromWire, work).value) == work <==>
            forall k | 0 <= k < |work| :: CanonicalWork(work[k])
  {
    hide WorkToWire, WorkFromWire, CanonicalWork;
    MapUndoesTryMap(WorkToWire, WorkFromWire, work);
    forall k | 0 <= k < |work| ensures WorkToWire(WorkFromWire(work[k]).value) == work[k] <==> CanonicalWork(work[k]) {
      WorkBack(work[k]);
    }
  }

  /** A rebuilt projection is reproduced exactly when all its ids are canonical text. */
  lemma RebuildIsFaithful(usizeMax: nat, projection: StateProjectionV1, cards: D.CardSet)
    requires IntoGameState(usizeMax, projection, cards).Ok?
    ensures FromState(IntoGameState(usizeMax, projection, cards).value) == projection <==> CanonicalIds(projection)
  {
    hide PlayerStateToWire, PlayerStateFromWire, StackItemToWire, StackItemFromWire, WorkToWire, WorkFromWire;
    hide TurnToWire, TurnFromWire, StatusToWire, StatusFromWire, PendingToWire, PendingFromWire;
    hide CanonicalPlayer, CanonicalStackItem, CanonicalWork, CanonicalStatus;
    PlayerStateBack(projection.players.one);
    PlayerStateBack(projection.players.two);
    StackBack(projection.stack);
    QueueBack(projection.work);
    BasesRebuild(usizeMax, projection.stackSegmentBases);
    TurnBack(projection.turn);
    PendingBack(projection.pending);
    StatusBack(projection.status);
  }
}
