/**
 What a projection tells about a match state, field by field: a relation that names no conversion.
 A projection depicts the state it was made from, and rebuilding gives exactly the state depicted.
 */
module StateDepiction {
  import opened Wrappers
  import opened EntityIds
  import opened Sequences
  import opened WireState
  import opened StateProjection
  import D = Domain
  import T = StateRoundTrip

  /** Element by element, in order. */
  ghost predicate Each<C, W>(shows: (C, W) -> bool, cores: seq<C>, wires: seq<W>) {
    |cores| == |wires| && forall k | 0 <= k < |cores| :: shows(cores[k], wires[k])
  }

  predicate Maybe<C, W>(shows: (C, W) -> bool, core: Option<C>, wire: Option<W>) {
    match (core, wire)
    case (None, None) => true
    case (Some(value), Some(told)) => shows(value, told)
    case _ => false
  }

  // ----- Names -----

  predicate ShowsPlayer(core: D.PlayerId, wire: PlayerIdV1) {
    core.One? <==> wire.OneV1?
  }

  predicate ShowsSlot(core: D.BenchSlot, wire: BenchSlotV1) {
    (core.First? <==> wire.FirstV1?) && (core.Second? <==> wire.SecondV1?)
  }

  predicate ShowsPosition(core: D.Position, wire: PositionV1) {
    (core.Main? <==> wire.MainV1?) && (core.Bench? && wire.BenchV1? ==> ShowsSlot(core.slot, wire.slot))
  }

  predicate ShowsMarker(core: D.DurationMarker, wire: DurationMarkerV1) {
    core.CannotBeMovedByOpponent? && wire.CannotBeMovedByOpponentV1?
  }

  predicate ShowsActivity(core: D.UpgradeActivity, wire: UpgradeActivityV1) {
    (core.Available? <==> wire.AvailableV1?) && (core.PlayedThisTurn? <==> wire.PlayedThisTurnV1?)
  }

  predicate ShowsReadiness(core: D.Readiness, wire: ReadinessV1) {
    core.Ready? <==> wire.ReadyV1?
  }

  predicate ShowsPhase(core: D.Phase, wire: PhaseV1) {
    (core.Upkeep? <==> wire.UpkeepV1?) && (core.Combat? <==> wire.CombatV1?)
  }

  predicate ShowsReason(core: D.LossReason, wire: LossReasonV1) {
    && (core.ThirdMainLoss? <==> wire.ThirdMainLossV1?)
    && (core.NoPromotionAvailable? <==> wire.NoPromotionAvailableV1?)
    && (core.EmptyDeckDraw? <==> wire.EmptyDeckDrawV1?)
  }

  predicate ShowsKind(core: D.ComponentKind, wire: ComponentKindV1) {
    && (core.NameKind? <==> wire.NameKindV1?) && (core.AccountingIdKind? <==> wire.AccountingIdKindV1?)
    && (core.LifeKind? <==> wire.LifeKindV1?) && (core.RetreatCostKind? <==> wire.RetreatCostKindV1?)
    && (core.FormKind? <==> wire.FormKindV1?) && (core.ProducesKind? <==> wire.ProducesKindV1?)
    && (core.TagsKind? <==> wire.TagsKindV1?) && (core.CostKind? <==> wire.CostKindV1?)
    && (core.SkillKind? <==> wire.SkillKindV1?) && (core.AttackKind? <==> wire.AttackKindV1?)
    && (core.TriggerKind? <==> wire.TriggerKindV1?) && (core.EffectKind? <==> wire.EffectKindV1?)
    && (core.PassiveKind? <==> wire.PassiveKindV1?) && (core.TimingKind? <==> wire.TimingKindV1?)
    && (core.EventKind? <==> wire.EventKindV1?) && (core.RespondableKind? <==> wire.RespondableKindV1?)
  }

  predicate ShowsEvent(core: D.TriggerEvent, wire: TriggerEventV1) {
    && (core.YourUpkeep? <==> wire.YourUpkeepV1?) && (core.EntersMain? <==> wire.EntersMainV1?)
    && (core.EntersBench? <==> wire.EntersBenchV1?) && (core.LeavesMain? <==> wire.LeavesMainV1?)
    && (core.LeavesBench? <==> wire.LeavesBenchV1?)
  }

  predicate ShowsCondition(core: D.EffectCondition, wire: EffectConditionV1) {
    core.SpellPlayedThisTurn? <==> wire.SpellPlayedThisTurnV1?
  }

  predicate ShowsTarget(core: D.EffectTarget, wire: EffectTargetV1) {
    core.SourceTarget? <==> wire.SourceTargetV1?
  }

  predicate ShowsStep(core: D.MovementStep, wire: MovementStepV1) {
    && (core.LeavingMain? <==> wire.LeavingMainV1?) && (core.EnteringBench? <==> wire.EnteringBenchV1?)
    && (core.LeavingBench? <==> wire.LeavingBenchV1?)
  }

  predicate ShowsId(core: EntityId, wire: EntityIdV1) {
    Parse(wire) == Some(core)
  }

  // ----- Values -----

  predicate ShowsCard(core: D.CardRef, wire: CardRefV1) {
    core.instance == wire.instance && ShowsId(core.def, wire.definition)
  }

  ghost predicate ShowsSummon(core: D.SummonInstance, wire: SummonInstanceV1) {
    && Each(ShowsCard, core.chain.Layers(), wire.chain.layers)
    && core.damage == wire.damage && ShowsReadiness(core.readiness, wire.readiness)
    && ShowsPlayer(core.owner, wire.owner) && ShowsPlayer(core.controller, wire.controller)
    && Each(ShowsMarker, core.durationMarkers, wire.durationMarkers)
    && ShowsActivity(core.turn.upgrade, wire.turn.upgrade)
    && (core.turn.mainEntry.Some? <==> wire.turn.enteredMain)
  }

  ghost predicate ShowsSeat(core: Option<D.SummonInstance>, wire: Option<SummonInstanceV1>) {
    && (core.Some? <==> wire.Some?)
    && (core.Some? ==> ShowsSummon(core.value, wire.value))
  }

  ghost predicate ShowsSide(core: D.PlayerState, wire: PlayerStateV1) {
    && ShowsSeat(core.main, wire.main)
    && ShowsSeat(core.bench.first, wire.bench.first)
    && ShowsSeat(core.bench.second, wire.bench.second)
    && ShowsSeat(core.bench.third, wire.bench.third)
    && Each(ShowsCard, core.deck, wire.deck) && Each(ShowsCard, core.hand, wire.hand)
    && Each(ShowsCard, core.prizes, wire.prizes) && Each(ShowsCard, core.discard, wire.discard)
    && Each(ShowsCard, core.enchantments, wire.enchantments)
    && core.mana.matter == wire.mana.matter && core.mana.mind == wire.mana.mind
    && core.mana.spirit == wire.mana.spirit && core.mainLosses == wire.mainLosses
  }

  predicate ShowsWindow(core: D.StackWindow, wire: StackWindowV1) {
    ShowsPlayer(core.holder, wire.holder) && core.priorPass == wire.priorPass
  }

  predicate ShowsTurn(core: D.TurnState, wire: TurnStateV1) {
    && ShowsPlayer(core.activePlayer, wire.activePlayer) && ShowsPhase(core.phase, wire.phase)
    && Maybe(ShowsWindow, core.window, wire.window)
    && core.normalAttackUsed == wire.normalAttackUsed && core.normalRetreatUsed == wire.normalRetreatUsed
    && core.spellPlayedThisTurn.one == wire.spellPlayedThisTurn.one
    && core.spellPlayedThisTurn.two == wire.spellPlayedThisTurn.two
  }

  predicate ShowsSource(core: D.ManaSource, wire: ManaSourceV1) {
    match (core, wire)
    case (PlayerSource, PlayerSourceV1) => true
    case (SummonSource(position), SummonSourceV1(told)) => ShowsPosition(position, told)
    case _ => false
  }

  predicate ShowsPending(core: D.PendingInput, wire: PendingInputV1) {
    match (core, wire)
    case (ManaProduction(player, source), ManaProductionV1(p, s)) => ShowsPlayer(player, p) && ShowsSource(source, s)
    case (Promotion(player), PromotionV1(p)) => ShowsPlayer(player, p)
    case (PrizePick(chooser), PrizePickV1(p)) => ShowsPlayer(chooser, p)
    case _ => false
  }

  predicate ShowsAddition(core: D.DamageAddition, wire: DamageAdditionV1) {
    core.amount == wire.amount && ShowsCondition(core.condition, wire.condition)
  }

  /** The two bits of the mask, by their values. */
  predicate ShowsConstraints(core: D.DamageConstraints, wire: DamageConstraintsV1) {
    core as int == (if wire.unincreasable then 1 else 0) + (if wire.unpreventable then 2 else 0)
  }

  ghost predicate ShowsDamage(core: D.DamageEffect, wire: DamageEffectV1) {
    && core.base == wire.base && ShowsConstraints(core.constraints, wire.constraints)
    && Each(ShowsAddition, core.additions, wire.additions)
  }

  ghost predicate ShowsLeaf(core: D.EffectLeaf, wire: EffectLeafV1) {
    match (core, wire)
    case (DealDamage(damage), DealDamageV1(told)) => ShowsDamage(damage, told)
    case (Heal(amount, target), HealV1(told, at)) => amount == told && ShowsTarget(target, at)
    case (BlockResponses(condition, block), BlockResponsesV1(told, _)) => ShowsCondition(condition, told)
    case (DrawCards(amount), DrawCardsV1(told)) => amount == told
    case (ProduceManaFor(target), ProduceManaForV1(at)) => ShowsTarget(target, at)
    case (CannotBeMoved(target), CannotBeMovedV1(at)) => ShowsTarget(target, at)
    case (MoveSummon, MoveSummonV1) => true
    case (SwapPositions, SwapPositionsV1) => true
    case (ReturnSpellFromDiscard, ReturnSpellFromDiscardV1) => true
    case (LookAtPrizes, LookAtPrizesV1) => true
    case (ReturnSpellToDeckTop, ReturnSpellToDeckTopV1) => true
    case (ReadySummon, ReadySummonV1) => true
    case (SwapOpposingPositions, SwapOpposingPositionsV1) => true
    case _ => false
  }

  ghost predicate ShowsStackItem(core: D.StackItem, wire: StackItemV1) {
    match (core, wire)
    case (AttackItem(attacker, target), AttackItemV1(a, t)) => ShowsPlayer(attacker, a) && ShowsPosition(target, t)
    case (SpellItem(caster, card, targets), SpellItemV1(c, d, t)) =>
      ShowsPlayer(caster, c) && ShowsCard(card, d) && Each(ShowsPosition, targets, t)
    case (TriggerItem(controller, source, ability, event, targets, effects), TriggerItemV1(c, s, a, e, t, f)) =>
      && ShowsPlayer(controller, c) && ShowsPosition(source, s) && ShowsId(ability, a) && ShowsEvent(event, e)
      && Each(ShowsPosition, targets, t) && EachLeaf(effects, f)
    case _ => false
  }

  ghost predicate EachLeaf(cores: seq<D.EffectLeaf>, wires: seq<EffectLeafV1>) {
    |cores| == |wires| && forall k | 0 <= k < |cores| :: ShowsLeaf(cores[k], wires[k])
  }

  predicate ShowsWork(core: D.WorkItem, wire: WorkItemV1) {
    match (core, wire)
    case (DestructionCheck(position), DestructionCheckV1(p)) => ShowsPosition(position, p)
    case (DiscardDestroyedChain(position), DiscardDestroyedChainV1(p)) => ShowsPosition(position, p)
    case (RecordMainLoss(player), RecordMainLossV1(p)) => ShowsPlayer(player, p)
    case (RecoverPrize(player), RecoverPrizeV1(p)) => ShowsPlayer(player, p)
    case (PromoteBenchSummon(player), PromoteBenchSummonV1(p)) => ShowsPlayer(player, p)
    case (ResolveMovementConsequences(player), ResolveMovementConsequencesV1(p)) => ShowsPlayer(player, p)
    case (MovementTrigger(step, player, position), MovementTriggerV1(s, p, q)) =>
      ShowsStep(step, s) && ShowsPlayer(player, p) && ShowsPosition(position, q)
    case (FireTrigger(player, position, event, ability), FireTriggerV1(p, q, e, a)) =>
      ShowsPlayer(player, p) && ShowsPosition(position, q) && ShowsEvent(event, e) && ShowsId(ability, a)
    case (LossCheck(player), LossCheckV1(p)) => ShowsPlayer(player, p)
    case (ProduceMana(player, source), ProduceManaV1(p, s)) => ShowsPlayer(player, p) && ShowsSource(source, s)
    case (ReadyAll, ReadyAllV1) => true
    case (DrawCard, DrawCardV1) => true
    case (BeginMainPhase, BeginMainPhaseV1) => true
    case _ => false
  }

  predicate ShowsOutcome(core: D.GameOutcome, wire: GameOutcomeV1) {
    ShowsPlayer(core.winner, wire.winner) && ShowsReason(core.reason, wire.reason)
  }

  predicate ShowsStatus(core: D.GameStatus, wire: GameStatusV1) {
    match (core, wire)
    case (Playing, PlayingV1) => true
    case (Ended(outcome), EndedV1(told)) => ShowsOutcome(outcome, told)
    case (Broken(breakage), BrokenV1(told)) =>
      && breakage.rule == told.rule && ShowsId(breakage.entity, told.entity)
      && ShowsKind(breakage.expected, told.expected)
    case _ => false
  }

  ghost predicate EachStackItem(cores: seq<D.StackItem>, wires: seq<StackItemV1>) {
    |cores| == |wires| && forall k | 0 <= k < |cores| :: ShowsStackItem(cores[k], wires[k])
  }

  /** The projection tells everything of the state but its card pool. */
  ghost predicate Depicts(projection: StateProjectionV1, state: D.GameState) {
    && ShowsSide(state.players.one, projection.players.one)
    && ShowsSide(state.players.two, projection.players.two)
    && (state.coin.Some? <==> projection.coin)
    && ShowsTurn(state.turn, projection.turn)
    && EachStackItem(state.stack, projection.stack)
    && state.stackSegmentBases == projection.stackSegmentBases
    && Each(ShowsWork, state.work, projection.work)
    && Maybe(ShowsPending, state.pending, projection.pending)
    && ShowsStatus(state.status, projection.status)
  }

  // ----- Rebuilding reads exactly what is depicted -----

  lemma CardIsRead(core: D.CardRef, wire: CardRefV1)
    ensures CardFromWire(wire) == Ok(core) <==> ShowsCard(core, wire)
  {
    hide Parse;
  }

  lemma CardsAreRead(cores: seq<D.CardRef>, wires: seq<CardRefV1>)
    ensures CardsFromWire(wires) == Ok(cores) <==> Each(ShowsCard, cores, wires)
  {
    hide CardFromWire, ShowsCard;
    if |cores| == |wires| {
      forall k | 0 <= k < |cores| ensures CardFromWire(wires[k]) == Ok(cores[k]) <==> ShowsCard(cores[k], wires[k]) {
        CardIsRead(cores[k], wires[k]);
      }
    }
    TryMapExactly(CardFromWire, wires, cores);
  }

  lemma TryMapExactly<A, B, E>(f: A -> Result<B, E>, inputs: seq<A>, outputs: seq<B>)
    ensures TryMap(f, inputs) == Ok(outputs) <==>
            |inputs| == |outputs| && forall k | 0 <= k < |inputs| :: f(inputs[k]) == Ok(outputs[k])
  {
    if |inputs| == |outputs| && forall k | 0 <= k < |inputs| :: f(inputs[k]) == Ok(outputs[k]) {
      assert TryMap(f, inputs).value == outputs;
    }
  }

  lemma ChainIsRead(core: D.UpgradeChain, wire: UpgradeChainV1)
    ensures ChainFromWire(wire) == Ok(core) <==> Each(ShowsCard, core.Layers(), wire.layers)
  {
    hide CardFromWire, ShowsCard;
    if wire.layers != [] {
      CardIsRead(core.base, wire.layers[0]);
      CardsAreRead(core.rest, wire.layers[1..]);
      EachCons(core.base, core.rest, wire.layers);
    }
  }

  lemma EachCons(first: D.CardRef, rest: seq<D.CardRef>, wires: seq<CardRefV1>)
    requires wires != []
    ensures Each(ShowsCard, [first] + rest, wires) <==> ShowsCard(first, wires[0]) && Each(ShowsCard, rest, wires[1..])
  {
    hide ShowsCard;
    var cores := [first] + rest;
    if Each(ShowsCard, cores, wires) {
      assert ShowsCard(cores[0], wires[0]);
      forall k | 0 <= k < |rest| ensures ShowsCard(rest[k], wires[1..][k]) {
        assert ShowsCard(cores[k + 1], wires[k + 1]);
      }
    }
    if ShowsCard(first, wires[0]) && Each(ShowsCard, rest, wires[1..]) {
      forall k | 0 <= k < |cores| ensures ShowsCard(cores[k], wires[k]) {
        if k > 0 {
          assert ShowsCard(rest[k - 1], wires[1..][k - 1]);
        }
      }
    }
  }

  lemma MarkersAreRead(cores: seq<D.DurationMarker>, wires: seq<DurationMarkerV1>)
    ensures MapSeq(MarkerFromWire, wires) == cores <==> Each(ShowsMarker, cores, wires)
  {
  }

  lemma SummonIsRead(core: D.SummonInstance, wire: SummonInstanceV1)
    ensures SummonFromWire(wire) == Ok(core) <==> ShowsSummon(core, wire)
  {
    hide ChainFromWire, Each;
    ChainIsRead(core.chain, wire.chain);
    MarkersAreRead(core.durationMarkers, wire.durationMarkers);
    assert core.turn.mainEntry.Some? ==> core.turn.mainEntry.value == D.EnteredMain;
  }

  lemma SeatIsRead(core: Option<D.SummonInstance>, wire: Option<SummonInstanceV1>)
    ensures TryOption(SummonFromWire, wire) == Ok(core) <==> ShowsSeat(core, wire)
  {
    hide SummonFromWire, ShowsSummon;
    if core.Some? && wire.Some? {
      SummonIsRead(core.value, wire.value);
    }
  }

  lemma BenchIsRead(core: D.Bench<D.SummonInstance>, wire: D.Bench<SummonInstanceV1>)
    ensures BenchFromWire(wire) == Ok(core) <==>
            && ShowsSeat(core.first, wire.first) && ShowsSeat(core.second, wire.second)
            && ShowsSeat(core.third, wire.third)
  {
    hide ShowsSeat, SummonFromWire;
    SeatIsRead(core.first, wire.first);
    SeatIsRead(core.second, wire.second);
    SeatIsRead(core.third, wire.third);
  }

  lemma SideIsRead(core: D.PlayerState, wire: PlayerStateV1)
    ensures PlayerStateFromWire(wire) == Ok(core) <==> ShowsSide(core, wire)
  {
    hide ShowsSeat, SummonFromWire, CardsFromWire, Each, BenchFromWire;
    SeatIsRead(core.main, wire.main);
    BenchIsRead(core.bench, wire.bench);
    CardsAreRead(core.deck, wire.deck);
    CardsAreRead(core.hand, wire.hand);
    CardsAreRead(core.prizes, wire.prizes);
    CardsAreRead(core.discard, wire.discard);
    CardsAreRead(core.enchantments, wire.enchantments);
  }

  lemma TurnIsRead(core: D.TurnState, wire: TurnStateV1)
    ensures TurnFromWire(wire) == core <==> ShowsTurn(core, wire)
  {
  }

  lemma PendingIsRead(core: Option<D.PendingInput>, wire: Option<PendingInputV1>)
    ensures MapOption(PendingFromWire, wire) == core <==> Maybe(ShowsPending, core, wire)
  {
    if core.Some? && wire.Some? {
      OnePendingIsRead(core.value, wire.value);
    }
  }

  lemma OnePendingIsRead(core: D.PendingInput, wire: PendingInputV1)
    ensures PendingFromWire(wire) == core <==> ShowsPending(core, wire)
  {
    match (core, wire)
    case (ManaProduction(_, source), ManaProductionV1(_, told)) => SourceIsRead(source, told);
    case _ =>
  }

  lemma SourceIsRead(core: D.ManaSource, wire: ManaSourceV1)
    ensures ManaSourceFromWire(wire) == core <==> ShowsSource(core, wire)
  {
  }

  lemma PositionIsRead(core: D.Position, wire: PositionV1)
    ensures PositionFromWire(wire) == core <==> ShowsPosition(core, wire)
  {
  }

  lemma PositionsAreRead(cores: seq<D.Position>, wires: seq<PositionV1>)
    ensures MapSeq(PositionFromWire, wires) == cores <==> Each(ShowsPosition, cores, wires)
  {
    hide PositionFromWire, ShowsPosition;
    if |cores| == |wires| {
      forall k | 0 <= k < |cores|
        ensures PositionFromWire(wires[k]) == cores[k] <==> ShowsPosition(cores[k], wires[k])
      {
        PositionIsRead(cores[k], wires[k]);
      }
    }
  }

  lemma ConstraintsAreRead(core: D.DamageConstraints, wire: DamageConstraintsV1)
    ensures ConstraintsFromWire(wire) == core <==> ShowsConstraints(core, wire)
  {
    var mask: bv8 := core;
    assert (0 as bv8 | 0 as bv8) == 0 && (1 as bv8 | 0 as bv8) == 1 && (0 as bv8 | 2 as bv8) == 2;
    assert (1 as bv8 | 2 as bv8) == 3;
  }

  lemma AdditionsAreRead(cores: seq<D.DamageAddition>, wires: seq<DamageAdditionV1>)
    ensures MapSeq(AdditionFromWire, wires) == cores <==> Each(ShowsAddition, cores, wires)
  {
    if |cores| == |wires| {
      forall k | 0 <= k < |cores|
        ensures AdditionFromWire(wires[k]) == cores[k] <==> ShowsAddition(cores[k], wires[k])
      {
      }
    }
  }

  lemma LeafIsRead(core: D.EffectLeaf, wire: EffectLeafV1)
    ensures LeafFromWire(wire) == core <==> ShowsLeaf(core, wire)
  {
    hide ConstraintsFromWire, ShowsConstraints;
    match (core, wire)
    case (DealDamage(damage), DealDamageV1(told)) =>
      ConstraintsAreRead(damage.constraints, told.constraints);
      AdditionsAreRead(damage.additions, told.additions);
    case _ =>
  }

  lemma LeavesAreRead(cores: seq<D.EffectLeaf>, wires: seq<EffectLeafV1>)
    ensures MapSeq(LeafFromWire, wires) == cores <==> EachLeaf(cores, wires)
  {
    hide LeafFromWire, ShowsLeaf;
    if |cores| == |wires| {
      forall k | 0 <= k < |cores| ensures LeafFromWire(wires[k]) == cores[k] <==> ShowsLeaf(cores[k], wires[k]) {
        LeafIsRead(cores[k], wires[k]);
      }
    }
  }

  lemma IdIsRead(core: EntityId, wire: EntityIdV1)
    ensures IdFromWire(wire) == Ok(core) <==> ShowsId(core, wire)
  {
    hide Parse;
  }

  lemma StackItemIsRead(core: D.StackItem, wire: StackItemV1)
    ensures StackItemFromWire(wire) == Ok(core) <==> ShowsStackItem(core, wire)
  {
    hide IdFromWire, CardFromWire, ShowsCard, ShowsId, PositionFromWire, ShowsPosition, LeafFromWire, EachLeaf, Each;
    match (core, wire)
    case (AttackItem(_, target), AttackItemV1(_, told)) => PositionIsRead(target, told);
    case (SpellItem(_, card, targets), SpellItemV1(_, told, at)) =>
      CardIsRead(card, told);
      PositionsAreRead(targets, at);
    case (TriggerItem(_, source, ability, event, targets, effects), TriggerItemV1(_, from, id, _, at, told)) =>
      PositionIsRead(source, from);
      IdIsRead(ability, id);
      PositionsAreRead(targets, at);
      LeavesAreRead(effects, told);
    case _ =>
  }

  lemma StackIsRead(cores: seq<D.StackItem>, wires: seq<StackItemV1>)
    ensures TryMap(StackItemFromWire, wires) == Ok(cores) <==> EachStackItem(cores, wires)
  {
    hide StackItemFromWire, ShowsStackItem;
    if |cores| == |wires| {
      forall k | 0 <= k < |cores|
        ensures StackItemFromWire(wires[k]) == Ok(cores[k]) <==> ShowsStackItem(cores[k], wires[k])
      {
        StackItemIsRead(cores[k], wires[k]);
      }
    }
    TryMapExactly(StackItemFromWire, wires, cores);
  }

  lemma WorkItemIsRead(core: D.WorkItem, wire: WorkItemV1)
    ensures WorkFromWire(wire) == Ok(core) <==> ShowsWork(core, wire)
  {
    hide IdFromWire, ShowsId, PositionFromWire, ShowsPosition, ManaSourceFromWire, ShowsSource;
    match (core, wire)
    case (DestructionCheck(position), DestructionCheckV1(told)) => PositionIsRead(position, told);
    case (DiscardDestroyedChain(position), DiscardDestroyedChainV1(told)) => PositionIsRead(position, told);
    case (MovementTrigger(_, _, position), MovementTriggerV1(_, _, told)) => PositionIsRead(position, told);
    case (FireTrigger(_, position, _, ability), FireTriggerV1(_, told, _, id)) =>
      PositionIsRead(position, told);
      IdIsRead(ability, id);
    case (ProduceMana(_, source), ProduceManaV1(_, told)) => SourceIsRead(source, told);
    case _ =>
  }

  lemma QueueIsRead(cores: seq<D.WorkItem>, wires: seq<WorkItemV1>)
    ensures TryMap(WorkFromWire, wires) == Ok(cores) <==> Each(ShowsWork, cores, wires)
  {
    hide WorkFromWire, ShowsWork;
    if |cores| == |wires| {
      forall k | 0 <= k < |cores| ensures WorkFromWire(wires[k]) == Ok(cores[k]) <==> ShowsWork(cores[k], wires[k]) {
        WorkItemIsRead(cores[k], wires[k]);
      }
    }
    TryMapExactly(WorkFromWire, wires, cores);
  }

  lemma KindIsRead(core: D.ComponentKind, wire: ComponentKindV1)
    ensures KindFromWire(wire) == core <==> ShowsKind(core, wire)
  {
  }

  lemma StatusIsRead(core: D.GameStatus, wire: GameStatusV1)
    ensures StatusFromWire(wire) == Ok(core) <==> ShowsStatus(core, wire) && T.SupportedStatus(core)
  {
    hide KindFromWire, ShowsKind, Parse;
    match (core, wire)
    case (Broken(breakage), BrokenV1(told)) =>
      KindIsRead(breakage.expected, told.expected);
      IdIsRead(breakage.entity, told.entity);
    case _ =>
  }

  /** Rebuilding over a pool gives exactly the state over it that the projection depicts, if it can. */
  lemma RebuildsWhatIsDepicted(usizeMax: nat, projection: StateProjectionV1, cards: D.CardSet, state: D.GameState)
    ensures IntoGameState(usizeMax, projection, cards) == Ok(state) <==>
            && Depicts(projection, state) && state.cards == cards
            && T.BasesFit(usizeMax, projection.stackSegmentBases) && T.SupportedStatus(state.status)
  {
    hide PlayerStateFromWire, ShowsSide, StackItemFromWire, EachStackItem, WorkFromWire, Each, TurnFromWire, ShowsTurn,
      StatusFromWire, ShowsStatus, T.SupportedStatus, T.BasesFit, Maybe, PendingFromWire;
    SideIsRead(state.players.one, projection.players.one);
    SideIsRead(state.players.two, projection.players.two);
    TurnIsRead(state.turn, projection.turn);
    StackIsRead(state.stack, projection.stack);
    T.BasesRebuild(usizeMax, projection.stackSegmentBases);
    QueueIsRead(state.work, projection.work);
    PendingIsRead(state.pending, projection.pending);
    StatusIsRead(state.status, projection.status);
    assert state.coin.Some? ==> state.coin.value == D.Coin;
  }

  /** Every state is depicted by its own projection. */
  lemma ProjectionDepicts(state: D.GameState)
    ensures Depicts(FromState(state), state)
  {
    hide Depicts, FromState, IntoGameState;
    var playing, usizeMax := state.(status := D.Playing), T.LargestBase(state.stackSegmentBases);
    T.ProjectionIsLossless(usizeMax, playing);
    RebuildsWhatIsDepicted(usizeMax, FromState(playing), state.cards, playing);
    StatusIsTold(state.status);
    SameButStatus(state);
  }

  lemma StatusIsTold(status: D.GameStatus)
    ensures ShowsStatus(status, StatusToWire(status))
  {
    if status.Broken? {
      ParseUndoesDisplay(status.breakage.entity);
    }
  }

  lemma SameButStatus(state: D.GameState)
    requires Depicts(FromState(state.(status := D.Playing)), state.(status := D.Playing))
    requires ShowsStatus(state.status, StatusToWire(state.status))
    ensures Depicts(FromState(state), state)
  {
    hide ShowsSide, EachStackItem, ShowsTurn, ShowsStatus, Each, Maybe;
  }
}
