/**
 The state projection: `FromState` flattens a match state to its wire form and `IntoGameState`
 rebuilds one. Names without a suffix are core values; names ending in V1 are wire values.
 */
module StateProjection {
  import opened Wrappers
  import opened EntityIds
  import opened Sequences
  import opened WireState
  import D = Domain

  type Rebuilt<+T> = Result<T, StateRebuildError>

  // ----- Names with one wire spelling each -----

  function PlayerToWire(value: D.PlayerId): PlayerIdV1 {
    match value
    case One => OneV1
    case Two => TwoV1
  }

  function PlayerFromWire(value: PlayerIdV1): D.PlayerId {
    match value
    case OneV1 => D.One
    case TwoV1 => D.Two
  }

  function SlotToWire(value: D.BenchSlot): BenchSlotV1 {
    match value
    case First => FirstV1
    case Second => SecondV1
    case Third => ThirdV1
  }

  function SlotFromWire(value: BenchSlotV1): D.BenchSlot {
    match value
    case FirstV1 => D.First
    case SecondV1 => D.Second
    case ThirdV1 => D.Third
  }

  function PositionToWire(value: D.Position): PositionV1 {
    match value
    case Main => MainV1
    case Bench(slot) => BenchV1(SlotToWire(slot))
  }

  function PositionFromWire(value: PositionV1): D.Position {
    match value
    case MainV1 => D.Main
    case BenchV1(slot) => D.Position.Bench(SlotFromWire(slot))
  }

  function MarkerToWire(value: D.DurationMarker): DurationMarkerV1 {
    match value
    case CannotBeMovedByOpponent => CannotBeMovedByOpponentV1
  }

  function MarkerFromWire(value: DurationMarkerV1): D.DurationMarker {
    match value
    case CannotBeMovedByOpponentV1 => D.CannotBeMovedByOpponent
  }

  function ActivityToWire(value: D.UpgradeActivity): UpgradeActivityV1 {
    match value
    case Available => AvailableV1
    case PlayedThisTurn => PlayedThisTurnV1
    case UpgradedThisTurn => UpgradedThisTurnV1
  }

  function ActivityFromWire(value: UpgradeActivityV1): D.UpgradeActivity {
    match value
    case AvailableV1 => D.Available
    case PlayedThisTurnV1 => D.PlayedThisTurn
    case UpgradedThisTurnV1 => D.UpgradedThisTurn
  }

  function ReadinessToWire(value: D.Readiness): ReadinessV1 {
    match value
    case Ready => ReadyV1
    case Exhausted => ExhaustedV1
  }

  function ReadinessFromWire(value: ReadinessV1): D.Readiness {
    match value
    case ReadyV1 => D.Ready
    case ExhaustedV1 => D.Exhausted
  }

  function PhaseToWire(value: D.Phase): PhaseV1 {
    match value
    case Upkeep => UpkeepV1
    case MainPhase => MainPhaseV1
    case Combat => CombatV1
  }

  function PhaseFromWire(value: PhaseV1): D.Phase {
    match value
    case UpkeepV1 => D.Upkeep
    case MainPhaseV1 => D.MainPhase
    case CombatV1 => D.Combat
  }

  function ReasonToWire(value: D.LossReason): LossReasonV1 {
    match value
    case ThirdMainLoss => ThirdMainLossV1
    case NoPromotionAvailable => NoPromotionAvailableV1
    case EmptyDeckDraw => EmptyDeckDrawV1
    case Resignation => ResignationV1
  }

  function ReasonFromWire(value: LossReasonV1): D.LossReason {
    match value
    case ThirdMainLossV1 => D.ThirdMainLoss
    case NoPromotionAvailableV1 => D.NoPromotionAvailable
    case EmptyDeckDrawV1 => D.EmptyDeckDraw
    case ResignationV1 => D.Resignation
  }

  function KindToWire(value: D.ComponentKind): ComponentKindV1 {
    match value
    case NameKind => NameKindV1
    case AccountingIdKind => AccountingIdKindV1
    case LifeKind => LifeKindV1
    case RetreatCostKind => RetreatCostKindV1
    case FormKind => FormKindV1
    case ProducesKind => ProducesKindV1
    case TagsKind => TagsKindV1
    case CostKind => CostKindV1
    case SkillKind => SkillKindV1
    case AttackKind => AttackKindV1
    case TriggerKind => TriggerKindV1
    case EffectKind => EffectKindV1
    case PassiveKind => PassiveKindV1
    case TimingKind => TimingKindV1
    case EventKind => EventKindV1
    case RespondableKind => RespondableKindV1
    case PersistentKind => PersistentKindV1
  }

  function KindFromWire(value: ComponentKindV1): D.ComponentKind {
    match value
    case NameKindV1 => D.NameKind
    case AccountingIdKindV1 => D.AccountingIdKind
    case LifeKindV1 => D.LifeKind
    case RetreatCostKindV1 => D.RetreatCostKind
    case FormKindV1 => D.FormKind
    case ProducesKindV1 => D.ProducesKind
    case TagsKindV1 => D.TagsKind
    case CostKindV1 => D.CostKind
    case SkillKindV1 => D.SkillKind
    case AttackKindV1 => D.AttackKind
    case TriggerKindV1 => D.TriggerKind
    case EffectKindV1 => D.EffectKind
    case PassiveKindV1 => D.PassiveKind
    case TimingKindV1 => D.TimingKind
    case EventKindV1 => D.EventKind
    case RespondableKindV1 => D.RespondableKind
    case PersistentKindV1 => D.PersistentKind
  }

  function EventToWire(value: D.TriggerEvent): TriggerEventV1 {
    match value
    case YourUpkeep => YourUpkeepV1
    case EntersMain => EntersMainV1
    case EntersBench => EntersBenchV1
    case LeavesMain => LeavesMainV1
    case LeavesBench => LeavesBenchV1
    case AnySummonDestroyed => AnySummonDestroyedV1
  }

  function EventFromWire(value: TriggerEventV1): D.TriggerEvent {
    match value
    case YourUpkeepV1 => D.YourUpkeep
    case EntersMainV1 => D.EntersMain
    case EntersBenchV1 => D.EntersBench
    case LeavesMainV1 => D.LeavesMain
    case LeavesBenchV1 => D.LeavesBench
    case AnySummonDestroyedV1 => D.AnySummonDestroyed
  }

  function ConditionToWire(value: D.EffectCondition): EffectConditionV1 {
    match value
    case DefenderEnteredMainThisTurn => DefenderEnteredMainThisTurnV1
    case SpellPlayedThisTurn => SpellPlayedThisTurnV1
  }

  function ConditionFromWire(value: EffectConditionV1): D.EffectCondition {
    match value
    case DefenderEnteredMainThisTurnV1 => D.DefenderEnteredMainThisTurn
    case SpellPlayedThisTurnV1 => D.SpellPlayedThisTurn
  }

  function TargetToWire(value: D.EffectTarget): EffectTargetV1 {
    match value
    case SelectedTarget => SelectedTargetV1
    case SourceTarget => SourceTargetV1
  }

  function TargetFromWire(value: EffectTargetV1): D.EffectTarget {
    match value
    case SelectedTargetV1 => D.SelectedTarget
    case SourceTargetV1 => D.SourceTarget
  }

  function BlockToWire(value: D.ResponseBlock): ResponseBlockV1 {
    match value
    case AttackSpells => AttackSpellsV1
  }

  function BlockFromWire(value: ResponseBlockV1): D.ResponseBlock {
    match value
    case AttackSpellsV1 => D.AttackSpells
  }

  function StepToWire(value: D.MovementStep): MovementStepV1 {
    match value
    case LeavingMain => LeavingMainV1
    case EnteringBench => EnteringBenchV1
    case LeavingBench => LeavingBenchV1
    case EnteringMain => EnteringMainV1
  }

  function StepFromWire(value: MovementStepV1): D.MovementStep {
    match value
    case LeavingMainV1 => D.LeavingMain
    case EnteringBenchV1 => D.EnteringBench
    case LeavingBenchV1 => D.LeavingBench
    case EnteringMainV1 => D.EnteringMain
  }

  // ----- Values without entity ids -----

  function WindowToWire(value: D.StackWindow): StackWindowV1 {
    StackWindowV1(PlayerToWire(value.holder), value.priorPass)
  }

  function WindowFromWire(value: StackWindowV1): D.StackWindow {
    D.StackWindow(PlayerFromWire(value.holder), value.priorPass)
  }

  function TurnToWire(value: D.TurnState): TurnStateV1 {
    TurnStateV1(
      PlayerToWire(value.activePlayer),
      PhaseToWire(value.phase),
      MapOption(WindowToWire, value.window),
      value.normalAttackUsed,
      value.normalRetreatUsed,
      PerPlayerBoolV1(value.spellPlayedThisTurn.one, value.spellPlayedThisTurn.two))
  }

  function TurnFromWire(value: TurnStateV1): D.TurnState {
    D.TurnState(
      PlayerFromWire(value.activePlayer),
      PhaseFromWire(value.phase),
      MapOption(WindowFromWire, value.window),
      value.normalAttackUsed,
      value.normalRetreatUsed,
      D.PerPlayer(value.spellPlayedThisTurn.one, value.spellPlayedThisTurn.two))
  }

  function ManaSourceToWire(value: D.ManaSource): ManaSourceV1 {
    match value
    case PlayerSource => PlayerSourceV1
    case SummonSource(position) => SummonSourceV1(PositionToWire(position))
  }

  function ManaSourceFromWire(value: ManaSourceV1): D.ManaSource {
    match value
    case PlayerSourceV1 => D.PlayerSource
    case SummonSourceV1(position) => D.SummonSource(PositionFromWire(position))
  }

  function PendingToWire(value: D.PendingInput): PendingInputV1 {
    match value
    case ManaProduction(player, source) => ManaProductionV1(PlayerToWire(player), ManaSourceToWire(source))
    case Promotion(player) => PromotionV1(PlayerToWire(player))
    case PrizePick(chooser) => PrizePickV1(PlayerToWire(chooser))
  }

  function PendingFromWire(value: PendingInputV1): D.PendingInput {
    match value
    case ManaProductionV1(player, source) => D.ManaProduction(PlayerFromWire(player), ManaSourceFromWire(source))
    case PromotionV1(player) => D.Promotion(PlayerFromWire(player))
    case PrizePickV1(chooser) => D.PrizePick(PlayerFromWire(chooser))
  }

  function OutcomeToWire(value: D.GameOutcome): GameOutcomeV1 {
    GameOutcomeV1(PlayerToWire(value.winner), ReasonToWire(value.reason))
  }

  function OutcomeFromWire(value: GameOutcomeV1): D.GameOutcome {
    D.GameOutcome(PlayerFromWire(value.winner), ReasonFromWire(value.reason))
  }

  function AdditionToWire(value: D.DamageAddition): DamageAdditionV1 {
    DamageAdditionV1(value.amount, ConditionToWire(value.condition))
  }

  function AdditionFromWire(value: DamageAdditionV1): D.DamageAddition {
    D.DamageAddition(value.amount, ConditionFromWire(value.condition))
  }

  function ConstraintsToWire(value: D.DamageConstraints): DamageConstraintsV1 {
    DamageConstraintsV1(value & D.UNINCREASABLE != 0, value & D.UNPREVENTABLE != 0)
  }

  function ConstraintsFromWire(value: DamageConstraintsV1): D.DamageConstraints {
    (if value.unincreasable then D.UNINCREASABLE else 0) | (if value.unpreventable then D.UNPREVENTABLE else 0)
  }

  function DamageToWire(value: D.DamageEffect): DamageEffectV1 {
    DamageEffectV1(value.base, ConstraintsToWire(value.constraints), MapSeq(AdditionToWire, value.additions))
  }

  function DamageFromWire(value: DamageEffectV1): D.DamageEffect {
    D.DamageEffect(value.base, ConstraintsFromWire(value.constraints), MapSeq(AdditionFromWire, value.additions))
  }

  function LeafToWire(value: D.EffectLeaf): EffectLeafV1 {
    match value
    case DealDamage(damage) => DealDamageV1(DamageToWire(damage))
    case Heal(amount, target) => HealV1(amount, TargetToWire(target))
    case MoveSummon => MoveSummonV1
    case SwapPositions => SwapPositionsV1
    case BlockResponses(condition, block) => BlockResponsesV1(ConditionToWire(condition), BlockToWire(block))
    case ReturnSpellFromDiscard => ReturnSpellFromDiscardV1
    case LookAtPrizes => LookAtPrizesV1
    case DrawCards(amount) => DrawCardsV1(amount)
    case ReturnSpellToDeckTop => ReturnSpellToDeckTopV1
    case ProduceManaFor(target) => ProduceManaForV1(TargetToWire(target))
    case CannotBeMoved(target) => CannotBeMovedV1(TargetToWire(target))
    case ReadySummon => ReadySummonV1
    case SwapOpposingPositions => SwapOpposingPositionsV1
  }

  function LeafFromWire(value: EffectLeafV1): D.EffectLeaf {
    match value
    case DealDamageV1(damage) => D.DealDamage(DamageFromWire(damage))
    case HealV1(amount, target) => D.Heal(amount, TargetFromWire(target))
    case MoveSummonV1 => D.MoveSummon
    case SwapPositionsV1 => D.SwapPositions
    case BlockResponsesV1(condition, block) => D.BlockResponses(ConditionFromWire(condition), BlockFromWire(block))
    case ReturnSpellFromDiscardV1 => D.ReturnSpellFromDiscard
    case LookAtPrizesV1 => D.LookAtPrizes
    case DrawCardsV1(amount) => D.DrawCards(amount)
    case ReturnSpellToDeckTopV1 => D.ReturnSpellToDeckTop
    case ProduceManaForV1(target) => D.ProduceManaFor(TargetFromWire(target))
    case CannotBeMovedV1(target) => D.CannotBeMoved(TargetFromWire(target))
    case ReadySummonV1 => D.ReadySummon
    case SwapOpposingPositionsV1 => D.SwapOpposingPositions
  }

  // ----- Values that carry entity ids, so rebuilding can fail -----

  function IdFromWire(value: EntityIdV1): Rebuilt<EntityId> {
    match Parse(value)
    case Some(id) => Ok(id)
    case None => Err(InvalidEntityId(value))
  }

  function CardToWire(value: D.CardRef): CardRefV1 {
    CardRefV1(value.instance, Display(value.def))
  }

  function CardFromWire(value: CardRefV1): Rebuilt<D.CardRef> {
    var definition :- IdFromWire(value.definition);
    Ok(D.CardRef(value.instance, definition))
  }

  function CardsToWire(values: seq<D.CardRef>): seq<CardRefV1> {
    MapSeq(CardToWire, values)
  }

  function CardsFromWire(values: seq<CardRefV1>): Rebuilt<seq<D.CardRef>> {
    TryMap(CardFromWire, values)
  }

  function ChainToWire(value: D.UpgradeChain): UpgradeChainV1 {
    UpgradeChainV1(CardsToWire(value.Layers()))
  }

  function ChainFromWire(value: UpgradeChainV1): Rebuilt<D.UpgradeChain> {
    if value.layers == [] then Err(EmptyUpgradeChain)
    else
      var base :- CardFromWire(value.layers[0]);
      var rest :- CardsFromWire(value.layers[1..]);
      Ok(D.UpgradeChain(base, rest))
  }

  function SummonToWire(value: D.SummonInstance): SummonInstanceV1 {
    SummonInstanceV1(
      ChainToWire(value.chain),
      value.damage,
      ReadinessToWire(value.readiness),
      PlayerToWire(value.owner),
      PlayerToWire(value.controller),
      MapSeq(MarkerToWire, value.durationMarkers),
      SummonTurnRecordV1(ActivityToWire(value.turn.upgrade), value.turn.mainEntry.Some?))
  }

  function SummonFromWire(value: SummonInstanceV1): Rebuilt<D.SummonInstance> {
    var chain :- ChainFromWire(value.chain);
    Ok(D.SummonInstance(
      chain,
      value.damage,
      ReadinessFromWire(value.readiness),
      PlayerFromWire(value.owner),
      PlayerFromWire(value.controller),
      MapSeq(MarkerFromWire, value.durationMarkers),
      D.SummonTurnRecord(
        ActivityFromWire(value.turn.upgrade),
        if value.turn.enteredMain then Some(D.EnteredMain) else None)))
  }

  function BenchToWire(value: D.Bench<D.SummonInstance>): D.Bench<SummonInstanceV1> {
    D.BenchOf(
      MapOption(SummonToWire, value.first),
      MapOption(SummonToWire, value.second),
      MapOption(SummonToWire, value.third))
  }

  function BenchFromWire(value: D.Bench<SummonInstanceV1>): Rebuilt<D.Bench<D.SummonInstance>> {
    var first :- TryOption(SummonFromWire, value.first);
    var second :- TryOption(SummonFromWire, value.second);
    var third :- TryOption(SummonFromWire, value.third);
    Ok(D.BenchOf(first, second, third))
  }

  function PlayerStateToWire(value: D.PlayerState): PlayerStateV1 {
    PlayerStateV1(
      MapOption(SummonToWire, value.main),
      BenchToWire(value.bench),
      CardsToWire(value.deck),
      CardsToWire(value.hand),
      CardsToWire(value.prizes),
      CardsToWire(value.discard),
      ManaBankV1(value.mana.matter, value.mana.mind, value.mana.spirit),
      value.mainLosses,
      CardsToWire(value.enchantments))
  }

  function PlayerStateFromWire(value: PlayerStateV1): Rebuilt<D.PlayerState> {
    var main :- TryOption(SummonFromWire, value.main);
    var bench :- BenchFromWire(value.bench);
    var deck :- CardsFromWire(value.deck);
    var hand :- CardsFromWire(value.hand);
    var prizes :- CardsFromWire(value.prizes);
    var discard :- CardsFromWire(value.discard);
    var enchantments :- CardsFromWire(value.enchantments);
    Ok(D.PlayerState(main, bench, deck, hand, prizes, discard,
      D.ManaBank(value.mana.matter, value.mana.mind, value.mana.spirit), value.mainLosses, enchantments))
  }

  function StackItemToWire(value: D.StackItem): StackItemV1 {
    match value
    case AttackItem(attacker, target) => AttackItemV1(PlayerToWire(attacker), PositionToWire(target))
    case SpellItem(caster, card, targets) =>
      SpellItemV1(PlayerToWire(caster), CardToWire(card), MapSeq(PositionToWire, targets))
    case TriggerItem(controller, source, ability, event, targets, effects) =>
      TriggerItemV1(PlayerToWire(controller), PositionToWire(source), Display(ability), EventToWire(event),
        MapSeq(PositionToWire, targets), MapSeq(LeafToWire, effects))
  }

  function StackItemFromWire(value: StackItemV1): Rebuilt<D.StackItem> {
    match value
    case AttackItemV1(attacker, target) => Ok(D.AttackItem(PlayerFromWire(attacker), PositionFromWire(target)))
    case SpellItemV1(caster, card, targets) =>
      var card :- CardFromWire(card);
      Ok(D.SpellItem(PlayerFromWire(caster), card, MapSeq(PositionFromWire, targets)))
    case TriggerItemV1(controller, source, ability, event, targets, effects) =>
      var ability :- IdFromWire(ability);
      Ok(D.TriggerItem(PlayerFromWire(controller), PositionFromWire(source), ability, EventFromWire(event),
        MapSeq(PositionFromWire, targets), MapSeq(LeafFromWire, effects)))
  }

  function WorkToWire(value: D.WorkItem): WorkItemV1 {
    match value
    case DestructionCheck(position) => DestructionCheckV1(PositionToWire(position))
    case DiscardDestroyedChain(position) => DiscardDestroyedChainV1(PositionToWire(position))
    case RecordMainLoss(player) => RecordMainLossV1(PlayerToWire(player))
    case RecoverPrize(player) => RecoverPrizeV1(PlayerToWire(player))
    case PromoteBenchSummon(player) => PromoteBenchSummonV1(PlayerToWire(player))
    case ResolveMovementConsequences(player) => ResolveMovementConsequencesV1(PlayerToWire(player))
    case MovementTrigger(step, player, position) =>
      MovementTriggerV1(StepToWire(step), PlayerToWire(player), PositionToWire(position))
    case FireTrigger(player, position, event, ability) =>
      FireTriggerV1(PlayerToWire(player), PositionToWire(position), EventToWire(event), Display(ability))
    case LossCheck(player) => LossCheckV1(PlayerToWire(player))
    case ReadyAll => ReadyAllV1
    case DrawCard => DrawCardV1
    case ProduceMana(player, source) => ProduceManaV1(PlayerToWire(player), ManaSourceToWire(source))
    case BeginMainPhase => BeginMainPhaseV1
  }

  function WorkFromWire(value: WorkItemV1): Rebuilt<D.WorkItem> {
    match value
    case DestructionCheckV1(position) => Ok(D.DestructionCheck(PositionFromWire(position)))
    case DiscardDestroyedChainV1(position) => Ok(D.DiscardDestroyedChain(PositionFromWire(position)))
    case RecordMainLossV1(player) => Ok(D.RecordMainLoss(PlayerFromWire(player)))
    case RecoverPrizeV1(player) => Ok(D.RecoverPrize(PlayerFromWire(player)))
    case PromoteBenchSummonV1(player) => Ok(D.PromoteBenchSummon(PlayerFromWire(player)))
    case ResolveMovementConsequencesV1(player) => Ok(D.ResolveMovementConsequences(PlayerFromWire(player)))
    case MovementTriggerV1(step, player, position) =>
      Ok(D.MovementTrigger(StepFromWire(step), PlayerFromWire(player), PositionFromWire(position)))
    case FireTriggerV1(player, position, event, ability) =>
      var ability :- IdFromWire(ability);
      Ok(D.FireTrigger(PlayerFromWire(player), PositionFromWire(position), EventFromWire(event), ability))
    case LossCheckV1(player) => Ok(D.LossCheck(PlayerFromWire(player)))
    case ReadyAllV1 => Ok(D.ReadyAll)
    case DrawCardV1 => Ok(D.DrawCard)
    case ProduceManaV1(player, source) => Ok(D.ProduceMana(PlayerFromWire(player), ManaSourceFromWire(source)))
    case BeginMainPhaseV1 => Ok(D.BeginMainPhase)
  }

  function StatusToWire(value: D.GameStatus): GameStatusV1 {
    match value
    case Playing => PlayingV1
    case Ended(outcome) => EndedV1(OutcomeToWire(outcome))
    case Broken(breakage) =>
      BrokenV1(BreakageV1(breakage.rule, Display(breakage.entity), KindToWire(breakage.expected)))
  }

  /** Only two breakage rules have a name the rebuilt state can point at. */
  predicate SupportedRule(rule: string) {
    rule == "destruction" || rule == "retreat"
  }

  function StatusFromWire(value: GameStatusV1): Rebuilt<D.GameStatus> {
    match value
    case PlayingV1 => Ok(D.Playing)
    case EndedV1(outcome) => Ok(D.Ended(OutcomeFromWire(outcome)))
    case BrokenV1(breakage) =>
      if !SupportedRule(breakage.rule) then Err(UnsupportedBreakageRule(breakage.rule))
      else
        var entity :- IdFromWire(breakage.entity);
        Ok(D.Broken(D.Breakage(breakage.rule, entity, KindFromWire(breakage.expected))))
  }

  /** `usizeMax` is the largest index the rebuilding machine can hold. */
  function BaseFromWire(usizeMax: nat): nat -> Rebuilt<nat> {
    base => if base <= usizeMax then Ok(base) else Err(StackSegmentBaseOutOfRange(base))
  }

  function FromState(state: D.GameState): StateProjectionV1 {
    StateProjectionV1(
      PlayersV1(PlayerStateToWire(state.players.one), PlayerStateToWire(state.players.two)),
      state.coin.Some?,
      TurnToWire(state.turn),
      MapSeq(StackItemToWire, state.stack),
      state.stackSegmentBases,
      MapSeq(WorkToWire, state.work),
      MapOption(PendingToWire, state.pending),
      StatusToWire(state.status))
  }

  function IntoGameState(usizeMax: nat, projection: StateProjectionV1, cards: D.CardSet): Rebuilt<D.GameState> {
    var one :- PlayerStateFromWire(projection.players.one);
    var two :- PlayerStateFromWire(projection.players.two);
    var stack :- TryMap(StackItemFromWire, projection.stack);
    var bases :- TryMap(BaseFromWire(usizeMax), projection.stackSegmentBases);
    var work :- TryMap(WorkFromWire, projection.work);
    var status :- StatusFromWire(projection.status);
    Ok(D.GameState(
      D.PerPlayer(one, two),
      if projection.coin then Some(D.Coin) else None,
      TurnFromWire(projection.turn),
      stack,
      bases,
      work,
      MapOption(PendingFromWire, projection.pending),
      status,
      cards))
  }
}
