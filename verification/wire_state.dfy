/** The version 1 wire form of the match state, field by field. */
module WireState {
  import opened Wrappers
  import D = Domain

  /** Entity ids travel as text; nothing in the type says the text is canonical. */
  type EntityIdV1 = string

  datatype PlayerIdV1 = OneV1 | TwoV1
  datatype BenchSlotV1 = FirstV1 | SecondV1 | ThirdV1
  datatype PositionV1 = MainV1 | BenchV1(slot: BenchSlotV1)
  datatype CardRefV1 = CardRefV1(instance: nat, definition: EntityIdV1)
  /** Unlike the core chain, the wire chain can be empty. */
  datatype UpgradeChainV1 = UpgradeChainV1(layers: seq<CardRefV1>)
  datatype DurationMarkerV1 = CannotBeMovedByOpponentV1
  datatype UpgradeActivityV1 = AvailableV1 | PlayedThisTurnV1 | UpgradedThisTurnV1
  datatype SummonTurnRecordV1 = SummonTurnRecordV1(upgrade: UpgradeActivityV1, enteredMain: bool)
  datatype ReadinessV1 = ReadyV1 | ExhaustedV1
  datatype SummonInstanceV1 = SummonInstanceV1(
    chain: UpgradeChainV1,
    damage: nat,
    readiness: ReadinessV1,
    owner: PlayerIdV1,
    controller: PlayerIdV1,
    durationMarkers: seq<DurationMarkerV1>,
    turn: SummonTurnRecordV1)
  datatype ManaBankV1 = ManaBankV1(matter: nat, mind: nat, spirit: nat)
  datatype PlayerStateV1 = PlayerStateV1(
    main: Option<SummonInstanceV1>,
    bench: D.Bench<SummonInstanceV1>,
    deck: seq<CardRefV1>,
    hand: seq<CardRefV1>,
    prizes: seq<CardRefV1>,
    discard: seq<CardRefV1>,
    mana: ManaBankV1,
    mainLosses: nat,
    enchantments: seq<CardRefV1>)
  datatype PlayersV1 = PlayersV1(one: PlayerStateV1, two: PlayerStateV1)
  datatype PerPlayerBoolV1 = PerPlayerBoolV1(one: bool, two: bool)
  datatype StackWindowV1 = StackWindowV1(holder: PlayerIdV1, priorPass: bool)
  datatype PhaseV1 = UpkeepV1 | MainPhaseV1 | CombatV1
  datatype TurnStateV1 = TurnStateV1(
    activePlayer: PlayerIdV1,
    phase: PhaseV1,
    window: Option<StackWindowV1>,
    normalAttackUsed: bool,
    normalRetreatUsed: bool,
    spellPlayedThisTurn: PerPlayerBoolV1)
  datatype ManaSourceV1 = PlayerSourceV1 | SummonSourceV1(position: PositionV1)
  datatype PendingInputV1 =
    | ManaProductionV1(player: PlayerIdV1, source: ManaSourceV1)
    | PromotionV1(player: PlayerIdV1)
    | PrizePickV1(chooser: PlayerIdV1)
  datatype LossReasonV1 = ThirdMainLossV1 | NoPromotionAvailableV1 | EmptyDeckDrawV1 | ResignationV1
  datatype GameOutcomeV1 = GameOutcomeV1(winner: PlayerIdV1, reason: LossReasonV1)
  datatype ComponentKindV1 =
    | NameKindV1 | AccountingIdKindV1 | LifeKindV1 | RetreatCostKindV1 | FormKindV1 | ProducesKindV1 | TagsKindV1
    | CostKindV1 | SkillKindV1 | AttackKindV1 | TriggerKindV1 | EffectKindV1 | PassiveKindV1 | TimingKindV1
    | EventKindV1 | RespondableKindV1 | PersistentKindV1
  datatype BreakageV1 = BreakageV1(rule: string, entity: EntityIdV1, expected: ComponentKindV1)
  datatype GameStatusV1 = PlayingV1 | EndedV1(outcome: GameOutcomeV1) | BrokenV1(breakage: BreakageV1)
  datatype TriggerEventV1 =
    | YourUpkeepV1 | EntersMainV1 | EntersBenchV1 | LeavesMainV1 | LeavesBenchV1 | AnySummonDestroyedV1
  datatype EffectConditionV1 = DefenderEnteredMainThisTurnV1 | SpellPlayedThisTurnV1
  datatype EffectTargetV1 = SelectedTargetV1 | SourceTargetV1
  datatype DamageConstraintsV1 = DamageConstraintsV1(unincreasable: bool, unpreventable: bool)
  datatype DamageAdditionV1 = DamageAdditionV1(amount: nat, condition: EffectConditionV1)
  datatype DamageEffectV1 =
    DamageEffectV1(base: nat, constraints: DamageConstraintsV1, additions: seq<DamageAdditionV1>)
  datatype ResponseBlockV1 = AttackSpellsV1
  datatype EffectLeafV1 =
    | DealDamageV1(damage: DamageEffectV1)
    | HealV1(amount: nat, target: EffectTargetV1)
    | MoveSummonV1
    | SwapPositionsV1
    | BlockResponsesV1(condition: EffectConditionV1, block: ResponseBlockV1)
    | ReturnSpellFromDiscardV1
    | LookAtPrizesV1
    | DrawCardsV1(amount: nat)
    | ReturnSpellToDeckTopV1
    | ProduceManaForV1(target: EffectTargetV1)
    | CannotBeMovedV1(target: EffectTargetV1)
    | ReadySummonV1
    | SwapOpposingPositionsV1
  datatype StackItemV1 =
    | AttackItemV1(attacker: PlayerIdV1, target: PositionV1)
    | SpellItemV1(caster: PlayerIdV1, card: CardRefV1, targets: seq<PositionV1>)
    | TriggerItemV1(controller: PlayerIdV1, source: PositionV1, ability: EntityIdV1, event: TriggerEventV1,
                    targets: seq<PositionV1>, effects: seq<EffectLeafV1>)
  datatype MovementStepV1 = LeavingMainV1 | EnteringBenchV1 | LeavingBenchV1 | EnteringMainV1
  datatype WorkItemV1 =
    | DestructionCheckV1(position: PositionV1)
    | DiscardDestroyedChainV1(position: PositionV1)
    | RecordMainLossV1(player: PlayerIdV1)
    | RecoverPrizeV1(player: PlayerIdV1)
    | PromoteBenchSummonV1(player: PlayerIdV1)
    | ResolveMovementConsequencesV1(player: PlayerIdV1)
    | MovementTriggerV1(step: MovementStepV1, player: PlayerIdV1, position: PositionV1)
    | FireTriggerV1(player: PlayerIdV1, position: PositionV1, event: TriggerEventV1, ability: EntityIdV1)
    | LossCheckV1(player: PlayerIdV1)
    | ReadyAllV1
    | DrawCardV1
    | ProduceManaV1(player: PlayerIdV1, source: ManaSourceV1)
    | BeginMainPhaseV1
  datatype StateProjectionV1 = StateProjectionV1(
    players: PlayersV1,
    coin: bool,
    turn: TurnStateV1,
    stack: seq<StackItemV1>,
    stackSegmentBases: seq<nat>,
    work: seq<WorkItemV1>,
    pending: Option<PendingInputV1>,
    status: GameStatusV1)

  datatype StateRebuildError =
    | InvalidEntityId(value: string)
    | EmptyUpgradeChain
    | StackSegmentBaseOutOfRange(base: nat)
    | UnsupportedBreakageRule(rule: string)
}
