/** The authoritative match state of the core rules library. */
module Domain {
  import opened Wrappers
  import opened EntityIds

  datatype PlayerId = One | Two

  datatype BenchSlot = First | Second | Third

  datatype Position = Main | Bench(slot: BenchSlot)

  datatype CardRef = CardRef(instance: nat, def: EntityId)

  /** Never empty: the base card is a field of its own. */
  datatype UpgradeChain = UpgradeChain(base: CardRef, rest: seq<CardRef>) {
    function Layers(): seq<CardRef> {
      [base] + rest
    }
  }

  datatype DurationMarker = CannotBeMovedByOpponent

  datatype UpgradeActivity = Available | PlayedThisTurn | UpgradedThisTurn

  datatype EnteredMain = EnteredMain

  datatype SummonTurnRecord = SummonTurnRecord(upgrade: UpgradeActivity, mainEntry: Option<EnteredMain>)

  datatype Readiness = Ready | Exhausted

  datatype SummonInstance = SummonInstance(
    chain: UpgradeChain,
    damage: nat,
    readiness: Readiness,
    owner: PlayerId,
    controller: PlayerId,
    durationMarkers: seq<DurationMarker>,
    turn: SummonTurnRecord)

  datatype ManaBank = ManaBank(matter: nat, mind: nat, spirit: nat)

  datatype Coin = Coin

  /** The three Bench places, the source's fixed-size array. */
  datatype Bench<+T> = BenchOf(first: Option<T>, second: Option<T>, third: Option<T>)

  datatype PlayerState = PlayerState(
    main: Option<SummonInstance>,
    bench: Bench<SummonInstance>,
    deck: seq<CardRef>,
    hand: seq<CardRef>,
    prizes: seq<CardRef>,
    discard: seq<CardRef>,
    mana: ManaBank,
    mainLosses: nat,
    enchantments: seq<CardRef>)

  datatype PerPlayer<+T> = PerPlayer(one: T, two: T)

  datatype StackWindow = StackWindow(holder: PlayerId, priorPass: bool)

  datatype Phase = Upkeep | MainPhase | Combat

  datatype TurnState = TurnState(
    activePlayer: PlayerId,
    phase: Phase,
    window: Option<StackWindow>,
    normalAttackUsed: bool,
    normalRetreatUsed: bool,
    spellPlayedThisTurn: PerPlayer<bool>)

  datatype ManaSource = PlayerSource | SummonSource(position: Position)

  datatype PendingInput =
    | ManaProduction(player: PlayerId, source: ManaSource)
    | Promotion(player: PlayerId)
    | PrizePick(chooser: PlayerId)

  datatype LossReason = ThirdMainLoss | NoPromotionAvailable | EmptyDeckDraw | Resignation

  datatype GameOutcome = GameOutcome(winner: PlayerId, reason: LossReason)

  datatype ComponentKind =
    | NameKind | AccountingIdKind | LifeKind | RetreatCostKind | FormKind | ProducesKind | TagsKind | CostKind
    | SkillKind | AttackKind | TriggerKind | EffectKind | PassiveKind | TimingKind | EventKind | RespondableKind
    | PersistentKind

  datatype Breakage = Breakage(rule: string, entity: EntityId, expected: ComponentKind)

  datatype GameStatus = Playing | Ended(outcome: GameOutcome) | Broken(breakage: Breakage)

  datatype TriggerEvent = YourUpkeep | EntersMain | EntersBench | LeavesMain | LeavesBench | AnySummonDestroyed

  datatype EffectCondition = DefenderEnteredMainThisTurn | SpellPlayedThisTurn

  datatype EffectTarget = SelectedTarget | SourceTarget

  /** The source's one-byte bit mask; bits 0 and 1 are the only ones its constructors can set. */
  type DamageConstraints = mask: bv8 | mask & 0xFC == 0
  const UNINCREASABLE: bv8 := 1
  const UNPREVENTABLE: bv8 := 2

  datatype DamageAddition = DamageAddition(amount: nat, condition: EffectCondition)

  datatype DamageEffect = DamageEffect(base: nat, constraints: DamageConstraints, additions: seq<DamageAddition>)

  datatype ResponseBlock = AttackSpells

  datatype EffectLeaf =
    | DealDamage(damage: DamageEffect)
    | Heal(amount: nat, target: EffectTarget)
    | MoveSummon
    | SwapPositions
    | BlockResponses(condition: EffectCondition, block: ResponseBlock)
    | ReturnSpellFromDiscard
    | LookAtPrizes
    | DrawCards(amount: nat)
    | ReturnSpellToDeckTop
    | ProduceManaFor(target: EffectTarget)
    | CannotBeMoved(target: EffectTarget)
    | ReadySummon
    | SwapOpposingPositions

  datatype StackItem =
    | AttackItem(attacker: PlayerId, target: Position)
    | SpellItem(caster: PlayerId, card: CardRef, targets: seq<Position>)
    | TriggerItem(controller: PlayerId, source: Position, ability: EntityId, event: TriggerEvent,
                  targets: seq<Position>, effects: seq<EffectLeaf>)

  datatype MovementStep = LeavingMain | EnteringBench | LeavingBench | EnteringMain

  datatype WorkItem =
    | DestructionCheck(position: Position)
    | DiscardDestroyedChain(position: Position)
    | RecordMainLoss(player: PlayerId)
    | RecoverPrize(player: PlayerId)
    | PromoteBenchSummon(player: PlayerId)
    | ResolveMovementConsequences(player: PlayerId)
    | MovementTrigger(step: MovementStep, player: PlayerId, position: Position)
    | FireTrigger(player: PlayerId, position: Position, event: TriggerEvent, ability: EntityId)
    | LossCheck(player: PlayerId)
    | ReadyAll
    | DrawCard
    | ProduceMana(player: PlayerId, source: ManaSource)
    | BeginMainPhase

  datatype Form = Base | Enhanced | Elite

  /** A card definition; only its printed Form is read by the code modelled here. */
  datatype Entity = Entity(id: EntityId, form: Option<Form>)

  /**
   The shared card pool. `handle` is the identity of the shared pointer, which is what
   state equality compares.
   */
  datatype CardSet = CardSet(handle: nat, entities: seq<Entity>) {
    /** The first entity carrying the id, as the pool's index resolves it. */
    function Get(id: EntityId): (r: Option<Entity>)
      ensures r.Some? ==> r.value in entities && r.value.id == id
      ensures r.None? ==> forall entity | entity in entities :: entity.id != id
    {
      FirstWithId(entities, id)
    }
  }

  function FirstWithId(entities: seq<Entity>, id: EntityId): (r: Option<Entity>)
    ensures r.Some? ==> r.value in entities && r.value.id == id
    ensures r.None? ==> forall entity | entity in entities :: entity.id != id
  {
    if entities == [] then None
    else if entities[0].id == id then Some(entities[0])
    else FirstWithId(entities[1..], id)
  }

  datatype GameState = GameState(
    players: PerPlayer<PlayerState>,
    coin: Option<Coin>,
    turn: TurnState,
    stack: seq<StackItem>,
    stackSegmentBases: seq<nat>,
    work: seq<WorkItem>,
    pending: Option<PendingInput>,
    status: GameStatus,
    cards: CardSet)
}
