/**
 What a refused rebuild says. A projection is read in the order it is written down; everything in it
 that can be wrong is listed here in that order, and the error is that of the first thing that is.
 */
module RebuildRefusals {
  import opened Wrappers
  import opened EntityIds
  import opened Sequences
  import opened WireState
  import opened StateProjection
  import D = Domain

  /** One thing that can be wrong with a projection. */
  datatype Check =
    | AnId(text: string)
    | AChain(length: nat)
    | ABase(base: nat)
    | ARule(rule: string)

  function Fault(usizeMax: nat, check: Check): Option<StateRebuildError> {
    match check
    case AnId(text) => if Parse(text).None? then Some(InvalidEntityId(text)) else None
    case AChain(length) => if length == 0 then Some(EmptyUpgradeChain) else None
    case ABase(base) => if base > usizeMax then Some(StackSegmentBaseOutOfRange(base)) else None
    case ARule(rule) => if rule !in {"destruction", "retreat"} then Some(UnsupportedBreakageRule(rule)) else None
  }

  function FirstFault(usizeMax: nat, checks: seq<Check>): Option<StateRebuildError> {
    if checks == [] then None
    else if Fault(usizeMax, checks[0]).Some? then Fault(usizeMax, checks[0])
    else FirstFault(usizeMax, checks[1..])
  }

  function All<A>(list: A -> seq<Check>, items: seq<A>): seq<Check> {
    if items == [] then [] else list(items[0]) + All(list, items[1..])
  }

  function Any<A>(list: A -> seq<Check>, item: Option<A>): seq<Check> {
    if item.Some? then list(item.value) else []
  }

  // ----- What there is to check -----

  function CardChecks(card: CardRefV1): seq<Check> {
    [AnId(card.definition)]
  }

  function SummonChecks(summon: SummonInstanceV1): seq<Check> {
    [AChain(|summon.chain.layers|)] + All(CardChecks, summon.chain.layers)
  }

  function SideChecks(player: PlayerStateV1): seq<Check> {
    Any(SummonChecks, player.main)
    + Any(SummonChecks, player.bench.first) + Any(SummonChecks, player.bench.second)
    + Any(SummonChecks, player.bench.third)
    + All(CardChecks, player.deck) + All(CardChecks, player.hand) + All(CardChecks, player.prizes)
    + All(CardChecks, player.discard) + All(CardChecks, player.enchantments)
  }

  function StackChecks(item: StackItemV1): seq<Check> {
    match item
    case AttackItemV1(_, _) => []
    case SpellItemV1(_, card, _) => CardChecks(card)
    case TriggerItemV1(_, _, ability, _, _, _) => [AnId(ability)]
  }

  function WorkChecks(item: WorkItemV1): seq<Check> {
    if item.FireTriggerV1? then [AnId(item.ability)] else []
  }

  function StatusChecks(status: GameStatusV1): seq<Check> {
    match status
    case BrokenV1(breakage) => [ARule(breakage.rule), AnId(breakage.entity)]
    case _ => []
  }

  function BaseChecks(base: nat): seq<Check> {
    [ABase(base)]
  }

  /** Everything that can be wrong with a projection, in the order it is written down. */
  function Checks(projection: StateProjectionV1): seq<Check> {
    SideChecks(projection.players.one) + SideChecks(projection.players.two)
    + All(StackChecks, projection.stack) + All(BaseChecks, projection.stackSegmentBases)
    + All(WorkChecks, projection.work) + StatusChecks(projection.status)
  }

  // ----- One thing after another -----

  function Refusal<T>(r: Rebuilt<T>): Option<StateRebuildError> {
    if r.Err? then Some(r.error) else None
  }

  function Or(first: Option<StateRebuildError>, second: Option<StateRebuildError>): Option<StateRebuildError> {
    if first.Some? then first else second
  }

  lemma {:induction false} InTurn(usizeMax: nat, first: seq<Check>, second: seq<Check>)
    ensures FirstFault(usizeMax, first + second) ==
            Or(FirstFault(usizeMax, first), FirstFault(usizeMax, second))
  {
    if first == [] {
      assert first + second == second;
    } else {
      InTurn(usizeMax, first[1..], second);
      assert (first + second)[1..] == first[1..] + second;
    }
  }

  /** A reader of one value refuses it for the first fault among its checks. */
  ghost predicate Reads<A(!new), B>(usizeMax: nat, read: A -> Rebuilt<B>, list: A -> seq<Check>) {
    forall item :: Refusal(read(item)) == FirstFault(usizeMax, list(item))
  }

  lemma {:induction false} ReadsEach<A(!new), B>(usizeMax: nat, read: A -> Rebuilt<B>, list: A -> seq<Check>,
                                                 items: seq<A>)
    requires Reads(usizeMax, read, list)
    ensures Refusal(TryMap(read, items)) == FirstFault(usizeMax, All(list, items))
  {
    if items != [] {
      ReadsEach(usizeMax, read, list, items[1..]);
      InTurn(usizeMax, list(items[0]), All(list, items[1..]));
      assert Refusal(read(items[0])) == FirstFault(usizeMax, list(items[0]));
    }
  }

  lemma ReadsAny<A(!new), B>(usizeMax: nat, read: A -> Rebuilt<B>, list: A -> seq<Check>, item: Option<A>)
    requires Reads(usizeMax, read, list)
    ensures Refusal(TryOption(read, item)) == FirstFault(usizeMax, Any(list, item))
  {
    if item.Some? {
      assert Refusal(read(item.value)) == FirstFault(usizeMax, list(item.value));
    }
  }

  // ----- Each reader -----

  lemma CardsAreRead(usizeMax: nat)
    ensures Reads(usizeMax, CardFromWire, CardChecks)
  {
    forall card: CardRefV1 ensures Refusal(CardFromWire(card)) == FirstFault(usizeMax, CardChecks(card)) {
    }
  }

  lemma SummonIsRead(usizeMax: nat, summon: SummonInstanceV1)
    ensures Refusal(SummonFromWire(summon)) == FirstFault(usizeMax, SummonChecks(summon))
  {
    var layers := summon.chain.layers;
    CardsAreRead(usizeMax);
    ReadsEach(usizeMax, CardFromWire, CardChecks, layers);
    InTurn(usizeMax, [AChain(|layers|)], All(CardChecks, layers));
    hide CardFromWire, CardChecks, Reads;
    assert Refusal(SummonFromWire(summon)) == Refusal(ChainFromWire(summon.chain));
    if layers != [] {
      assert Refusal(ChainFromWire(summon.chain)) == Refusal(TryMap(CardFromWire, layers));
    }
  }

  lemma SummonsAreRead(usizeMax: nat)
    ensures Reads(usizeMax, SummonFromWire, SummonChecks)
  {
    forall summon: SummonInstanceV1
      ensures Refusal(SummonFromWire(summon)) == FirstFault(usizeMax, SummonChecks(summon))
    {
      SummonIsRead(usizeMax, summon);
    }
  }

  lemma SideIsRead(usizeMax: nat, player: PlayerStateV1)
    ensures Refusal(PlayerStateFromWire(player)) == FirstFault(usizeMax, SideChecks(player))
  {
    CardsAreRead(usizeMax);
    SummonsAreRead(usizeMax);
    hide Reads, SummonFromWire, SummonChecks, CardFromWire, CardChecks, TryMap, TryOption, All, Any, FirstFault;
    var bench := player.bench;
    ReadsAny(usizeMax, SummonFromWire, SummonChecks, player.main);
    ReadsAny(usizeMax, SummonFromWire, SummonChecks, bench.first);
    ReadsAny(usizeMax, SummonFromWire, SummonChecks, bench.second);
    ReadsAny(usizeMax, SummonFromWire, SummonChecks, bench.third);
    ReadsEach(usizeMax, CardFromWire, CardChecks, player.deck);
    ReadsEach(usizeMax, CardFromWire, CardChecks, player.hand);
    ReadsEach(usizeMax, CardFromWire, CardChecks, player.prizes);
    ReadsEach(usizeMax, CardFromWire, CardChecks, player.discard);
    ReadsEach(usizeMax, CardFromWire, CardChecks, player.enchantments);
    var before := Any(SummonChecks, player.main);
    before := InTurnOf(usizeMax, before, Any(SummonChecks, bench.first));
    before := InTurnOf(usizeMax, before, Any(SummonChecks, bench.second));
    before := InTurnOf(usizeMax, before, Any(SummonChecks, bench.third));
    before := InTurnOf(usizeMax, before, All(CardChecks, player.deck));
    before := InTurnOf(usizeMax, before, All(CardChecks, player.hand));
    before := InTurnOf(usizeMax, before, All(CardChecks, player.prizes));
    before := InTurnOf(usizeMax, before, All(CardChecks, player.discard));
    before := InTurnOf(usizeMax, before, All(CardChecks, player.enchantments));
  }

  lemma InTurnOf(usizeMax: nat, first: seq<Check>, second: seq<Check>) returns (both: seq<Check>)
    ensures both == first + second
    ensures FirstFault(usizeMax, both) == Or(FirstFault(usizeMax, first), FirstFault(usizeMax, second))
  {
    both := first + second;
    InTurn(usizeMax, first, second);
  }

  lemma ItemsAreRead(usizeMax: nat)
    ensures Reads(usizeMax, StackItemFromWire, StackChecks)
    ensures Reads(usizeMax, WorkFromWire, WorkChecks)
    ensures Reads(usizeMax, BaseFromWire(usizeMax), BaseChecks)
  {
    forall item: StackItemV1 ensures Refusal(StackItemFromWire(item)) == FirstFault(usizeMax, StackChecks(item)) {
    }
    forall item: WorkItemV1 ensures Refusal(WorkFromWire(item)) == FirstFault(usizeMax, WorkChecks(item)) {
    }
  }

  lemma StatusIsRead(usizeMax: nat, status: GameStatusV1)
    ensures Refusal(StatusFromWire(status)) == FirstFault(usizeMax, StatusChecks(status))
  {
    if status.BrokenV1? {
      var entity := AnId(status.breakage.entity);
      assert StatusChecks(status)[1..] == [entity];
      assert FirstFault(usizeMax, [entity]) == Fault(usizeMax, entity);
    }
  }

  /** A rebuild is refused exactly when something is wrong, and for the first thing that is. */
  lemma RebuildRefusesFirstFault(usizeMax: nat, projection: StateProjectionV1, cards: D.CardSet)
    ensures Refusal(IntoGameState(usizeMax, projection, cards)) == FirstFault(usizeMax, Checks(projection))
  {
    ItemsAreRead(usizeMax);
    SideIsRead(usizeMax, projection.players.one);
    SideIsRead(usizeMax, projection.players.two);
    StatusIsRead(usizeMax, projection.status);
    hide Reads, PlayerStateFromWire, SideChecks, StackItemFromWire, StackChecks, WorkFromWire, WorkChecks,
      BaseFromWire, BaseChecks, StatusFromWire, StatusChecks, TryMap, All, FirstFault;
    ReadsEach(usizeMax, StackItemFromWire, StackChecks, projection.stack);
    ReadsEach(usizeMax, BaseFromWire(usizeMax), BaseChecks, projection.stackSegmentBases);
    ReadsEach(usizeMax, WorkFromWire, WorkChecks, projection.work);
    var before := SideChecks(projection.players.one);
    before := InTurnOf(usizeMax, before, SideChecks(projection.players.two));
    before := InTurnOf(usizeMax, before, All(StackChecks, projection.stack));
    before := InTurnOf(usizeMax, before, All(BaseChecks, projection.stackSegmentBases));
    before := InTurnOf(usizeMax, before, All(WorkChecks, projection.work));
    before := InTurnOf(usizeMax, before, StatusChecks(projection.status));
  }
}
