/**
 Card Sets and the library they form: minted identities, the qualified index over all Sets and the
 shared card pool, with no identity claimed twice.
 */
module CardLibraries {
  import opened Wrappers
  import opened EntityIds
  import D = Domain

  /** The version 5 UUID of a name in the fixed namespace. */
  type Minter = string -> EntityId

  datatype AbilityModel = AbilityModel(role: string, code: string)

  /** A validated card; only a Summon prints a Form. */
  datatype CardModel = CardModel(code: string, form: Option<D.Form>, abilities: seq<AbilityModel>)

  datatype SetModel = SetModel(code: string, revision: nat, cards: seq<CardModel>)

  datatype LoadedSet = LoadedSet(
    id: EntityId,
    code: string,
    revision: nat,
    cards: seq<D.Entity>,
    cardIds: map<string, EntityId>,
    abilityIds: map<(string, string), EntityId>)

  datatype SetLoadError = GeneratedIdRejected(text: string) | DuplicateGeneratedId(id: EntityId)

  // ----- Converting one Set -----

  function Mint(minter: Minter, name: string): (r: Result<EntityId, SetLoadError>)
    ensures r == Ok(minter(name))
  {
    var canonical := Display(minter(name));
    ParseUndoesDisplay(minter(name));
    match Parse(canonical)
    case Some(id) => Ok(id)
    case None => Err(GeneratedIdRejected(canonical))
  }

  function SetName(setCode: string): string {
    "set:" + setCode
  }

  function CardName(setCode: string, card: string): string {
    "set:" + setCode + "/card:" + card
  }

  function AbilityName(setCode: string, card: string, ability: AbilityModel): string {
    "set:" + setCode + "/card:" + card + "/ability:" + ability.role + ":" + ability.code
  }

  /** A Set under conversion, with every identity minted so far. */
  datatype Registry = Registry(
    seen: set<EntityId>,
    entities: seq<D.Entity>,
    cardIds: map<string, EntityId>,
    abilityIds: map<(string, string), EntityId>)

  function RejectDuplicateId(seen: set<EntityId>, id: EntityId): Result<set<EntityId>, SetLoadError> {
    if id in seen then Err(DuplicateGeneratedId(id)) else Ok(seen + {id})
  }

  function ConvertAbilities(minter: Minter, setCode: string, card: CardModel, n: nat, registry: Registry)
    : Result<Registry, SetLoadError>
    requires n <= |card.abilities|
  {
    if n == 0 then Ok(registry)
    else
      var before :- ConvertAbilities(minter, setCode, card, n - 1, registry);
      var ability := card.abilities[n - 1];
      var id :- Mint(minter, AbilityName(setCode, card.code, ability));
      var seen :- RejectDuplicateId(before.seen, id);
      Ok(before.(seen := seen, abilityIds := before.abilityIds[(card.code, ability.code) := id]))
  }

  function ConvertCard(minter: Minter, setCode: string, card: CardModel, registry: Registry)
    : Result<Registry, SetLoadError>
  {
    var id :- Mint(minter, CardName(setCode, card.code));
    var seen :- RejectDuplicateId(registry.seen, id);
    var named := registry.(seen := seen, cardIds := registry.cardIds[card.code := id]);
    var after :- ConvertAbilities(minter, setCode, card, |card.abilities|, named);
    Ok(after.(entities := after.entities + [D.Entity(id, card.form)]))
  }

  /** The registry after the first n cards. */
  function ConvertCards(minter: Minter, model: SetModel, n: nat): Result<Registry, SetLoadError>
    requires n <= |model.cards|
  {
    if n == 0 then
      var id :- Mint(minter, SetName(model.code));
      Ok(Registry({id}, [], map[], map[]))
    else
      var before :- ConvertCards(minter, model, n - 1);
      ConvertCard(minter, model.code, model.cards[n - 1], before)
  }

  function Convert(minter: Minter, model: SetModel): Result<LoadedSet, SetLoadError> {
    var id :- Mint(minter, SetName(model.code));
    var registry :- ConvertCards(minter, model, |model.cards|);
    Ok(LoadedSet(id, model.code, model.revision, registry.entities, registry.cardIds, registry.abilityIds))
  }

  ghost predicate Defined(entities: seq<D.Entity>, id: EntityId) {
    exists k :: 0 <= k < |entities| && entities[k].id == id
  }

  ghost predicate Indexed(cardIds: map<string, EntityId>, id: EntityId) {
    exists card :: card in cardIds && cardIds[card] == id
  }

  /** Every indexed card has its definition in the pool, and every definition is indexed. */
  ghost predicate Complete(entities: seq<D.Entity>, cardIds: map<string, EntityId>) {
    && (forall card <- cardIds :: Defined(entities, cardIds[card]))
    && (forall k | 0 <= k < |entities| :: Indexed(cardIds, entities[k].id))
  }

  lemma {:induction false} AbilitiesKeepCards(minter: Minter, setCode: string, card: CardModel, n: nat,
                                              registry: Registry)
    requires n <= |card.abilities|
    ensures var after := ConvertAbilities(minter, setCode, card, n, registry);
            after.Ok? ==>
              && after.value.entities == registry.entities && after.value.cardIds == registry.cardIds
              && registry.seen <= after.value.seen
  {
    if n > 0 {
      AbilitiesKeepCards(minter, setCode, card, n - 1, registry);
    }
  }

  ghost predicate MintedCards(minter: Minter, setCode: string, registry: Registry) {
    forall card <- registry.cardIds ::
      && registry.cardIds[card] == minter(CardName(setCode, card))
      && registry.cardIds[card] in registry.seen
  }

  lemma CardExtends(minter: Minter, setCode: string, card: CardModel, before: Registry)
    requires Complete(before.entities, before.cardIds) && MintedCards(minter, setCode, before)
    requires ConvertCard(minter, setCode, card, before).Ok?
    ensures var after := ConvertCard(minter, setCode, card, before).value;
            && Complete(after.entities, after.cardIds) && MintedCards(minter, setCode, after)
            && after.entities == before.entities + [DefinitionOf(minter, setCode, card)]
  {
    hide CardName, Complete;
    var id := minter(CardName(setCode, card.code));
    var named := before.(seen := before.seen + {id}, cardIds := before.cardIds[card.code := id]);
    AbilitiesKeepCards(minter, setCode, card, |card.abilities|, named);
    assert card.code !in before.cardIds;
    ExtendComplete(before.entities, before.cardIds, card.code, D.Entity(id, card.form));
  }

  function DefinitionOf(minter: Minter, setCode: string, card: CardModel): D.Entity {
    D.Entity(minter(CardName(setCode, card.code)), card.form)
  }

  lemma {:induction false} CardsAreComplete(minter: Minter, model: SetModel, n: nat)
    requires n <= |model.cards| && ConvertCards(minter, model, n).Ok?
    ensures var registry := ConvertCards(minter, model, n).value;
            && Complete(registry.entities, registry.cardIds) && MintedCards(minter, model.code, registry)
            && |registry.entities| == n
            && forall k | 0 <= k < n :: registry.entities[k] == DefinitionOf(minter, model.code, model.cards[k])
  {
    hide Complete, MintedCards, ConvertCard, DefinitionOf;
    if n > 0 {
      CardsAreComplete(minter, model, n - 1);
      CardExtends(minter, model.code, model.cards[n - 1], ConvertCards(minter, model, n - 1).value);
    } else {
      NothingIsComplete(minter, model.code, ConvertCards(minter, model, 0).value);
    }
  }

  lemma NothingIsComplete(minter: Minter, setCode: string, registry: Registry)
    requires registry.entities == [] && registry.cardIds == map[]
    ensures Complete(registry.entities, registry.cardIds) && MintedCards(minter, setCode, registry)
  {
  }

  lemma ExtendComplete(entities: seq<D.Entity>, cardIds: map<string, EntityId>, card: string, entity: D.Entity)
    requires Complete(entities, cardIds) && card !in cardIds
    ensures Complete(entities + [entity], cardIds[card := entity.id])
  {
    var more, ids := entities + [entity], cardIds[card := entity.id];
    forall c <- ids ensures Defined(more, ids[c]) {
      if c == card {
        assert more[|entities|].id == ids[c];
      } else {
        assert Defined(entities, cardIds[c]);
        var k :| 0 <= k < |entities| && entities[k].id == cardIds[c];
        assert more[k].id == ids[c];
      }
    }
    forall k | 0 <= k < |more| ensures Indexed(ids, more[k].id) {
      if k == |entities| {
        assert ids[card] == more[k].id;
      } else {
        assert Indexed(cardIds, entities[k].id);
        var c :| c in cardIds && cardIds[c] == entities[k].id;
        assert ids[c] == more[k].id;
      }
    }
  }

  ghost predicate Converted(loaded: LoadedSet) {
    exists minter, model :: Convert(minter, model) == Ok(loaded)
  }

  /** A converted Set defines exactly the cards it indexes. */
  lemma ConvertedIsComplete(loaded: LoadedSet)
    requires Converted(loaded)
    ensures Complete(loaded.cards, loaded.cardIds)
  {
    var minter, model :| Convert(minter, model) == Ok(loaded);
    CardsAreComplete(minter, model, |model.cards|);
  }

  // ----- The library -----

  datatype LibraryError =
    | DuplicateQualifiedKey(key: string, firstSet: string, duplicateSet: string)
    | DuplicateId(id: EntityId, firstKey: string, duplicateKey: string)

  datatype CardLibrary = CardLibrary(sets: map<string, nat>, cards: map<string, EntityId>, coreCards: D.CardSet) {
    function SetRevision(code: string): Option<nat> {
      if code in sets then Some(sets[code]) else None
    }

    function CardId(key: string): Option<EntityId> {
      if key in cards then Some(cards[key]) else None
    }
  }

  function QualifiedKey(loaded: LoadedSet, card: string): string {
    loaded.code + "/" + card
  }

  /** Who holds an identity: a Set, one of its cards, or an ability of one. */
  datatype Claim =
    | SetClaim(index: nat)
    | CardClaim(index: nat, card: string)
    | AbilityClaim(index: nat, card: string, ability: string)

  predicate Claimed(sets: seq<LoadedSet>, claim: Claim) {
    && claim.index < |sets|
    && (claim.CardClaim? ==> claim.card in sets[claim.index].cardIds)
    && (claim.AbilityClaim? ==> (claim.card, claim.ability) in sets[claim.index].abilityIds)
  }

  function IdOf(sets: seq<LoadedSet>, claim: Claim): EntityId
    requires Claimed(sets, claim)
  {
    match claim
    case SetClaim(index) => sets[index].id
    case CardClaim(index, card) => sets[index].cardIds[card]
    case AbilityClaim(index, card, ability) => sets[index].abilityIds[(card, ability)]
  }

  /** How an error names whoever holds an identity. */
  function NameOf(sets: seq<LoadedSet>, claim: Claim): string
    requires Claimed(sets, claim)
  {
    match claim
    case SetClaim(index) => "set:" + sets[index].code
    case CardClaim(index, card) => sets[index].code + "/" + card
    case AbilityClaim(index, card, ability) => sets[index].code + "/" + card + "#" + ability
  }

  ghost predicate UniqueIds(sets: seq<LoadedSet>) {
    forall one, other | Claimed(sets, one) && Claimed(sets, other) ::
      IdOf(sets, one) == IdOf(sets, other) ==> one == other
  }

  predicate CardClaimed(sets: seq<LoadedSet>, claim: Claim) {
    claim.CardClaim? && Claimed(sets, claim)
  }

  function KeyOf(sets: seq<LoadedSet>, claim: Claim): string
    requires CardClaimed(sets, claim)
  {
    QualifiedKey(sets[claim.index], claim.card)
  }

  ghost predicate UniqueKeys(sets: seq<LoadedSet>) {
    forall one, other | CardClaimed(sets, one) && CardClaimed(sets, other) ::
      KeyOf(sets, one) == KeyOf(sets, other) ==> one == other
  }

  /** The error names a key that two cards have, and the Sets they are of. */
  ghost predicate KeyClash(sets: seq<LoadedSet>, error: LibraryError) {
    && error.DuplicateQualifiedKey?
    && exists one, other ::
         && CardClaimed(sets, one) && CardClaimed(sets, other) && one != other && one.index <= other.index
         && error.key == KeyOf(sets, one) == KeyOf(sets, other)
         && error.firstSet == sets[one.index].code && error.duplicateSet == sets[other.index].code
  }

  /** The error names an identity that two hold, and both of them. */
  ghost predicate IdClash(sets: seq<LoadedSet>, error: LibraryError) {
    && error.DuplicateId?
    && exists one, other ::
         && Claimed(sets, one) && Claimed(sets, other) && one != other && one.index <= other.index
         && error.id == IdOf(sets, one) == IdOf(sets, other)
         && error.firstKey == NameOf(sets, one) && error.duplicateKey == NameOf(sets, other)
  }

  ghost predicate Keyed(sets: seq<LoadedSet>, key: string) {
    exists claim :: CardClaimed(sets, claim) && KeyOf(sets, claim) == key
  }

  /** The index holds exactly the qualified keys of the Sets, with their cards' identities. */
  ghost predicate Indexes(sets: seq<LoadedSet>, cards: map<string, EntityId>) {
    && (forall claim | CardClaimed(sets, claim) ::
          KeyOf(sets, claim) in cards && cards[KeyOf(sets, claim)] == IdOf(sets, claim))
    && (forall key <- cards :: Keyed(sets, key))
  }

  function Revisions(sets: seq<LoadedSet>): map<string, nat> {
    if sets == [] then map[]
    else Revisions(sets[..|sets| - 1])[sets[|sets| - 1].code := sets[|sets| - 1].revision]
  }

  function AllEntities(sets: seq<LoadedSet>): seq<D.Entity> {
    if sets == [] then [] else AllEntities(sets[..|sets| - 1]) + sets[|sets| - 1].cards
  }

  ghost predicate AssembledFrom(library: CardLibrary, sets: seq<LoadedSet>) {
    && UniqueKeys(sets) && UniqueIds(sets)
    && Indexes(sets, library.cards)
    && library.sets == Revisions(sets)
    && library.coreCards.entities == AllEntities(sets)
  }

  // ----- Assembling it -----

  ghost predicate KeyedBy(sets: seq<LoadedSet>, done: set<Claim>, key: string) {
    exists claim :: claim in done && CardClaimed(sets, claim) && KeyOf(sets, claim) == key
  }

  /** The keys taken so far belong to exactly these cards, one each. */
  ghost predicate KeysTaken(sets: seq<LoadedSet>, cards: map<string, EntityId>, done: set<Claim>) {
    && (forall claim <- done ::
          CardClaimed(sets, claim) && KeyOf(sets, claim) in cards && cards[KeyOf(sets, claim)] == IdOf(sets, claim))
    && (forall key <- cards :: KeyedBy(sets, done, key))
    && (forall one, other | one in done && other in done ::
          CardClaimed(sets, one) && CardClaimed(sets, other) &&
          (KeyOf(sets, one) == KeyOf(sets, other) ==> one == other))
  }

  lemma KeyTaken(sets: seq<LoadedSet>, cards: map<string, EntityId>, done: set<Claim>, claim: Claim)
    requires KeysTaken(sets, cards, done) && claim !in done
    requires CardClaimed(sets, claim)
    ensures KeyOf(sets, claim) in cards ==> !UniqueKeys(sets)
    ensures KeyOf(sets, claim) !in cards ==>
              KeysTaken(sets, cards[KeyOf(sets, claim) := IdOf(sets, claim)], done + {claim})
  {
    hide QualifiedKey, IdOf;
    var key := KeyOf(sets, claim);
    if key in cards {
      assert KeyedBy(sets, done, key);
    } else {
      var more, longer := done + {claim}, cards[key := IdOf(sets, claim)];
      forall k <- longer ensures KeyedBy(sets, more, k) {
        if k == key {
          assert claim in more;
        } else {
          assert KeyedBy(sets, done, k);
          var c :| c in done && CardClaimed(sets, c) && KeyOf(sets, c) == k;
          assert c in more;
        }
      }
    }
  }

  /** Every key taken so far is remembered with the Set of a card that has it. */
  ghost predicate OwnersKnown(sets: seq<LoadedSet>, owners: map<string, string>, done: set<Claim>) {
    forall key <- owners :: OwnedBy(sets, done, key, owners[key])
  }

  ghost predicate OwnedBy(sets: seq<LoadedSet>, done: set<Claim>, key: string, owner: string) {
    exists claim ::
      claim in done && CardClaimed(sets, claim) && KeyOf(sets, claim) == key && sets[claim.index].code == owner
  }

  lemma OwnerTaken(sets: seq<LoadedSet>, owners: map<string, string>, done: set<Claim>, claim: Claim)
    requires OwnersKnown(sets, owners, done) && claim !in done && CardClaimed(sets, claim)
    requires forall other <- done :: other.index <= claim.index
    ensures var key := KeyOf(sets, claim);
            if key in owners then
              KeyClash(sets, DuplicateQualifiedKey(key, owners[key], sets[claim.index].code))
            else OwnersKnown(sets, owners[key := sets[claim.index].code], done + {claim})
  {
    hide QualifiedKey;
    var key := KeyOf(sets, claim);
    if key in owners {
      assert OwnedBy(sets, done, key, owners[key]);
    } else {
      var more, longer := done + {claim}, owners[key := sets[claim.index].code];
      forall k <- longer ensures OwnedBy(sets, more, k, longer[k]) {
        if k == key {
          assert claim in more;
        } else {
          assert OwnedBy(sets, done, k, owners[k]);
          var c :| c in done && CardClaimed(sets, c) && KeyOf(sets, c) == k && sets[c.index].code == owners[k];
          assert c in more;
        }
      }
    }
  }

  lemma KeyOfCard(sets: seq<LoadedSet>, i: nat, card: string)
    requires i < |sets| && card in sets[i].cardIds
    ensures KeyOf(sets, CardClaim(i, card)) == QualifiedKey(sets[i], card)
  {
  }

  /** One Set's keys; owners remembers which Set took a key first. */
  method TakeKeys(sets: seq<LoadedSet>, i: nat, cards: map<string, EntityId>, owners: map<string, string>,
                  ghost done: set<Claim>)
    returns (r: Result<map<string, EntityId>, LibraryError>, owners': map<string, string>, ghost done': set<Claim>)
    requires i < |sets| && KeysTaken(sets, cards, done) && OwnersKnown(sets, owners, done) && owners.Keys == cards.Keys
    requires forall claim :: claim in done <==> (CardClaimed(sets, claim) && claim.index < i)
    ensures r.Ok? ==>
              && KeysTaken(sets, r.value, done') && OwnersKnown(sets, owners', done') && owners'.Keys == r.value.Keys
              && forall claim :: claim in done' <==> (CardClaimed(sets, claim) && claim.index < i + 1)
    ensures r.Err? ==> !UniqueKeys(sets) && KeyClash(sets, r.error)
  {
    hide KeysTaken, OwnersKnown, KeyClash, UniqueKeys, KeyOf;
    var taken := cards;
    owners', done' := owners, done;
    var left := sets[i].cardIds.Keys;
    while left != {}
      invariant left <= sets[i].cardIds.Keys
      invariant KeysTaken(sets, taken, done') && OwnersKnown(sets, owners', done') && owners'.Keys == taken.Keys
      invariant forall claim :: claim in done' <==>
                  (CardClaimed(sets, claim) && (claim.index < i || (claim.index == i && claim.card !in left)))
      decreases |left|
    {
      var card :| card in left;
      ghost var claim := CardClaim(i, card);
      var key := QualifiedKey(sets[i], card);
      KeyOfCard(sets, i, card);
      KeyTaken(sets, taken, done', claim);
      OwnerTaken(sets, owners', done', claim);
      if key in owners' {
        return Err(DuplicateQualifiedKey(key, owners'[key], sets[i].code)), owners', done';
      }
      taken, owners', done' := taken[key := sets[i].cardIds[card]], owners'[key := sets[i].code], done' + {claim};
      left := left - {card};
    }
    r := Ok(taken);
  }

  method QualifiedCards(sets: seq<LoadedSet>) returns (r: Result<map<string, EntityId>, LibraryError>)
    ensures r.Ok? <==> UniqueKeys(sets)
    ensures r.Ok? ==> Indexes(sets, r.value)
    ensures r.Err? ==> KeyClash(sets, r.error)
  {
    var cards: map<string, EntityId>, owners: map<string, string> := map[], map[];
    ghost var done: set<Claim> := {};
    for i := 0 to |sets|
      invariant KeysTaken(sets, cards, done) && OwnersKnown(sets, owners, done) && owners.Keys == cards.Keys
      invariant forall claim :: claim in done <==> (CardClaimed(sets, claim) && claim.index < i)
    {
      var taken;
      taken, owners, done := TakeKeys(sets, i, cards, owners, done);
      cards :- taken;
    }
    assert forall claim | CardClaimed(sets, claim) :: claim in done;
    forall key <- cards ensures Keyed(sets, key) {
      assert KeyedBy(sets, done, key);
    }
    r := Ok(cards);
  }

  ghost predicate ClaimedBy(sets: seq<LoadedSet>, done: set<Claim>, id: EntityId, name: string) {
    exists claim ::
      claim in done && Claimed(sets, claim) && IdOf(sets, claim) == id && NameOf(sets, claim) == name
  }

  /** The identities taken so far belong to exactly these claims, one each. */
  ghost predicate IdsTaken(sets: seq<LoadedSet>, ids: map<EntityId, string>, done: set<Claim>) {
    && (forall claim <- done :: Claimed(sets, claim) && IdOf(sets, claim) in ids)
    && (forall id <- ids :: ClaimedBy(sets, done, id, ids[id]))
    && (forall one, other | one in done && other in done ::
          Claimed(sets, one) && Claimed(sets, other) && (IdOf(sets, one) == IdOf(sets, other) ==> one == other))
  }

  method InsertUniqueId(sets: seq<LoadedSet>, ids: map<EntityId, string>, ghost done: set<Claim>, ghost claim: Claim,
                        id: EntityId, key: string)
    returns (r: Result<map<EntityId, string>, LibraryError>)
    requires IdsTaken(sets, ids, done) && claim !in done
    requires Claimed(sets, claim) && IdOf(sets, claim) == id && NameOf(sets, claim) == key
    requires forall other <- done :: other.index <= claim.index
    ensures r.Ok? ==> IdsTaken(sets, r.value, done + {claim})
    ensures r.Err? ==> !UniqueIds(sets) && IdClash(sets, r.error)
  {
    hide IdOf, NameOf;
    if id in ids {
      assert ClaimedBy(sets, done, id, ids[id]);
      return Err(DuplicateId(id, ids[id], key));
    }
    ghost var more := done + {claim};
    var longer := ids[id := key];
    forall i <- longer ensures ClaimedBy(sets, more, i, longer[i]) {
      if i == id {
        assert claim in more;
      } else {
        assert ClaimedBy(sets, done, i, ids[i]);
        var c :| c in done && Claimed(sets, c) && IdOf(sets, c) == i && NameOf(sets, c) == ids[i];
        assert c in more;
      }
    }
    r := Ok(longer);
  }

  /** Claims met before the cards that are left of Set i, none of its abilities among them. */
  predicate ReachedCard(claim: Claim, i: nat, left: set<string>) {
    claim.index < i || (claim.index == i && (claim.SetClaim? || (claim.CardClaim? && claim.card !in left)))
  }

  predicate ReachedAbility(claim: Claim, i: nat, left: set<(string, string)>) {
    claim.index < i || (claim.index == i && (claim.AbilityClaim? ==> (claim.card, claim.ability) !in left))
  }

  method TakeCardIds(sets: seq<LoadedSet>, i: nat, ids: map<EntityId, string>, ghost done: set<Claim>)
    returns (r: Result<map<EntityId, string>, LibraryError>, ghost done': set<Claim>)
    requires i < |sets| && IdsTaken(sets, ids, done)
    requires forall claim :: claim in done <==> (Claimed(sets, claim) && ReachedCard(claim, i, sets[i].cardIds.Keys))
    ensures r.Ok? ==>
              && IdsTaken(sets, r.value, done')
              && forall claim :: claim in done' <==> (Claimed(sets, claim) && ReachedCard(claim, i, {}))
    ensures r.Err? ==> !UniqueIds(sets) && IdClash(sets, r.error)
  {
    hide IdsTaken, IdClash, UniqueIds;
    var loaded, taken := sets[i], ids;
    done' := done;
    var cards := loaded.cardIds.Keys;
    while cards != {}
      invariant cards <= loaded.cardIds.Keys
      invariant IdsTaken(sets, taken, done')
      invariant forall claim :: claim in done' <==> (Claimed(sets, claim) && ReachedCard(claim, i, cards))
      decreases |cards|
    {
      var card :| card in cards;
      var inserted := InsertUniqueId(sets, taken, done', CardClaim(i, card), loaded.cardIds[card],
        QualifiedKey(loaded, card));
      if inserted.Err? { return Err(inserted.error), done'; }
      taken, done' := inserted.value, done' + {CardClaim(i, card)};
      cards := cards - {card};
    }
    r := Ok(taken);
  }

  method TakeAbilityIds(sets: seq<LoadedSet>, i: nat, ids: map<EntityId, string>, ghost done: set<Claim>)
    returns (r: Result<map<EntityId, string>, LibraryError>, ghost done': set<Claim>)
    requires i < |sets| && IdsTaken(sets, ids, done)
    requires forall claim ::
               claim in done <==> (Claimed(sets, claim) && ReachedAbility(claim, i, sets[i].abilityIds.Keys))
    ensures r.Ok? ==>
              && IdsTaken(sets, r.value, done')
              && forall claim :: claim in done' <==> (Claimed(sets, claim) && claim.index < i + 1)
    ensures r.Err? ==> !UniqueIds(sets) && IdClash(sets, r.error)
  {
    hide IdsTaken, IdClash, UniqueIds;
    var loaded, taken := sets[i], ids;
    done' := done;
    var abilities := loaded.abilityIds.Keys;
    while abilities != {}
      invariant abilities <= loaded.abilityIds.Keys
      invariant IdsTaken(sets, taken, done')
      invariant forall claim :: claim in done' <==> (Claimed(sets, claim) && ReachedAbility(claim, i, abilities))
      decreases |abilities|
    {
      var ability :| ability in abilities;
      ghost var claim := AbilityClaim(i, ability.0, ability.1);
      assert (claim.card, claim.ability) == ability;
      var inserted := InsertUniqueId(sets, taken, done', claim, loaded.abilityIds[ability],
        QualifiedKey(loaded, ability.0) + "#" + ability.1);
      if inserted.Err? { return Err(inserted.error), done'; }
      taken, done' := inserted.value, done' + {claim};
      abilities := abilities - {ability};
    }
    r := Ok(taken);
  }

  method RejectDuplicateIds(sets: seq<LoadedSet>) returns (r: Result<(), LibraryError>)
    ensures r.Ok? <==> UniqueIds(sets)
    ensures r.Err? ==> IdClash(sets, r.error)
  {
    var ids: map<EntityId, string> := map[];
    ghost var done: set<Claim> := {};
    for i := 0 to |sets|
      invariant IdsTaken(sets, ids, done)
      invariant forall claim :: claim in done <==> (Claimed(sets, claim) && claim.index < i)
    {
      hide IdsTaken, IdClash, UniqueIds;
      ids :- InsertUniqueId(sets, ids, done, SetClaim(i), sets[i].id, SetName(sets[i].code));
      done := done + {SetClaim(i)};
      var taken;
      taken, done := TakeCardIds(sets, i, ids, done);
      ids :- taken;
      taken, done := TakeAbilityIds(sets, i, ids, done);
      ids :- taken;
    }
    assert forall claim | Claimed(sets, claim) :: claim in done;
    return Ok(());
  }

  /** Assembles the Sets into one index and one pool, unless a key or an identity repeats. */
  method FromSets(sets: seq<LoadedSet>, handle: nat) returns (r: Result<CardLibrary, LibraryError>)
    ensures r.Ok? <==> UniqueKeys(sets) && UniqueIds(sets)
    ensures r.Ok? ==> AssembledFrom(r.value, sets) && r.value.coreCards.handle == handle
    ensures r.Err? ==> if UniqueKeys(sets) then IdClash(sets, r.error) else KeyClash(sets, r.error)
  {
    var cards :- QualifiedCards(sets);
    var _ :- RejectDuplicateIds(sets);
    var records: map<string, nat>, entities: seq<D.Entity> := map[], [];
    for i := 0 to |sets|
      invariant records == Revisions(sets[..i]) && entities == AllEntities(sets[..i])
    {
      records := records[sets[i].code := sets[i].revision];
      entities := entities + sets[i].cards;
      assert sets[..i + 1][..i] == sets[..i];
    }
    assert sets[..|sets|] == sets;
    return Ok(CardLibrary(records, cards, D.CardSet(handle, entities)));
  }

  // ----- What the library guarantees -----

  lemma {:induction false} EntityIsPooled(sets: seq<LoadedSet>, i: nat, k: nat)
    requires i < |sets| && k < |sets[i].cards|
    ensures sets[i].cards[k] in AllEntities(sets)
    decreases |sets|
  {
    if i < |sets| - 1 {
      EntityIsPooled(sets[..|sets| - 1], i, k);
    }
  }

  /** Every key of a library built from converted Sets names a card of its pool. */
  lemma KeysAreKnown(library: CardLibrary, sets: seq<LoadedSet>, key: string)
    requires AssembledFrom(library, sets) && key in library.cards
    requires forall loaded <- sets :: Converted(loaded)
    ensures library.coreCards.Get(library.cards[key]).Some?
  {
    hide UniqueIds, UniqueKeys, QualifiedKey, Converted;
    assert Keyed(sets, key);
    var claim :| CardClaimed(sets, claim) && KeyOf(sets, claim) == key;
    var loaded := sets[claim.index];
    ConvertedIsComplete(loaded);
    assert Defined(loaded.cards, loaded.cardIds[claim.card]);
    var k :| 0 <= k < |loaded.cards| && loaded.cards[k].id == loaded.cardIds[claim.card];
    EntityIsPooled(sets, claim.index, k);
  }

  /** Different keys name different cards. */
  lemma KeysAreInjective(library: CardLibrary, sets: seq<LoadedSet>, one: string, other: string)
    requires AssembledFrom(library, sets) && one in library.cards && other in library.cards
    requires library.cards[one] == library.cards[other]
    ensures one == other
  {
    hide UniqueKeys, QualifiedKey;
    assert Keyed(sets, one) && Keyed(sets, other);
    var first :| CardClaimed(sets, first) && KeyOf(sets, first) == one;
    var second :| CardClaimed(sets, second) && KeyOf(sets, second) == other;
    assert IdOf(sets, first) == IdOf(sets, second);
  }
}
