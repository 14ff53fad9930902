/**
 What converting a Set answers, told part by part: the Set itself, its cards and their abilities each
 have a name and an identity minted from it, and no two parts may share one. A library of converted
 Sets then finds every authored card under its own key.
 */
module SetConversion {
  import opened Wrappers
  import opened EntityIds
  import D = Domain
  import opened CardLibraries

  datatype Part = SetPart | CardPart(card: string) | AbilityPart(card: string, ability: AbilityModel)

  function PartName(setCode: string, part: Part): string {
    match part
    case SetPart => SetName(setCode)
    case CardPart(card) => CardName(setCode, card)
    case AbilityPart(card, ability) => AbilityName(setCode, card, ability)
  }

  function AbilityParts(card: CardModel, n: nat): (r: seq<Part>)
    requires n <= |card.abilities|
    ensures |r| == n
  {
    seq(n, k requires 0 <= k < n => AbilityPart(card.code, card.abilities[k]))
  }

  /** The parts of a Set with its first n cards, in the order they are named. */
  function Parts(model: SetModel, n: nat): seq<Part>
    requires n <= |model.cards|
  {
    if n == 0 then [SetPart]
    else
      var card := model.cards[n - 1];
      Parts(model, n - 1) + [CardPart(card.code)] + AbilityParts(card, |card.abilities|)
  }

  /** The identities of one Set. */
  datatype Minting = Minting(minter: Minter, setCode: string) {
    function Id(part: Part): EntityId {
      minter(PartName(setCode, part))
    }

    ghost predicate Apart(parts: seq<Part>) {
      forall i, j | 0 <= i < j < |parts| :: Id(parts[i]) != Id(parts[j])
    }

    /** The part at j is the first to ask for an identity that is taken. */
    ghost predicate RepeatsAt(parts: seq<Part>, id: EntityId, j: nat) {
      && j < |parts| && Apart(parts[..j]) && Id(parts[j]) == id
      && exists i :: 0 <= i < j && Id(parts[i]) == id
    }

    ghost predicate FirstRepeat(parts: seq<Part>, id: EntityId) {
      exists j :: RepeatsAt(parts, id, j)
    }

    ghost predicate SeenAre(parts: seq<Part>, seen: set<EntityId>) {
      && (forall j | 0 <= j < |parts| :: Id(parts[j]) in seen)
      && (forall id <- seen :: exists j :: 0 <= j < |parts| && Id(parts[j]) == id)
    }

    /** The cards are indexed by their codes. */
    ghost predicate CardsAre(parts: seq<Part>, cardIds: map<string, EntityId>) {
      && (forall j | 0 <= j < |parts| && parts[j].CardPart? :: parts[j].card in cardIds)
      && (forall card <- cardIds :: CardPart(card) in parts && cardIds[card] == Id(CardPart(card)))
    }

    predicate Keyed(part: Part, key: (string, string)) {
      part.AbilityPart? && (part.card, part.ability.code) == key
    }

    /** The part at j is the last ability with its key. */
    ghost predicate HolderAt(parts: seq<Part>, key: (string, string), id: EntityId, j: nat) {
      && j < |parts| && Keyed(parts[j], key) && Id(parts[j]) == id
      && forall i | j < i < |parts| :: !Keyed(parts[i], key)
    }

    /** The abilities are indexed by card and code, where the last of a key counts. */
    ghost predicate AbilitiesAre(parts: seq<Part>, abilityIds: map<(string, string), EntityId>) {
      && (forall j | 0 <= j < |parts| && parts[j].AbilityPart? ::
            (parts[j].card, parts[j].ability.code) in abilityIds)
      && (forall key <- abilityIds :: exists j :: HolderAt(parts, key, abilityIds[key], j))
    }

    ghost predicate Holds(parts: seq<Part>, registry: Registry) {
      && Apart(parts) && SeenAre(parts, registry.seen)
      && CardsAre(parts, registry.cardIds) && AbilitiesAre(parts, registry.abilityIds)
    }

    /** A registry of these parts, or the first identity asked for twice. */
    ghost predicate Told(parts: seq<Part>, r: Result<Registry, SetLoadError>) {
      match r
      case Ok(registry) => Holds(parts, registry)
      case Err(error) => error.DuplicateGeneratedId? && FirstRepeat(parts, error.id)
    }

    lemma RepeatStays(parts: seq<Part>, more: seq<Part>, id: EntityId)
      requires FirstRepeat(parts, id)
      ensures FirstRepeat(parts + more, id)
    {
      var j: nat :| RepeatsAt(parts, id, j);
      assert j < |parts + more| && (parts + more)[..j] == parts[..j];
      assert RepeatsAt(parts + more, id, j);
    }

    lemma RepeatIsNotApart(parts: seq<Part>, id: EntityId)
      requires FirstRepeat(parts, id)
      ensures !Apart(parts)
    {
      var j :| RepeatsAt(parts, id, j);
    }

    lemma ClaimTells(parts: seq<Part>, seen: set<EntityId>, part: Part)
      requires Apart(parts) && SeenAre(parts, seen)
      ensures match RejectDuplicateId(seen, Id(part))
              case Ok(more) => Apart(parts + [part]) && SeenAre(parts + [part], more)
              case Err(error) => error.DuplicateGeneratedId? && FirstRepeat(parts + [part], error.id)
    {
      var all := parts + [part];
      if Id(part) in seen {
        assert all[..|parts|] == parts;
        assert RepeatsAt(all, Id(part), |parts|);
      } else {
        forall id <- seen + {Id(part)} ensures exists j :: 0 <= j < |all| && Id(all[j]) == id {
          if id == Id(part) {
            assert Id(all[|parts|]) == id;
          } else {
            var j :| 0 <= j < |parts| && Id(parts[j]) == id;
            assert Id(all[j]) == id;
          }
        }
      }
    }

    lemma AbilityTaken(parts: seq<Part>, abilityIds: map<(string, string), EntityId>, card: string,
                       ability: AbilityModel)
      requires AbilitiesAre(parts, abilityIds)
      ensures var part := AbilityPart(card, ability);
              AbilitiesAre(parts + [part], abilityIds[(card, ability.code) := Id(part)])
    {
      var part := AbilityPart(card, ability);
      var all := parts + [part];
      var ids := abilityIds[(card, ability.code) := Id(part)];
      forall key <- ids ensures exists j :: HolderAt(all, key, ids[key], j) {
        if key == (card, ability.code) {
          assert HolderAt(all, key, ids[key], |parts|);
        } else {
          var j :| HolderAt(parts, key, abilityIds[key], j);
          assert HolderAt(all, key, ids[key], j);
        }
      }
    }

    lemma CardTaken(parts: seq<Part>, registry: Registry, card: string)
      requires CardsAre(parts, registry.cardIds) && AbilitiesAre(parts, registry.abilityIds)
      ensures CardsAre(parts + [CardPart(card)], registry.cardIds[card := Id(CardPart(card))])
      ensures AbilitiesAre(parts + [CardPart(card)], registry.abilityIds)
    {
      var all := parts + [CardPart(card)];
      assert all[|parts|] == CardPart(card);
      forall key <- registry.abilityIds ensures exists j :: HolderAt(all, key, registry.abilityIds[key], j) {
        var j :| HolderAt(parts, key, registry.abilityIds[key], j);
        assert HolderAt(all, key, registry.abilityIds[key], j);
      }
    }

    lemma {:induction false} AbilitiesTell(card: CardModel, n: nat, registry: Registry, parts: seq<Part>)
      requires n <= |card.abilities| && Holds(parts, registry)
      ensures Told(parts + AbilityParts(card, n), ConvertAbilities(minter, setCode, card, n, registry))
    {
      hide Apart, SeenAre, AbilitiesAre, FirstRepeat, RejectDuplicateId, AbilityName;
      if n == 0 {
        assert parts + AbilityParts(card, n) == parts;
      } else {
        AbilitiesTell(card, n - 1, registry, parts);
        var before := ConvertAbilities(minter, setCode, card, n - 1, registry);
        var named := parts + AbilityParts(card, n - 1);
        var part := AbilityPart(card.code, card.abilities[n - 1]);
        assert parts + AbilityParts(card, n) == named + [part];
        if before.Err? {
          RepeatStays(named, [part], before.error.id);
        } else {
          ClaimTells(named, before.value.seen, part);
          AbilityTaken(named, before.value.abilityIds, card.code, card.abilities[n - 1]);
        }
      }
    }

    lemma CardTells(card: CardModel, registry: Registry, parts: seq<Part>)
      requires Holds(parts, registry)
      ensures Told(parts + [CardPart(card.code)] + AbilityParts(card, |card.abilities|),
                   ConvertCard(minter, setCode, card, registry))
    {
      hide Apart, SeenAre, CardsAre, AbilitiesAre, FirstRepeat, RejectDuplicateId, CardName, ConvertAbilities;
      var part := CardPart(card.code);
      ClaimTells(parts, registry.seen, part);
      CardTaken(parts, registry, card.code);
      var seen := RejectDuplicateId(registry.seen, Id(part));
      if seen.Err? {
        RepeatStays(parts + [part], AbilityParts(card, |card.abilities|), seen.error.id);
      } else {
        var named := registry.(seen := seen.value, cardIds := registry.cardIds[card.code := Id(part)]);
        AbilitiesTell(card, |card.abilities|, named, parts + [part]);
      }
    }

    lemma {:induction false} CardsTell(model: SetModel, n: nat)
      requires n <= |model.cards| && setCode == model.code
      ensures Told(Parts(model, n), ConvertCards(minter, model, n))
    {
      hide ConvertCard, FirstRepeat;
      if n > 0 {
        hide Holds;
        CardsTell(model, n - 1);
        var before := ConvertCards(minter, model, n - 1);
        var card := model.cards[n - 1];
        if before.Err? {
          RepeatStays(Parts(model, n - 1), [CardPart(card.code)] + AbilityParts(card, |card.abilities|),
                      before.error.id);
          assert Parts(model, n) == Parts(model, n - 1)
                                    + ([CardPart(card.code)] + AbilityParts(card, |card.abilities|));
        } else {
          CardTells(card, before.value, Parts(model, n - 1));
        }
      } else {
        assert Parts(model, 0)[0] == SetPart;
        assert Holds(Parts(model, 0), ConvertCards(minter, model, 0).value);
      }
    }
  }

  /**
   A Set converts exactly when its parts mint different identities. It then holds every definition in
   order under its own identity, and indexes its cards and abilities by their codes; otherwise the error
   names the first identity asked for twice.
   */
  lemma ConvertsExactly(minter: Minter, model: SetModel)
    ensures var minting := Minting(minter, model.code);
            var parts := Parts(model, |model.cards|);
            match Convert(minter, model)
            case Ok(loaded) =>
              && minting.Apart(parts)
              && (loaded.id, loaded.code, loaded.revision) == (minting.Id(SetPart), model.code, model.revision)
              && |loaded.cards| == |model.cards|
              && (forall k | 0 <= k < |model.cards| ::
                    && loaded.cards[k].id == minting.Id(CardPart(model.cards[k].code))
                    && loaded.cards[k].form == model.cards[k].form)
              && minting.CardsAre(parts, loaded.cardIds)
              && minting.AbilitiesAre(parts, loaded.abilityIds)
            case Err(error) =>
              && !minting.Apart(parts)
              && error.DuplicateGeneratedId? && minting.FirstRepeat(parts, error.id)
  {
    var minting := Minting(minter, model.code);
    var n := |model.cards|;
    minting.CardsTell(model, n);
    var registry := ConvertCards(minter, model, n);
    if registry.Ok? {
      CardsAreComplete(minter, model, n);
      assert forall k | 0 <= k < n :: registry.value.entities[k] == DefinitionOf(minter, model.code, model.cards[k]);
    } else {
      minting.RepeatIsNotApart(Parts(model, n), registry.error.id);
    }
  }

  // ----- Names -----

  /** Two texts cut at the first of a mark agree on both sides of it. */
  lemma CutOnce(mark: char, left: string, right: string, left': string, right': string)
    requires mark !in left && mark !in left'
    requires left + [mark] + right == left' + [mark] + right'
    ensures left == left' && right == right'
  {
    var one, other := left + [mark] + right, left' + [mark] + right';
    assert one[|left|] == mark && other[|left'|] == mark;
    assert forall k | 0 <= k < |left| :: one[k] == left[k];
    assert forall k | 0 <= k < |left'| :: other[k] == left'[k];
    assert |left| == |left'|;
    assert left == one[..|left|] && left' == other[..|left'|];
    assert right == one[|left| + 1..] && right' == other[|left'| + 1..];
  }

  /** Stable codes and roles hold neither of the marks that join names. */
  predicate Plain(text: string) {
    '/' !in text && ':' !in text
  }

  predicate PlainPart(part: Part) {
    match part
    case SetPart => true
    case CardPart(card) => Plain(card)
    case AbilityPart(card, ability) => Plain(card) && Plain(ability.role) && Plain(ability.code)
  }

  lemma AbilityNamesDiffer(card: string, ability: AbilityModel, card': string, ability': AbilityModel)
    requires PlainPart(AbilityPart(card, ability)) && PlainPart(AbilityPart(card', ability'))
    requires card + "/ability:" + ability.role + ":" + ability.code
          == card' + "/ability:" + ability'.role + ":" + ability'.code
    ensures card == card' && ability == ability'
  {
    var one, other := ability.role + [':'] + ability.code, ability'.role + [':'] + ability'.code;
    var joined, joined' := "ability:" + one, "ability:" + other;
    assert card + ['/'] + joined == card + "/ability:" + ability.role + ":" + ability.code;
    assert card' + ['/'] + joined' == card' + "/ability:" + ability'.role + ":" + ability'.code;
    CutOnce('/', card, joined, card', joined');
    assert joined[8..] == one && joined'[8..] == other;
    CutOnce(':', ability.role, ability.code, ability'.role, ability'.code);
  }

  /** What a part adds behind the name of its card. */
  function Rest(part: Part): string
    requires !part.SetPart?
  {
    match part
    case CardPart(card) => card
    case AbilityPart(card, ability) => card + "/ability:" + ability.role + ":" + ability.code
  }

  lemma NameHasRest(setCode: string, part: Part)
    ensures var name := PartName(setCode, part);
            var opening := "set:" + setCode;
            if part.SetPart? then name == opening
            else name == opening + "/card:" + Rest(part) && name[|opening| + 6..] == Rest(part)
  {
    if !part.SetPart? {
      assert PartName(setCode, part) == "set:" + setCode + "/card:" + Rest(part);
    }
  }

  lemma CardIsNoAbility(card: string, part: Part)
    requires Plain(card) && part.AbilityPart?
    ensures card != Rest(part)
  {
    assert Rest(part)[|part.card|] == '/';
    assert '/' in Rest(part);
  }

  /** Different parts of a Set have different names. */
  lemma NamesAreDifferent(setCode: string, one: Part, other: Part)
    requires PlainPart(one) && PlainPart(other)
    requires PartName(setCode, one) == PartName(setCode, other)
    ensures one == other
  {
    NameHasRest(setCode, one);
    NameHasRest(setCode, other);
    if !one.SetPart? && !other.SetPart? {
      assert Rest(one) == Rest(other);
      match (one, other) {
        case (CardPart(card), AbilityPart(_, _)) => CardIsNoAbility(card, other);
        case (AbilityPart(_, _), CardPart(card)) => CardIsNoAbility(card, one);
        case (AbilityPart(card, ability), AbilityPart(card', ability')) =>
          AbilityNamesDiffer(card, ability, card', ability');
        case (CardPart(_), CardPart(_)) =>
      }
    }
  }

  // ----- What a library makes of it -----

  lemma CardIsNew(minter: Minter, setCode: string, card: CardModel, before: Registry)
    requires ConvertCard(minter, setCode, card, before).Ok?
    ensures minter(CardName(setCode, card.code)) !in before.seen
  {
    hide CardName, ConvertAbilities;
  }

  lemma DefinitionsAreSeen(minter: Minter, setCode: string, registry: Registry)
    requires Complete(registry.entities, registry.cardIds) && MintedCards(minter, setCode, registry)
    ensures forall k | 0 <= k < |registry.entities| :: registry.entities[k].id in registry.seen
  {
    hide CardName;
    forall k | 0 <= k < |registry.entities| ensures registry.entities[k].id in registry.seen {
      assert Indexed(registry.cardIds, registry.entities[k].id);
    }
  }

  lemma {:induction false} DefinitionsDiffer(minter: Minter, model: SetModel, n: nat)
    requires n <= |model.cards| && ConvertCards(minter, model, n).Ok?
    ensures var entities := ConvertCards(minter, model, n).value.entities;
            forall k, l | 0 <= k < l < |entities| :: entities[k].id != entities[l].id
  {
    hide ConvertCard, CardName, Complete, MintedCards;
    CardsAreComplete(minter, model, n);
    if n > 0 {
      DefinitionsDiffer(minter, model, n - 1);
      CardsAreComplete(minter, model, n - 1);
      var before, card := ConvertCards(minter, model, n - 1).value, model.cards[n - 1];
      CardIsNew(minter, model.code, card, before);
      CardExtends(minter, model.code, card, before);
      DefinitionsAreSeen(minter, model.code, before);
    }
  }

  lemma {:induction false} PooledIsOfSet(sets: seq<LoadedSet>, entity: D.Entity) returns (i: nat, k: nat)
    requires entity in AllEntities(sets)
    ensures i < |sets| && k < |sets[i].cards| && sets[i].cards[k] == entity
  {
    var last := sets[|sets| - 1];
    if entity in last.cards {
      i := |sets| - 1;
      k :| k < |last.cards| && last.cards[k] == entity;
    } else {
      i, k := PooledIsOfSet(sets[..|sets| - 1], entity);
    }
  }

  lemma {:induction false} PartIsThere(model: SetModel, n: nat, k: nat)
    requires k < n <= |model.cards|
    ensures CardPart(model.cards[k].code) in Parts(model, n)
  {
    if k == n - 1 {
      assert Parts(model, n)[|Parts(model, n - 1)|] == CardPart(model.cards[k].code);
    } else {
      PartIsThere(model, n - 1, k);
    }
  }

  lemma AuthoredCardIsClaimed(sets: seq<LoadedSet>, i: nat, minter: Minter, model: SetModel, k: nat)
    requires i < |sets| && Convert(minter, model) == Ok(sets[i]) && k < |model.cards|
    ensures sets[i].code == model.code && |sets[i].cards| == |model.cards|
    ensures sets[i].cards[k].form == model.cards[k].form
    ensures var claim := CardClaim(i, model.cards[k].code);
            CardClaimed(sets, claim) && IdOf(sets, claim) == sets[i].cards[k].id
  {
    hide Convert;
    ConvertsExactly(minter, model);
    PartIsThere(model, |model.cards|, k);
  }

  lemma IndexedBy(loaded: LoadedSet, l: nat) returns (card: string)
    requires Converted(loaded) && l < |loaded.cards|
    ensures card in loaded.cardIds && loaded.cardIds[card] == loaded.cards[l].id
  {
    hide Converted;
    ConvertedIsComplete(loaded);
    assert Indexed(loaded.cardIds, loaded.cards[l].id);
    card :| card in loaded.cardIds && loaded.cardIds[card] == loaded.cards[l].id;
  }

  /** With all identities apart, a card of the pool is found under its own. */
  lemma PooledIsFound(library: CardLibrary, sets: seq<LoadedSet>, i: nat, card: string, k: nat)
    requires AssembledFrom(library, sets) && forall loaded <- sets :: Converted(loaded)
    requires i < |sets| && k < |sets[i].cards| && card in sets[i].cardIds
    requires sets[i].cardIds[card] == sets[i].cards[k].id
    requires forall l | 0 <= l < |sets[i].cards| && l != k :: sets[i].cards[l].id != sets[i].cards[k].id
    ensures library.coreCards.Get(sets[i].cards[k].id) == Some(sets[i].cards[k])
  {
    hide UniqueKeys, Converted, Complete, Indexes, Revisions;
    var id := sets[i].cards[k].id;
    EntityIsPooled(sets, i, k);
    var found := library.coreCards.Get(id).value;
    var j, l := PooledIsOfSet(sets, found);
    var other := IndexedBy(sets[j], l);
    var one, two := CardClaim(i, card), CardClaim(j, other);
    assert Claimed(sets, one) && Claimed(sets, two) && IdOf(sets, one) == IdOf(sets, two);
  }

  /** Each card of an authored Set is found under its Set's and its own code, and is defined as authored. */
  lemma AuthoredCardIsFound(library: CardLibrary, sets: seq<LoadedSet>, i: nat, minter: Minter, model: SetModel,
                            k: nat)
    requires AssembledFrom(library, sets) && forall loaded <- sets :: Converted(loaded)
    requires i < |sets| && Convert(minter, model) == Ok(sets[i]) && k < |model.cards|
    ensures var id := library.CardId(model.code + "/" + model.cards[k].code);
            id.Some? && library.coreCards.Get(id.value) == Some(D.Entity(id.value, model.cards[k].form))
  {
    AuthoredCardIsClaimed(sets, i, minter, model, k);
    DefinitionsDiffer(minter, model, |model.cards|);
    assert sets[i].cards == ConvertCards(minter, model, |model.cards|).value.entities;
    hide UniqueKeys, UniqueIds, Converted, ConvertCards, Convert;
    PooledIsFound(library, sets, i, model.cards[k].code, k);
    var claim := CardClaim(i, model.cards[k].code);
    assert KeyOf(sets, claim) == model.code + "/" + model.cards[k].code;
  }

  ghost predicate LastOfCode(sets: seq<LoadedSet>, code: string, i: nat) {
    && i < |sets| && sets[i].code == code
    && forall j | i < j < |sets| :: sets[j].code != code
  }

  lemma {:induction false} RevisionsAreLast(sets: seq<LoadedSet>, code: string)
    ensures code in Revisions(sets) <==> exists i :: 0 <= i < |sets| && sets[i].code == code
    ensures code in Revisions(sets) ==>
              exists i: nat :: LastOfCode(sets, code, i) && sets[i].revision == Revisions(sets)[code]
  {
    if sets != [] {
      var n := |sets| - 1;
      RevisionsAreLast(sets[..n], code);
      if sets[n].code == code {
        assert LastOfCode(sets, code, n);
      } else if code in Revisions(sets[..n]) {
        var i: nat :| LastOfCode(sets[..n], code, i) && sets[..n][i].revision == Revisions(sets[..n])[code];
        assert LastOfCode(sets, code, i);
      }
    }
  }

  ghost predicate IsKey(sets: seq<LoadedSet>, key: string, i: nat, card: string) {
    i < |sets| && card in sets[i].cardIds && key == sets[i].code + "/" + card
  }

  /** A library knows no other keys than its Sets' cards have, and of each code the last Set's revision. */
  lemma LibraryKnowsNoMore(library: CardLibrary, sets: seq<LoadedSet>, key: string, code: string)
    requires AssembledFrom(library, sets)
    ensures library.CardId(key).Some? <==> exists i, card :: IsKey(sets, key, i, card)
    ensures match library.SetRevision(code)
            case None => forall loaded <- sets :: loaded.code != code
            case Some(revision) => exists i: nat :: LastOfCode(sets, code, i) && sets[i].revision == revision
  {
    RevisionsAreLast(sets, code);
    if key in library.cards {
      assert Keyed(sets, key);
      var claim :| CardClaimed(sets, claim) && KeyOf(sets, claim) == key;
      assert IsKey(sets, key, claim.index, claim.card);
    }
    forall i, card | IsKey(sets, key, i, card) ensures key in library.cards {
      assert CardClaimed(sets, CardClaim(i, card)) && KeyOf(sets, CardClaim(i, card)) == key;
    }
  }
}
