/** Resolving an authored Deck against a card library, and what every resolved Deck keeps to. */
module Decks {
  import opened Wrappers
  import opened EntityIds
  import opened CardLibraries
  import OV = OrderedValues
  import D = Domain

  const SCHEMA_VERSION: nat := 1
  const BODY_SIZE: nat := 20
  const COPY_LIMIT: nat := 2
  const U32_MAX: nat := 0xFFFF_FFFF

  datatype DeckStableKeyKind = DeckKey | SetKey | QualifiedCardKey

  datatype DeckLoadCause =
    | UnsupportedSchemaVersion(found: nat)
    | InvalidStableKey(kind: DeckStableKeyKind, value: string)
    | NameMustNotBeEmpty
    | DuplicateSetRequirement(setCode: string, firstPath: string)
    | RequiredSetUnavailable(setCode: string)
    | SetRevisionMismatch(setCode: string, required: nat, available: nat)
    | MissingSetRequirement(setCode: string)
    | UnresolvedCard(key: string)
    | StarterMustBeBase(key: string)
    | StarterInBody(key: string)
    | QuantityMustBePositive
    | CopyLimitExceeded(key: string, copies: nat, limit: nat)
    | BodyCardCount(expected: nat, counted: nat)

  datatype DeckLoadError = DeckLoadError(path: string, cause: DeckLoadCause)

  datatype Deck = Deck(id: string, name: string, starter: EntityId, body: seq<EntityId>)

  datatype SetRequirement = SetRequirement(setCode: string, revision: nat)
  datatype CardQuantity = CardQuantity(card: string, quantity: nat)

  datatype DeckDocument = DeckDocument(
    schemaVersion: nat,
    id: string,
    name: string,
    starter: string,
    requirements: seq<SetRequirement>,
    cards: seq<CardQuantity>)

  datatype QualifiedCard = QualifiedCard(key: string, setCode: string)

  type Requirements = map<string, nat>

  // ----- Keys -----

  predicate KeyLetter(c: char) {
    'a' <= c <= 'z' || '0' <= c <= '9' || c == '-'
  }

  predicate StableKeySyntax(value: string) {
    && 1 <= |value| <= 64
    && 'a' <= value[0] <= 'z'
    && (forall k | 0 <= k < |value| :: KeyLetter(value[k]))
    && value[|value| - 1] != '-'
    && (forall k | 0 < k < |value| :: !(value[k - 1] == '-' && value[k] == '-'))
  }

  predicate IsWhitespace(c: char) {
    var code := c as int;
    9 <= code <= 13 || code == 32 || code == 0x85 || code == 0xA0 || code == 0x1680 || 0x2000 <= code <= 0x200A
    || code == 0x2028 || code == 0x2029 || code == 0x202F || code == 0x205F || code == 0x3000
  }

  predicate IsBlank(text: string) {
    forall k | 0 <= k < |text| :: IsWhitespace(text[k])
  }

  function SlashAt(text: string): (r: nat)
    ensures r <= |text|
    ensures r < |text| ==> text[r] == '/'
    ensures forall k | 0 <= k < r :: text[k] != '/'
  {
    if text == "" || text[0] == '/' then 0 else 1 + SlashAt(text[1..])
  }

  /** Exactly two parts with stable keys on either side of one slash. */
  function ParseQualified(value: string, path: string): Result<QualifiedCard, DeckLoadError> {
    var slash := SlashAt(value);
    if slash < |value| && StableKeySyntax(value[..slash]) && StableKeySyntax(value[slash + 1..])
       && '/' !in value[slash + 1..] then
      Ok(QualifiedCard(value, value[..slash]))
    else Err(DeckLoadError(path, InvalidStableKey(QualifiedCardKey, value)))
  }

  // ----- Requirements -----

  function RequiresPath(k: nat): string {
    "requires[" + OV.Decimal(k) + "]"
  }

  function TakeRequirement(library: CardLibrary, k: nat, requirement: SetRequirement, paths: map<string, string>)
    : Result<(), DeckLoadError>
  {
    var setCode, path := requirement.setCode, RequiresPath(k);
    if !StableKeySyntax(setCode) then Err(DeckLoadError(path + ".set", InvalidStableKey(SetKey, setCode)))
    else if setCode in paths then Err(DeckLoadError(path + ".set", DuplicateSetRequirement(setCode, paths[setCode])))
    else
      match library.SetRevision(setCode)
      case None => Err(DeckLoadError(path + ".set", RequiredSetUnavailable(setCode)))
      case Some(available) =>
        if available != requirement.revision then
          Err(DeckLoadError(path + ".revision", SetRevisionMismatch(setCode, requirement.revision, available)))
        else Ok(())
  }

  function RequirementsFrom(library: CardLibrary, raw: seq<SetRequirement>, k: nat, requirements: Requirements,
                            paths: map<string, string>): Result<Requirements, DeckLoadError>
    decreases |raw| - k
  {
    if k >= |raw| then Ok(requirements)
    else
      var _ :- TakeRequirement(library, k, raw[k], paths);
      RequirementsFrom(library, raw, k + 1, requirements[raw[k].setCode := raw[k].revision],
        paths[raw[k].setCode := RequiresPath(k)])
  }

  method ResolveRequirements(library: CardLibrary, raw: seq<SetRequirement>)
    returns (r: Result<Requirements, DeckLoadError>)
    ensures r == RequirementsFrom(library, raw, 0, map[], map[])
  {
    var requirements: Requirements, paths: map<string, string> := map[], map[];
    for k := 0 to |raw|
      invariant RequirementsFrom(library, raw, k, requirements, paths) ==
                RequirementsFrom(library, raw, 0, map[], map[])
    {
      var _ :- TakeRequirement(library, k, raw[k], paths);
      requirements, paths := requirements[raw[k].setCode := raw[k].revision], paths[raw[k].setCode := RequiresPath(k)];
    }
    return Ok(requirements);
  }

  // ----- Body -----

  function CardsPath(k: nat): string {
    "cards[" + OV.Decimal(k) + "]"
  }

  function RequireBound(card: QualifiedCard, requirements: Requirements, path: string): Result<(), DeckLoadError> {
    if card.setCode in requirements then Ok(()) else Err(DeckLoadError(path, MissingSetRequirement(card.setCode)))
  }

  function ResolveCard(library: CardLibrary, card: QualifiedCard, path: string): Result<EntityId, DeckLoadError> {
    match library.CardId(card.key)
    case Some(id) => Ok(id)
    case None => Err(DeckLoadError(path, UnresolvedCard(card.key)))
  }

  function Copies(copies: map<string, nat>, key: string): nat {
    if key in copies then copies[key] else 0
  }

  function SaturatingAdd(one: nat, other: nat): nat {
    if one + other > U32_MAX then U32_MAX else one + other
  }

  /** The card and its new number of copies, if the item is in order. */
  function TakeItem(library: CardLibrary, requirements: Requirements, starter: string, k: nat, item: CardQuantity,
                    copies: map<string, nat>): Result<(string, EntityId, nat), DeckLoadError>
  {
    var path := CardsPath(k);
    var card :- ParseQualified(item.card, path + ".card");
    var _ :- RequireBound(card, requirements, path + ".card");
    if item.quantity == 0 then Err(DeckLoadError(path + ".quantity", QuantityMustBePositive))
    else if card.key == starter then Err(DeckLoadError(path + ".card", StarterInBody(card.key)))
    else
      var id :- ResolveCard(library, card, path + ".card");
      var count := SaturatingAdd(Copies(copies, card.key), item.quantity);
      if count > COPY_LIMIT then Err(DeckLoadError(path + ".quantity", CopyLimitExceeded(card.key, count, COPY_LIMIT)))
      else Ok((card.key, id, count))
  }

  function BodyFrom(library: CardLibrary, requirements: Requirements, starter: string, raw: seq<CardQuantity>, k: nat,
                    copies: map<string, nat>, body: seq<EntityId>): Result<seq<EntityId>, DeckLoadError>
    decreases |raw| - k
  {
    if k >= |raw| then
      if |body| != BODY_SIZE then
        Err(DeckLoadError("cards", BodyCardCount(BODY_SIZE, if |body| > U32_MAX then U32_MAX else |body|)))
      else Ok(body)
    else
      var taken :- TakeItem(library, requirements, starter, k, raw[k], copies);
      BodyFrom(library, requirements, starter, raw, k + 1, copies[taken.0 := taken.2],
        body + seq(raw[k].quantity, _ => taken.1))
  }

  method ResolveBody(library: CardLibrary, requirements: Requirements, starter: string, raw: seq<CardQuantity>)
    returns (r: Result<seq<EntityId>, DeckLoadError>)
    ensures r == BodyFrom(library, requirements, starter, raw, 0, map[], [])
  {
    var body: seq<EntityId>, copies: map<string, nat> := [], map[];
    for k := 0 to |raw|
      invariant BodyFrom(library, requirements, starter, raw, k, copies, body) ==
                BodyFrom(library, requirements, starter, raw, 0, map[], [])
    {
      var taken :- TakeItem(library, requirements, starter, k, raw[k], copies);
      copies := copies[taken.0 := taken.2];
      body := body + seq(raw[k].quantity, _ => taken.1);
    }
    if |body| != BODY_SIZE {
      return Err(DeckLoadError("cards", BodyCardCount(BODY_SIZE, if |body| > U32_MAX then U32_MAX else |body|)));
    }
    return Ok(body);
  }

  // ----- The whole Deck -----

  predicate IsBase(library: CardLibrary, id: EntityId) {
    var entity := library.coreCards.Get(id);
    entity.Some? && entity.value.form == Some(D.Base)
  }

  function Resolve(raw: DeckDocument, library: CardLibrary): Result<Deck, DeckLoadError> {
    if raw.schemaVersion != SCHEMA_VERSION then
      Err(DeckLoadError("schema_version", UnsupportedSchemaVersion(raw.schemaVersion)))
    else if !StableKeySyntax(raw.id) then Err(DeckLoadError("id", InvalidStableKey(DeckKey, raw.id)))
    else if IsBlank(raw.name) then Err(DeckLoadError("name", NameMustNotBeEmpty))
    else
      var requirements :- RequirementsFrom(library, raw.requirements, 0, map[], map[]);
      var starter :- ParseQualified(raw.starter, "starter");
      var _ :- RequireBound(starter, requirements, "starter");
      var starterId :- ResolveCard(library, starter, "starter");
      if !IsBase(library, starterId) then Err(DeckLoadError("starter", StarterMustBeBase(starter.key)))
      else
        var body :- BodyFrom(library, requirements, starter.key, raw.cards, 0, map[], []);
        Ok(Deck(raw.id, raw.name, starterId, body))
  }

  method ResolveDeck(raw: DeckDocument, library: CardLibrary) returns (r: Result<Deck, DeckLoadError>)
    ensures r == Resolve(raw, library)
  {
    if raw.schemaVersion != SCHEMA_VERSION {
      return Err(DeckLoadError("schema_version", UnsupportedSchemaVersion(raw.schemaVersion)));
    }
    if !StableKeySyntax(raw.id) { return Err(DeckLoadError("id", InvalidStableKey(DeckKey, raw.id))); }
    if IsBlank(raw.name) { return Err(DeckLoadError("name", NameMustNotBeEmpty)); }
    var requirements :- ResolveRequirements(library, raw.requirements);
    var starter :- ParseQualified(raw.starter, "starter");
    var _ :- RequireBound(starter, requirements, "starter");
    var starterId :- ResolveCard(library, starter, "starter");
    if !IsBase(library, starterId) { return Err(DeckLoadError("starter", StarterMustBeBase(starter.key))); }
    var body :- ResolveBody(library, requirements, starter.key, raw.cards);
    return Ok(Deck(raw.id, raw.name, starterId, body));
  }

  // ----- What a resolved Deck keeps to -----

  ghost predicate Named(library: CardLibrary, id: EntityId) {
    exists key :: key in library.cards && library.cards[key] == id
  }

  ghost predicate AllNamed(library: CardLibrary, body: seq<EntityId>) {
    forall k | 0 <= k < |body| :: Named(library, body[k])
  }

  /** Identity by identity, the body holds as many copies as its key has been given. */
  ghost predicate Counted(library: CardLibrary, copies: map<string, nat>, body: seq<EntityId>) {
    forall key <- library.cards :: multiset(body)[library.cards[key]] == Copies(copies, key)
  }

  ghost predicate Tallied(library: CardLibrary, starter: string, copies: map<string, nat>, body: seq<EntityId>) {
    && Counted(library, copies, body)
    && (forall key <- copies :: copies[key] <= COPY_LIMIT && key != starter)
    && AllNamed(library, body)
  }

  ghost predicate Injective(library: CardLibrary) {
    forall one, other | one in library.cards && other in library.cards ::
      library.cards[one] == library.cards[other] ==> one == other
  }

  lemma RepeatedCount(id: EntityId, count: nat, other: EntityId)
    ensures multiset(seq(count, _ => id))[other] == if id == other then count else 0
    decreases count
  {
    var copies := seq(count, _ => id);
    if count > 0 {
      RepeatedCount(id, count - 1, other);
      assert copies == seq(count - 1, _ => id) + [id];
    }
  }

  lemma ItemCounts(library: CardLibrary, copies: map<string, nat>, body: seq<EntityId>, key: string, quantity: nat)
    requires Injective(library) && Counted(library, copies, body) && key in library.cards
    ensures Counted(library, copies[key := Copies(copies, key) + quantity],
              body + seq(quantity, _ => library.cards[key]))
  {
    var added := seq(quantity, _ => library.cards[key]);
    var longer := copies[key := Copies(copies, key) + quantity];
    assert multiset(body + added) == multiset(body) + multiset(added);
    forall other <- library.cards ensures multiset(body + added)[library.cards[other]] == Copies(longer, other) {
      RepeatedCount(library.cards[key], quantity, library.cards[other]);
      assert multiset(body)[library.cards[other]] == Copies(copies, other);
      if other != key {
        assert library.cards[other] != library.cards[key];
      }
    }
  }

  lemma ItemIsNamed(library: CardLibrary, body: seq<EntityId>, key: string, quantity: nat)
    requires AllNamed(library, body) && key in library.cards
    ensures AllNamed(library, body + seq(quantity, _ => library.cards[key]))
  {
    assert Named(library, library.cards[key]);
  }

  lemma ItemTallies(library: CardLibrary, starter: string, copies: map<string, nat>, body: seq<EntityId>, key: string,
                    quantity: nat)
    requires Injective(library) && Tallied(library, starter, copies, body)
    requires key in library.cards && key != starter && Copies(copies, key) + quantity <= COPY_LIMIT
    ensures Tallied(library, starter, copies[key := Copies(copies, key) + quantity],
              body + seq(quantity, _ => library.cards[key]))
  {
    hide Counted, AllNamed, Injective;
    ItemCounts(library, copies, body, key, quantity);
    ItemIsNamed(library, body, key, quantity);
  }

  lemma {:induction false} BodyTallies(library: CardLibrary, requirements: Requirements, starter: string,
                                       raw: seq<CardQuantity>, k: nat, copies: map<string, nat>, body: seq<EntityId>)
    returns (counts: map<string, nat>)
    requires Injective(library) && Tallied(library, starter, copies, body)
    requires BodyFrom(library, requirements, starter, raw, k, copies, body).Ok?
    ensures var full := BodyFrom(library, requirements, starter, raw, k, copies, body).value;
            |full| == BODY_SIZE && Tallied(library, starter, counts, full)
    decreases |raw| - k
  {
    hide Tallied, Injective, ParseQualified;
    counts := copies;
    if k < |raw| {
      var taken := TakeItem(library, requirements, starter, k, raw[k], copies).value;
      ItemTallies(library, starter, copies, body, taken.0, raw[k].quantity);
      counts := BodyTallies(library, requirements, starter, raw, k + 1, copies[taken.0 := taken.2],
        body + seq(raw[k].quantity, _ => taken.1));
    }
  }

  /** Twenty known cards, at most two of a kind, and a known Base starter that is not among them. */
  ghost predicate Legal(cards: D.CardSet, deck: Deck) {
    && |deck.body| == 20
    && (forall id :: multiset(deck.body)[id] <= 2)
    && deck.starter !in deck.body
    && (forall k | 0 <= k < |deck.body| :: cards.Get(deck.body[k]).Some?)
    && cards.Get(deck.starter).Some? && cards.Get(deck.starter).value.form == Some(D.Base)
  }

  lemma LibraryIsInjective(library: CardLibrary, sets: seq<LoadedSet>)
    requires AssembledFrom(library, sets)
    ensures Injective(library)
  {
    hide AssembledFrom;
    forall one, other | one in library.cards && other in library.cards && library.cards[one] == library.cards[other]
      ensures one == other
    {
      KeysAreInjective(library, sets, one, other);
    }
  }

  lemma TalliedIsLegal(library: CardLibrary, sets: seq<LoadedSet>, starter: string, counts: map<string, nat>,
                       deck: Deck)
    requires AssembledFrom(library, sets) && forall loaded <- sets :: Converted(loaded)
    requires Tallied(library, starter, counts, deck.body) && |deck.body| == BODY_SIZE
    requires starter in library.cards && library.cards[starter] == deck.starter && IsBase(library, deck.starter)
    ensures Legal(library.coreCards, deck)
  {
    hide AssembledFrom, Converted;
    forall id ensures multiset(deck.body)[id] <= COPY_LIMIT {
      if id in deck.body {
        var k :| 0 <= k < |deck.body| && deck.body[k] == id;
        assert Named(library, deck.body[k]);
        var key :| key in library.cards && library.cards[key] == id;
        assert multiset(deck.body)[library.cards[key]] == Copies(counts, key);
      }
    }
    assert multiset(deck.body)[library.cards[starter]] == Copies(counts, starter) == 0;
    forall k | 0 <= k < |deck.body| ensures library.coreCards.Get(deck.body[k]).Some? {
      assert Named(library, deck.body[k]);
      var key :| key in library.cards && library.cards[key] == deck.body[k];
      KeysAreKnown(library, sets, key);
    }
  }

  /** Every Deck resolved against a library of converted Sets is legal, by definition and not only by key. */
  lemma ResolvedIsLegal(raw: DeckDocument, library: CardLibrary, sets: seq<LoadedSet>)
    requires AssembledFrom(library, sets) && forall loaded <- sets :: Converted(loaded)
    requires Resolve(raw, library).Ok?
    ensures Legal(library.coreCards, Resolve(raw, library).value)
  {
    hide Converted, AssembledFrom, StableKeySyntax, IsBlank, IsBase, Legal, Injective, ParseQualified,
      RequirementsFrom, BodyFrom;
    var deck := Resolve(raw, library).value;
    LibraryIsInjective(library, sets);
    var requirements := RequirementsFrom(library, raw.requirements, 0, map[], map[]).value;
    var starter := ParseQualified(raw.starter, "starter").value.key;
    assert Tallied(library, starter, map[], []);
    var counts := BodyTallies(library, requirements, starter, raw.cards, 0, map[], []);
    TalliedIsLegal(library, sets, starter, counts, deck);
  }

  // ----- Exactly which documents resolve -----

  function RequiredCodes(raw: seq<SetRequirement>): set<string> {
    set requirement <- raw :: requirement.setCode
  }

  /** Every required Set is named properly and once, and is loaded in the required revision. */
  ghost predicate RequirementsMet(library: CardLibrary, raw: seq<SetRequirement>) {
    && (forall k | 0 <= k < |raw| ::
          StableKeySyntax(raw[k].setCode) && library.SetRevision(raw[k].setCode) == Some(raw[k].revision))
    && (forall j, k | 0 <= j < k < |raw| :: raw[j].setCode != raw[k].setCode)
  }

  lemma {:induction false} RequirementsExactly(library: CardLibrary, raw: seq<SetRequirement>, k: nat,
                                               requirements: Requirements, paths: map<string, string>)
    requires k <= |raw| && paths.Keys == requirements.Keys == RequiredCodes(raw[..k])
    requires RequirementsMet(library, raw[..k])
    ensures RequirementsFrom(library, raw, k, requirements, paths).Ok? <==> RequirementsMet(library, raw)
    ensures RequirementsFrom(library, raw, k, requirements, paths).Ok? ==>
              RequirementsFrom(library, raw, k, requirements, paths).value.Keys == RequiredCodes(raw)
    decreases |raw| - k
  {
    hide StableKeySyntax, RequiresPath;
    if k == |raw| {
      assert raw[..k] == raw;
    } else {
      NextRequirement(library, raw, k, paths);
      if TakeRequirement(library, k, raw[k], paths).Ok? {
        assert raw[..k + 1] == raw[..k] + [raw[k]];
        RequirementsExactly(library, raw, k + 1, requirements[raw[k].setCode := raw[k].revision],
          paths[raw[k].setCode := RequiresPath(k)]);
      }
    }
  }

  lemma NextRequirement(library: CardLibrary, raw: seq<SetRequirement>, k: nat, paths: map<string, string>)
    requires k < |raw| && paths.Keys == RequiredCodes(raw[..k]) && RequirementsMet(library, raw[..k])
    ensures TakeRequirement(library, k, raw[k], paths).Ok? <==> RequirementsMet(library, raw[..k + 1])
    ensures TakeRequirement(library, k, raw[k], paths).Err? ==> !RequirementsMet(library, raw)
  {
    hide StableKeySyntax, RequiresPath;
    var before, longer := raw[..k], raw[..k + 1];
    assert longer == before + [raw[k]];
    if raw[k].setCode in paths {
      var j :| 0 <= j < k && before[j].setCode == raw[k].setCode;
      assert longer[j].setCode == longer[k].setCode && raw[j].setCode == raw[k].setCode;
    } else {
      forall j | 0 <= j < k ensures raw[j].setCode != raw[k].setCode {
        assert before[j] in before;
      }
    }
    if RequirementsMet(library, longer) {
      assert library.SetRevision(longer[k].setCode) == Some(longer[k].revision) && StableKeySyntax(longer[k].setCode);
    }
  }

  /** A reference that is well formed, bound by a requirement and known to the library. */
  ghost predicate Resolves(library: CardLibrary, codes: set<string>, value: string) {
    var card := ParseQualified(value, "");
    card.Ok? && card.value.setCode in codes && value in library.cards
  }

  ghost predicate ItemInOrder(library: CardLibrary, codes: set<string>, starter: string, item: CardQuantity) {
    Resolves(library, codes, item.card) && item.quantity > 0 && item.card != starter
  }

  function KeyTotal(items: seq<CardQuantity>, key: string): nat {
    if items == [] then 0
    else
      var last := items[|items| - 1];
      KeyTotal(items[..|items| - 1], key) + if last.card == key then last.quantity else 0
  }

  function Total(items: seq<CardQuantity>): nat {
    if items == [] then 0 else Total(items[..|items| - 1]) + items[|items| - 1].quantity
  }

  /** All items in order, at most two copies of each card, twenty in all. */
  ghost predicate BodyMet(library: CardLibrary, codes: set<string>, starter: string, raw: seq<CardQuantity>) {
    && (forall k | 0 <= k < |raw| :: ItemInOrder(library, codes, starter, raw[k]))
    && (forall key :: KeyTotal(raw, key) <= COPY_LIMIT)
    && Total(raw) == BODY_SIZE
  }

  lemma {:induction false} PrefixTotals(items: seq<CardQuantity>, k: nat, key: string)
    requires k <= |items|
    ensures KeyTotal(items[..k], key) <= KeyTotal(items, key)
    decreases |items|
  {
    if k == |items| {
      assert items[..k] == items;
    } else {
      assert items[..|items| - 1][..k] == items[..k];
      PrefixTotals(items[..|items| - 1], k, key);
    }
  }

  lemma ItemExactly(library: CardLibrary, requirements: Requirements, starter: string, k: nat, item: CardQuantity,
                    copies: map<string, nat>)
    ensures TakeItem(library, requirements, starter, k, item, copies).Ok? <==>
            && ItemInOrder(library, requirements.Keys, starter, item)
            && Copies(copies, item.card) + item.quantity <= COPY_LIMIT
    ensures TakeItem(library, requirements, starter, k, item, copies).Ok? ==>
              var taken := TakeItem(library, requirements, starter, k, item, copies).value;
              taken.0 == item.card && taken.2 == Copies(copies, item.card) + item.quantity
  {
    hide StableKeySyntax, SlashAt, CardsPath;
  }

  ghost predicate PrefixTallied(raw: seq<CardQuantity>, k: nat, copies: map<string, nat>, size: nat)
    requires k <= |raw|
  {
    && (forall key :: Copies(copies, key) == KeyTotal(raw[..k], key) <= COPY_LIMIT)
    && size == Total(raw[..k])
  }

  lemma NextTally(raw: seq<CardQuantity>, k: nat, copies: map<string, nat>, size: nat)
    requires k < |raw| && PrefixTallied(raw, k, copies, size)
    requires Copies(copies, raw[k].card) + raw[k].quantity <= COPY_LIMIT
    ensures PrefixTallied(raw, k + 1, copies[raw[k].card := Copies(copies, raw[k].card) + raw[k].quantity],
              size + raw[k].quantity)
  {
    var item, prefix := raw[k], raw[..k + 1];
    var more := copies[item.card := Copies(copies, item.card) + item.quantity];
    assert prefix[..k] == raw[..k] && prefix[k] == item && |prefix| == k + 1;
    forall key ensures Copies(more, key) == KeyTotal(prefix, key) <= COPY_LIMIT {
      assert Copies(copies, key) == KeyTotal(raw[..k], key);
    }
  }

  lemma {:induction false} BodyExactly(library: CardLibrary, requirements: Requirements, starter: string,
                                       raw: seq<CardQuantity>, k: nat, copies: map<string, nat>, body: seq<EntityId>)
    requires k <= |raw| && PrefixTallied(raw, k, copies, |body|)
    requires forall j | 0 <= j < k :: ItemInOrder(library, requirements.Keys, starter, raw[j])
    ensures BodyFrom(library, requirements, starter, raw, k, copies, body).Ok? <==>
            BodyMet(library, requirements.Keys, starter, raw)
    decreases |raw| - k
  {
    hide TakeItem, ItemInOrder, KeyTotal, Total;
    if k == |raw| {
      assert raw[..k] == raw;
    } else {
      var item := raw[k];
      ItemExactly(library, requirements, starter, k, item, copies);
      if TakeItem(library, requirements, starter, k, item, copies).Ok? {
        var taken := TakeItem(library, requirements, starter, k, item, copies).value;
        NextTally(raw, k, copies, |body|);
        BodyExactly(library, requirements, starter, raw, k + 1, copies[taken.0 := taken.2],
          body + seq(item.quantity, _ => taken.1));
      } else if BodyMet(library, requirements.Keys, starter, raw) {
        TooManyCopies(raw, k, copies, |body|);
      }
    }
  }

  lemma TooManyCopies(raw: seq<CardQuantity>, k: nat, copies: map<string, nat>, size: nat)
    requires k < |raw| && PrefixTallied(raw, k, copies, size)
    ensures Copies(copies, raw[k].card) + raw[k].quantity <= KeyTotal(raw, raw[k].card)
  {
    PrefixTotals(raw, k + 1, raw[k].card);
    assert raw[..k + 1][..k] == raw[..k] && raw[..k + 1][k] == raw[k];
  }

  /** A Deck document resolves exactly when each of these conditions on it holds. */
  lemma ResolvesExactly(raw: DeckDocument, library: CardLibrary)
    ensures Resolve(raw, library).Ok? <==>
            && raw.schemaVersion == SCHEMA_VERSION
            && StableKeySyntax(raw.id) && !IsBlank(raw.name)
            && RequirementsMet(library, raw.requirements)
            && Resolves(library, RequiredCodes(raw.requirements), raw.starter)
            && IsBase(library, library.cards[raw.starter])
            && BodyMet(library, RequiredCodes(raw.requirements), raw.starter, raw.cards)
  {
    hide StableKeySyntax, IsBlank, IsBase, RequirementsMet, BodyMet, RequirementsFrom, BodyFrom, SlashAt, RequiredCodes;
    NothingRequired(library, raw.requirements);
    RequirementsExactly(library, raw.requirements, 0, map[], map[]);
    if RequirementsFrom(library, raw.requirements, 0, map[], map[]).Ok? {
      var requirements := RequirementsFrom(library, raw.requirements, 0, map[], map[]).value;
      NothingTallied(raw.cards);
      BodyExactly(library, requirements, raw.starter, raw.cards, 0, map[], []);
    }
  }

  lemma NothingRequired(library: CardLibrary, raw: seq<SetRequirement>)
    ensures RequiredCodes(raw[..0]) == {} && RequirementsMet(library, raw[..0])
  {
  }

  lemma NothingTallied(raw: seq<CardQuantity>)
    ensures PrefixTallied(raw, 0, map[], 0)
  {
    assert raw[..0] == [];
  }
}
