/**
 What resolving a Deck document answers: the Deck is the document's own, card by card, and a refusal
 names the first thing wrong with it and where that stands.
 */
module DeckAnswers {
  import opened Wrappers
  import opened EntityIds
  import opened CardLibraries
  import opened Decks
  import D = Domain

  // ----- References -----

  /** A reference names a card of a Set: two keys with one slash between them. */
  ghost predicate IsReference(value: string, setCode: string) {
    exists card :: StableKeySyntax(setCode) && StableKeySyntax(card) && value == setCode + "/" + card
  }

  lemma KeyHasNoSlash(key: string)
    requires StableKeySyntax(key)
    ensures '/' !in key
  {
  }

  lemma {:induction false} SlashFound(before: string, after: string)
    requires '/' !in before
    ensures SlashAt(before + "/" + after) == |before|
  {
    var text := before + "/" + after;
    if before != "" {
      assert text[1..] == before[1..] + "/" + after;
      SlashFound(before[1..], after);
    }
  }

  /** A text is read as a card reference exactly when it is one, and then names the part before the slash. */
  lemma ReferencesExactly(value: string, path: string, setCode: string)
    ensures ParseQualified(value, path) == Ok(QualifiedCard(value, setCode)) <==> IsReference(value, setCode)
    ensures ParseQualified(value, path).Ok? ==> ParseQualified(value, path).value.key == value
    ensures ParseQualified(value, path).Err? ==>
              ParseQualified(value, path).error == DeckLoadError(path, InvalidStableKey(QualifiedCardKey, value))
  {
    hide StableKeySyntax;
    var slash := SlashAt(value);
    if IsReference(value, setCode) {
      var card :| StableKeySyntax(setCode) && StableKeySyntax(card) && value == setCode + "/" + card;
      KeyHasNoSlash(setCode);
      KeyHasNoSlash(card);
      SlashFound(setCode, card);
      assert value[..|setCode|] == setCode && value[|setCode| + 1..] == card;
    }
    if ParseQualified(value, path) == Ok(QualifiedCard(value, setCode)) {
      assert value == value[..slash] + "/" + value[slash + 1..];
    }
  }

  // ----- The Deck that a document resolves to -----

  /** Each item's card as often as the item asks, item by item. */
  function Listed(library: CardLibrary, items: seq<CardQuantity>): seq<EntityId> {
    if items == [] then []
    else
      var last := items[|items| - 1];
      Listed(library, items[..|items| - 1])
      + if last.card in library.cards then seq(last.quantity, _ => library.cards[last.card]) else []
  }

  lemma ItemTaken(library: CardLibrary, requirements: Requirements, starter: string, k: nat, item: CardQuantity,
                  copies: map<string, nat>)
    requires TakeItem(library, requirements, starter, k, item, copies).Ok?
    ensures item.card in library.cards
    ensures TakeItem(library, requirements, starter, k, item, copies).value.1 == library.cards[item.card]
  {
    hide StableKeySyntax, SlashAt, CardsPath;
  }

  lemma {:induction false} BodyIsListed(library: CardLibrary, requirements: Requirements, starter: string,
                                        raw: seq<CardQuantity>, k: nat, copies: map<string, nat>, body: seq<EntityId>)
    requires k <= |raw| && body == Listed(library, raw[..k])
    requires BodyFrom(library, requirements, starter, raw, k, copies, body).Ok?
    ensures BodyFrom(library, requirements, starter, raw, k, copies, body).value == Listed(library, raw)
    decreases |raw| - k
  {
    hide TakeItem;
    if k == |raw| {
      assert raw[..k] == raw;
    } else {
      ItemTaken(library, requirements, starter, k, raw[k], copies);
      assert raw[..k + 1][..k] == raw[..k];
      var taken := TakeItem(library, requirements, starter, k, raw[k], copies).value;
      BodyIsListed(library, requirements, starter, raw, k + 1, copies[taken.0 := taken.2],
        body + seq(raw[k].quantity, _ => taken.1));
    }
  }

  /** The Deck keeps the document's identity and name, its starter, and its cards in order. */
  lemma ResolvedKeepsDocument(raw: DeckDocument, library: CardLibrary)
    requires Resolve(raw, library).Ok?
    ensures var deck := Resolve(raw, library).value;
            && deck.id == raw.id && deck.name == raw.name
            && raw.starter in library.cards && deck.starter == library.cards[raw.starter]
            && deck.body == Listed(library, raw.cards)
  {
    hide StableKeySyntax, IsBlank, IsBase, RequirementsFrom, BodyFrom, SlashAt;
    var requirements := RequirementsFrom(library, raw.requirements, 0, map[], map[]).value;
    assert raw.cards[..0] == [];
    BodyIsListed(library, requirements, raw.starter, raw.cards, 0, map[], []);
  }

  /** Where different keys name different cards, a card is in the listing as often as its key is asked for. */
  lemma {:induction false} ListedAsAsked(library: CardLibrary, items: seq<CardQuantity>, key: string)
    requires Injective(library) && key in library.cards
    ensures multiset(Listed(library, items))[library.cards[key]] == KeyTotal(items, key)
    decreases |items|
  {
    if items != [] {
      var before, last := items[..|items| - 1], items[|items| - 1];
      ListedAsAsked(library, before, key);
      if last.card in library.cards {
        RepeatedCount(library.cards[last.card], last.quantity, library.cards[key]);
      }
    }
  }

  // ----- What a refusal says -----

  ghost predicate SetNamedBefore(raw: seq<SetRequirement>, k: nat, setCode: string, path: string)
    requires k <= |raw|
  {
    exists j :: 0 <= j < k && raw[j].setCode == setCode && path == RequiresPath(j)
  }

  /** Requirement k is the first out of order, for the reason given. */
  ghost predicate RequirementFault(library: CardLibrary, raw: seq<SetRequirement>, k: nat, error: DeckLoadError) {
    && k < |raw| && RequirementsMet(library, raw[..k])
    && var code := raw[k].setCode;
       && error.path == RequiresPath(k) + (if error.cause.SetRevisionMismatch? then ".revision" else ".set")
       && match error.cause
          case InvalidStableKey(kind, value) => kind == SetKey && value == code && !StableKeySyntax(code)
          case DuplicateSetRequirement(named, firstPath) => named == code && SetNamedBefore(raw, k, code, firstPath)
          case RequiredSetUnavailable(named) => named == code && code !in library.sets
          case SetRevisionMismatch(named, required, available) =>
            && named == code && required == raw[k].revision && required != available
            && code in library.sets && library.sets[code] == available
          case _ => false
  }

  lemma {:induction false} RequirementErrorIsFirst(library: CardLibrary, raw: seq<SetRequirement>, k: nat,
                                                   requirements: Requirements, paths: map<string, string>)
    returns (at: nat)
    requires k <= |raw| && paths.Keys == RequiredCodes(raw[..k]) && RequirementsMet(library, raw[..k])
    requires forall code <- paths :: SetNamedBefore(raw, k, code, paths[code])
    requires RequirementsFrom(library, raw, k, requirements, paths).Err?
    ensures RequirementFault(library, raw, at, RequirementsFrom(library, raw, k, requirements, paths).error)
    decreases |raw| - k
  {
    at := k;
    if TakeRequirement(library, k, raw[k], paths).Ok? {
      NextRequirement(library, raw, k, paths);
      hide TakeRequirement, RequirementFault, RequiresPath, RequirementsMet;
      assert raw[..k + 1] == raw[..k] + [raw[k]];
      at := RequirementErrorIsFirst(library, raw, k + 1, requirements[raw[k].setCode := raw[k].revision],
        paths[raw[k].setCode := RequiresPath(k)]);
    }
  }

  function Capped(count: nat): nat {
    if count > 0xFFFF_FFFF then 0xFFFF_FFFF else count
  }

  /** Item k is the first out of order, or all are and there are not twenty cards. */
  ghost predicate BodyFault(library: CardLibrary, codes: set<string>, starter: string, raw: seq<CardQuantity>, k: nat,
                            error: DeckLoadError) {
    && k <= |raw| && (forall j | 0 <= j < k :: ItemInOrder(library, codes, starter, raw[j]))
    && if k == |raw| then
         error == DeckLoadError("cards", BodyCardCount(20, Capped(Total(raw)))) && Total(raw) != 20
       else
         var item := raw[k];
         && error.path == CardsPath(k) +
              (if error.cause.QuantityMustBePositive? || error.cause.CopyLimitExceeded? then ".quantity" else ".card")
         && match error.cause
            case InvalidStableKey(kind, value) =>
              kind == QualifiedCardKey && value == item.card && forall setCode :: !IsReference(item.card, setCode)
            case MissingSetRequirement(setCode) => IsReference(item.card, setCode) && setCode !in codes
            case QuantityMustBePositive => item.quantity == 0
            case StarterInBody(key) => key == item.card == starter
            case UnresolvedCard(key) => key == item.card && key !in library.cards
            case CopyLimitExceeded(key, copies, limit) =>
              && key == item.card && limit == 2
              && copies == Capped(KeyTotal(raw[..k + 1], key)) > 2
            case _ => false
  }

  lemma ItemErrorIsTrue(library: CardLibrary, requirements: Requirements, starter: string, raw: seq<CardQuantity>,
                        k: nat, copies: map<string, nat>, size: nat)
    requires k < |raw| && PrefixTallied(raw, k, copies, size)
    requires forall j | 0 <= j < k :: ItemInOrder(library, requirements.Keys, starter, raw[j])
    requires TakeItem(library, requirements, starter, k, raw[k], copies).Err?
    ensures BodyFault(library, requirements.Keys, starter, raw, k,
              TakeItem(library, requirements, starter, k, raw[k], copies).error)
  {
    hide StableKeySyntax, SlashAt, CardsPath, ItemInOrder, IsReference;
    var item := raw[k];
    var parsed := ParseQualified(item.card, CardsPath(k) + ".card");
    assert raw[..k + 1][..k] == raw[..k];
    if parsed.Ok? {
      ReferencesExactly(item.card, CardsPath(k) + ".card", parsed.value.setCode);
    } else {
      forall setCode ensures !IsReference(item.card, setCode) {
        ReferencesExactly(item.card, CardsPath(k) + ".card", setCode);
      }
    }
    assert KeyTotal(raw[..k + 1], item.card) == KeyTotal(raw[..k], item.card) + item.quantity;
  }

  lemma {:induction false} BodyErrorIsFirst(library: CardLibrary, requirements: Requirements, starter: string,
                                            raw: seq<CardQuantity>, k: nat, copies: map<string, nat>,
                                            body: seq<EntityId>)
    returns (at: nat)
    requires k <= |raw| && PrefixTallied(raw, k, copies, |body|)
    requires forall j | 0 <= j < k :: ItemInOrder(library, requirements.Keys, starter, raw[j])
    requires BodyFrom(library, requirements, starter, raw, k, copies, body).Err?
    ensures BodyFault(library, requirements.Keys, starter, raw, at,
              BodyFrom(library, requirements, starter, raw, k, copies, body).error)
    decreases |raw| - k
  {
    hide TakeItem, ItemInOrder, KeyTotal, Total;
    at := k;
    if k == |raw| {
      assert raw[..k] == raw;
    } else {
      hide BodyFault;
      var taken := TakeItem(library, requirements, starter, k, raw[k], copies);
      ItemExactly(library, requirements, starter, k, raw[k], copies);
      if taken.Ok? {
        NextTally(raw, k, copies, |body|);
        at := BodyErrorIsFirst(library, requirements, starter, raw, k + 1, copies[taken.value.0 := taken.value.2],
          body + seq(raw[k].quantity, _ => taken.value.1));
      } else {
        ItemErrorIsTrue(library, requirements, starter, raw, k, copies, |body|);
      }
    }
  }

  /** The starter is out of order, for the reason given. */
  ghost predicate StarterFault(library: CardLibrary, codes: set<string>, starter: string, error: DeckLoadError) {
    && error.path == "starter"
    && match error.cause
       case InvalidStableKey(kind, value) =>
         kind == QualifiedCardKey && value == starter && forall setCode :: !IsReference(starter, setCode)
       case MissingSetRequirement(setCode) => IsReference(starter, setCode) && setCode !in codes
       case UnresolvedCard(key) => key == starter && key !in library.cards
       case StarterMustBeBase(key) =>
         key == starter && key in library.cards && !IsBase(library, library.cards[key])
       case _ => false
  }

  /** Whatever a refusal names is wrong with the document, and everything checked before it is in order. */
  ghost predicate IsWrong(raw: DeckDocument, library: CardLibrary, error: DeckLoadError) {
    var codes := RequiredCodes(raw.requirements);
    if raw.schemaVersion != 1 then
      error == DeckLoadError("schema_version", UnsupportedSchemaVersion(raw.schemaVersion))
    else if !StableKeySyntax(raw.id) then error == DeckLoadError("id", InvalidStableKey(DeckKey, raw.id))
    else if IsBlank(raw.name) then error == DeckLoadError("name", NameMustNotBeEmpty)
    else if !RequirementsMet(library, raw.requirements) then
      exists k :: RequirementFault(library, raw.requirements, k, error)
    else if !(Resolves(library, codes, raw.starter) && IsBase(library, library.cards[raw.starter])) then
      StarterFault(library, codes, raw.starter, error)
    else exists k :: BodyFault(library, codes, raw.starter, raw.cards, k, error)
  }

  lemma StarterErrorIsTrue(raw: DeckDocument, library: CardLibrary, requirements: Requirements)
    requires Resolve(raw, library).Err?
    requires raw.schemaVersion == SCHEMA_VERSION && StableKeySyntax(raw.id) && !IsBlank(raw.name)
    requires RequirementsFrom(library, raw.requirements, 0, map[], map[]) == Ok(requirements)
    requires !(Resolves(library, requirements.Keys, raw.starter) && IsBase(library, library.cards[raw.starter]))
    ensures StarterFault(library, requirements.Keys, raw.starter, Resolve(raw, library).error)
  {
    hide StableKeySyntax, SlashAt, IsBlank, IsBase, RequirementsFrom, BodyFrom, IsReference;
    var parsed := ParseQualified(raw.starter, "starter");
    if parsed.Ok? {
      ReferencesExactly(raw.starter, "starter", parsed.value.setCode);
    } else {
      forall setCode ensures !IsReference(raw.starter, setCode) {
        ReferencesExactly(raw.starter, "starter", setCode);
      }
    }
  }

  lemma RefusalIsTrue(raw: DeckDocument, library: CardLibrary)
    requires Resolve(raw, library).Err?
    ensures IsWrong(raw, library, Resolve(raw, library).error)
  {
    hide StableKeySyntax, IsBlank, IsBase, RequirementsMet, RequirementsFrom, BodyFrom, SlashAt, RequiredCodes,
      RequirementFault, BodyFault, StarterFault;
    NothingRequired(library, raw.requirements);
    RequirementsExactly(library, raw.requirements, 0, map[], map[]);
    var required := RequirementsFrom(library, raw.requirements, 0, map[], map[]);
    if raw.schemaVersion == SCHEMA_VERSION && StableKeySyntax(raw.id) && !IsBlank(raw.name) {
      if required.Err? {
        var k := RequirementErrorIsFirst(library, raw.requirements, 0, map[], map[]);
      } else if Resolves(library, required.value.Keys, raw.starter) && IsBase(library, library.cards[raw.starter]) {
        NothingTallied(raw.cards);
        var k := BodyErrorIsFirst(library, required.value, raw.starter, raw.cards, 0, map[], []);
      } else {
        StarterErrorIsTrue(raw, library, required.value);
      }
    }
  }
}
