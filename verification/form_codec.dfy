/**
 Local artwork links: the query a page writes for an artwork (the application/x-www-form-urlencoded
 serializer, section 5.2 of the WHATWG URL Standard) and the strict parser that reads it back.
 Text is its UTF-8 bytes.
 */
module FormCodec {
  import opened Wrappers
  import opened Bytes
  import opened Search

  const PLUS: byte := 43
  const PERCENT: byte := 37
  const AMPERSAND: byte := 38
  const EQUALS: byte := 61
  const SPACE: byte := 32

  /** The bytes of an ASCII text. */
  function Ascii(text: string): (r: seq<byte>)
    requires forall k | 0 <= k < |text| :: text[k] as int < 128
    ensures |r| == |text|
    ensures forall k | 0 <= k < |text| :: r[k] as int == text[k] as int
  {
    seq(|text|, k requires 0 <= k < |text| => text[k] as byte)
  }

  // ----- Percent coding -----

  predicate IsDigit(b: byte) {
    48 <= b <= 57
  }

  predicate IsAlphanumeric(b: byte) {
    IsDigit(b) || 65 <= b <= 90 || 97 <= b <= 122
  }

  /** Letters, digits and `*`, `-`, `.`, `_` stand for themselves. */
  predicate Unreserved(b: byte) {
    IsAlphanumeric(b) || b == 42 || b == 45 || b == 46 || b == 95
  }

  function HexDigit(value: byte): (r: byte)
    requires value < 16
    ensures HexValue(r) == Some(value)
    ensures IsDigit(r) || 65 <= r <= 70
  {
    if value < 10 then 48 + value else 65 + (value - 10)
  }

  function HexValue(b: byte): (r: Option<byte>)
    ensures r.Some? ==> r.value < 16
  {
    if 48 <= b <= 57 then Some(b - 48)
    else if 97 <= b <= 102 then Some(b - 97 + 10)
    else if 65 <= b <= 70 then Some(b - 65 + 10)
    else None
  }

  function EncodeByte(b: byte): seq<byte> {
    if b == SPACE then [PLUS]
    else if Unreserved(b) then [b]
    else [PERCENT, HexDigit(b / 16), HexDigit(b % 16)]
  }

  function Encode(bytes: seq<byte>): seq<byte> {
    if bytes == [] then [] else EncodeByte(bytes[0]) + Encode(bytes[1..])
  }

  function DecodeBytes(raw: seq<byte>): Option<seq<byte>> {
    if raw == [] then Some([])
    else if raw[0] == PLUS then Prepend([SPACE], DecodeBytes(raw[1..]))
    else if raw[0] == PERCENT then
      if |raw| >= 3 && HexValue(raw[1]).Some? && HexValue(raw[2]).Some? then
        Prepend([HexValue(raw[1]).value * 16 + HexValue(raw[2]).value], DecodeBytes(raw[3..]))
      else None
    else Prepend([raw[0]], DecodeBytes(raw[1..]))
  }

  function Prepend(first: seq<byte>, rest: Option<seq<byte>>): Option<seq<byte>> {
    match rest
    case None => None
    case Some(bytes) => Some(first + bytes)
  }

  datatype ArtworkKeyError = UnknownSource | MalformedId
  datatype ArtworkRouteError = InvalidQuery | DuplicateField | UnknownField | KeyError(error: ArtworkKeyError)

  function DecodeFormComponent(raw: seq<byte>): (r: Result<seq<byte>, ArtworkRouteError>)
    ensures r.Ok? ==> Utf8(r.value)
  {
    match DecodeBytes(raw)
    case Some(bytes) => if Utf8(bytes) then Ok(bytes) else Err(InvalidQuery)
    case None => Err(InvalidQuery)
  }

  lemma PrependTwice(first: seq<byte>, second: seq<byte>, rest: Option<seq<byte>>)
    ensures Prepend(first, Prepend(second, rest)) == Prepend(first + second, rest)
  {
    if rest.Some? {
      assert first + (second + rest.value) == first + second + rest.value;
    }
  }

  lemma PrependNothing(rest: Option<seq<byte>>)
    ensures Prepend([], rest) == rest
  {
    if rest.Some? {
      assert [] + rest.value == rest.value;
    }
  }

  method DecodeComponent(raw: seq<byte>) returns (r: Result<seq<byte>, ArtworkRouteError>)
    ensures r == DecodeFormComponent(raw)
  {
    var decoded, position := [], 0;
    assert raw[0..] == raw;
    PrependNothing(DecodeBytes(raw));
    while position < |raw|
      invariant position <= |raw|
      invariant Prepend(decoded, DecodeBytes(raw[position..])) == DecodeBytes(raw)
    {
      var rest := raw[position..];
      var b := raw[position];
      if b == PLUS {
        PrependTwice(decoded, [SPACE], DecodeBytes(rest[1..]));
        decoded, position := decoded + [SPACE], position + 1;
      } else if b == PERCENT {
        var high := if position + 1 < |raw| then HexValue(raw[position + 1]) else None;
        if high.None? { return Err(InvalidQuery); }
        var low := if position + 2 < |raw| then HexValue(raw[position + 2]) else None;
        if low.None? { return Err(InvalidQuery); }
        PrependTwice(decoded, [high.value * 16 + low.value], DecodeBytes(rest[3..]));
        decoded, position := decoded + [high.value * 16 + low.value], position + 3;
      } else {
        PrependTwice(decoded, [b], DecodeBytes(rest[1..]));
        decoded, position := decoded + [b], position + 1;
      }
    }
    assert raw[position..] == [] && decoded + [] == decoded;
    return if Utf8(decoded) then Ok(decoded) else Err(InvalidQuery);
  }

  /** Decoding undoes the serializer for every byte string. */
  lemma {:induction false} DecodeUndoesEncode(bytes: seq<byte>)
    ensures DecodeBytes(Encode(bytes)) == Some(bytes)
  {
    if bytes != [] {
      DecodeUndoesEncode(bytes[1..]);
      var first, rest := EncodeByte(bytes[0]), Encode(bytes[1..]);
      assert Encode(bytes) == first + rest;
      assert (first + rest)[|first|..] == rest;
      assert bytes == [bytes[0]] + bytes[1..];
    }
  }

  /** What the serializer writes is ASCII and free of the bytes that separate fields. */
  lemma {:induction false} EncodedIsPlain(bytes: seq<byte>)
    ensures forall k | 0 <= k < |Encode(bytes)| ::
              Unreserved(Encode(bytes)[k]) || Encode(bytes)[k] == PLUS || Encode(bytes)[k] == PERCENT
  {
    if bytes != [] {
      EncodedIsPlain(bytes[1..]);
    }
  }

  // ----- Splitting -----

  function IndexOf(text: seq<byte>, separator: byte): (r: nat)
    ensures r <= |text|
    ensures r < |text| ==> text[r] == separator
    ensures forall k | 0 <= k < r :: text[k] != separator
  {
    if text == [] || text[0] == separator then 0 else 1 + IndexOf(text[1..], separator)
  }

  function Split(text: seq<byte>, separator: byte): seq<seq<byte>>
    decreases |text|
  {
    var end := IndexOf(text, separator);
    if end == |text| then [text] else [text[..end]] + Split(text[end + 1..], separator)
  }

  function SplitOnce(text: seq<byte>, separator: byte): Option<(seq<byte>, seq<byte>)> {
    var end := IndexOf(text, separator);
    if end == |text| then None else Some((text[..end], text[end + 1..]))
  }

  predicate Without(text: seq<byte>, separator: byte) {
    forall k | 0 <= k < |text| :: text[k] != separator
  }

  lemma IndexAfter(before: seq<byte>, separator: byte, after: seq<byte>)
    requires Without(before, separator)
    ensures IndexOf(before + [separator] + after, separator) == |before|
    ensures SplitOnce(before + [separator] + after, separator) == Some((before, after))
    ensures Split(before + [separator] + after, separator) == [before] + Split(after, separator)
  {
    var text := before + [separator] + after;
    assert text[|before|] == separator && forall k | 0 <= k < |before| :: text[k] == before[k];
    assert text[..|before|] == before && text[|before| + 1..] == after;
  }

  // ----- Serialized pairs -----

  type Pair = (seq<byte>, seq<byte>)

  function PairText(pair: Pair): seq<byte> {
    Encode(pair.0) + [EQUALS] + Encode(pair.1)
  }

  function AppendPair(query: seq<byte>, name: seq<byte>, value: seq<byte>): seq<byte> {
    query + (if query == [] then [] else [AMPERSAND]) + PairText((name, value))
  }

  function Serialize(pairs: seq<Pair>): seq<byte> {
    if pairs == [] then []
    else AppendPair(Serialize(pairs[..|pairs| - 1]), pairs[|pairs| - 1].0, pairs[|pairs| - 1].1)
  }

  lemma EncodedHasNoSeparator(bytes: seq<byte>)
    ensures Without(Encode(bytes), AMPERSAND) && Without(Encode(bytes), EQUALS)
  {
    EncodedIsPlain(bytes);
  }

  lemma WithoutAppend(before: seq<byte>, after: seq<byte>)
    requires Without(before, AMPERSAND) && Without(after, AMPERSAND)
    ensures Without(before + [EQUALS] + after, AMPERSAND)
  {
  }

  lemma PairHasNoSeparator(pair: Pair)
    ensures Without(PairText(pair), AMPERSAND) && Without(Encode(pair.0), EQUALS)
    ensures SplitOnce(PairText(pair), EQUALS) == Some((Encode(pair.0), Encode(pair.1)))
    ensures PairText(pair) != []
  {
    EncodedHasNoSeparator(pair.0);
    EncodedHasNoSeparator(pair.1);
    hide Encode, Without, SplitOnce;
    WithoutAppend(Encode(pair.0), Encode(pair.1));
    IndexAfter(Encode(pair.0), EQUALS, Encode(pair.1));
  }

  lemma {:induction false} SplitSnoc(text: seq<byte>, last: seq<byte>, separator: byte)
    requires Without(last, separator)
    ensures Split(text + [separator] + last, separator) == Split(text, separator) + [last]
    decreases |text|
  {
    var end := IndexOf(text, separator);
    if end == |text| {
      IndexAfter(text, separator, last);
      assert IndexOf(last, separator) == |last|;
    } else {
      var rest := text[end + 1..];
      assert text + [separator] + last == text[..end] + [separator] + (rest + [separator] + last);
      IndexAfter(text[..end], separator, rest + [separator] + last);
      SplitSnoc(rest, last, separator);
    }
  }

  function PairTexts(pairs: seq<Pair>): seq<seq<byte>> {
    seq(|pairs|, k requires 0 <= k < |pairs| => PairText(pairs[k]))
  }

  lemma PairTextsSnoc(pairs: seq<Pair>)
    requires pairs != []
    ensures PairTexts(pairs) == PairTexts(pairs[..|pairs| - 1]) + [PairText(pairs[|pairs| - 1])]
  {
  }

  /** The fields of a serialized query are its pairs, whatever bytes the pairs hold. */
  lemma {:induction false} FieldsArePairs(pairs: seq<Pair>)
    requires pairs != []
    ensures Split(Serialize(pairs), AMPERSAND) == PairTexts(pairs)
    ensures Serialize(pairs) != []
    decreases |pairs|
  {
    hide PairText, PairTexts, Split;
    var n := |pairs| - 1;
    PairHasNoSeparator(pairs[n]);
    PairTextsSnoc(pairs);
    if n == 0 {
      NoSeparatorOneField(PairText(pairs[0]), AMPERSAND);
      assert Serialize(pairs[..0]) == [] && (pairs[0].0, pairs[0].1) == pairs[0];
      assert Serialize(pairs) == PairText(pairs[0]);
      assert PairTexts(pairs[..0]) == [] by { OnePair(pairs); }
    } else {
      FieldsArePairs(pairs[..n]);
      SplitSnoc(Serialize(pairs[..n]), PairText(pairs[n]), AMPERSAND);
    }
  }

  lemma OnePair(pairs: seq<Pair>)
    requires pairs != []
    ensures PairTexts(pairs[..0]) == []
  {
  }

  lemma NoSeparatorOneField(text: seq<byte>, separator: byte)
    requires Without(text, separator)
    ensures Split(text, separator) == [text]
  {
    assert IndexOf(text, separator) == |text|;
  }

  // ----- Artwork keys -----

  const MAX_OBJECT_ID_LENGTH: nat := 240

  datatype ArtworkId = NumericId(text: seq<byte>) | SmithsonianId(text: seq<byte>) | WikimediaId(text: seq<byte>)

  datatype ArtworkKey = ArtworkKey(source: SourceKind, id: ArtworkId)

  function SourceText(source: SourceKind): (r: seq<byte>) {
    match source
    case ArtInstituteChicago => Ascii("aic")
    case ClevelandMuseum => Ascii("cleveland")
    case MetropolitanMuseum => Ascii("met")
    case Smithsonian => Ascii("smithsonian")
    case WikimediaCommons => Ascii("wikimedia")
  }

  /** The first registered source with this key, from place k on. */
  function FindSource(text: seq<byte>, k: nat): Option<SourceKind>
    requires k <= |ALL|
    decreases |ALL| - k
  {
    if k == |ALL| then None else if SourceText(ALL[k]) == text then Some(ALL[k]) else FindSource(text, k + 1)
  }

  /** Control characters are U+0000 to U+001F, U+007F, and U+0080 to U+009F, which UTF-8 writes after C2. */
  predicate SafeAt(text: seq<byte>, k: nat)
    requires k < |text|
  {
    var b := text[k];
    && 32 <= b && b != 127 && !(b == 0xC2 && k + 1 < |text| && text[k + 1] < 0xA0)
    && b != 47 && b != 92 && b != 63 && b != 35 && b != AMPERSAND && b != EQUALS && b != PERCENT
  }

  function DigitsValue(digits: seq<byte>): nat
    requires forall k | 0 <= k < |digits| :: IsDigit(digits[k])
  {
    if digits == [] then 0
    else
      var before, last := digits[..|digits| - 1], digits[|digits| - 1];
      assert IsDigit(last);
      DigitsValue(before) * 10 + (last - 48) as nat
  }

  predicate IsPositiveDecimal(digits: seq<byte>) {
    && digits != []
    && (forall k | 0 <= k < |digits| :: IsDigit(digits[k]))
    && 0 < DigitsValue(digits) < 0x1_0000_0000_0000_0000
  }

  /** What the standard library reads as a positive 64-bit number: a plus sign is allowed in front. */
  predicate IsPositiveNumber(text: seq<byte>) {
    IsPositiveDecimal(if text != [] && text[0] == PLUS then text[1..] else text)
  }

  predicate IsSmithsonianId(text: seq<byte>) {
    var prefix := Ascii("edanmdm:");
    && prefix < text
    && var suffix := text[|prefix|..];
       && suffix != Ascii(".") && suffix != Ascii("..")
       && forall k | 0 <= k < |suffix| ::
            IsAlphanumeric(suffix[k]) || suffix[k] == 95 || suffix[k] == 45 || suffix[k] == 46
  }

  function ParseArtworkId(source: SourceKind, raw: seq<byte>): Result<ArtworkId, ArtworkKeyError> {
    if raw == [] || |raw| > MAX_OBJECT_ID_LENGTH || !(forall k | 0 <= k < |raw| :: SafeAt(raw, k)) then Err(MalformedId)
    else
      match source
      case Smithsonian => if IsSmithsonianId(raw) then Ok(SmithsonianId(raw)) else Err(MalformedId)
      case WikimediaCommons => Ok(WikimediaId(raw))
      case _ => if IsPositiveNumber(raw) then Ok(NumericId(raw)) else Err(MalformedId)
  }

  function TryFromParts(source: seq<byte>, id: seq<byte>): Result<ArtworkKey, ArtworkKeyError> {
    match FindSource(source, 0)
    case None => Err(UnknownSource)
    case Some(kind) =>
      var parsed :- ParseArtworkId(kind, id);
      Ok(ArtworkKey(kind, parsed))
  }

  /** The keys that exist: those some pair of texts is read as. */
  ghost predicate ValidKey(key: ArtworkKey) {
    exists source, id :: Utf8(id) && TryFromParts(source, id) == Ok(key)
  }

  // ----- The route query -----

  function RouteQuery(key: ArtworkKey): seq<byte> {
    AppendPair(AppendPair([], Ascii("source"), SourceText(key.source)), Ascii("id"), key.id.text)
  }

  datatype Slots = Slots(source: Option<seq<byte>>, id: Option<seq<byte>>)

  function TakeField(slots: Slots, field: seq<byte>): Result<Slots, ArtworkRouteError> {
    match SplitOnce(field, EQUALS)
    case None => Err(InvalidQuery)
    case Some((rawName, rawValue)) =>
      if rawName == [] then Err(InvalidQuery)
      else
        var name :- DecodeFormComponent(rawName);
        var value :- DecodeFormComponent(rawValue);
        if name == Ascii("source") && slots.source.None? then Ok(slots.(source := Some(value)))
        else if name == Ascii("id") && slots.id.None? then Ok(slots.(id := Some(value)))
        else if name == Ascii("source") || name == Ascii("id") then Err(DuplicateField)
        else Err(UnknownField)
  }

  function TakeFields(slots: Slots, fields: seq<seq<byte>>): Result<Slots, ArtworkRouteError>
    decreases |fields|
  {
    if fields == [] then Ok(slots)
    else
      var taken :- TakeField(slots, fields[0]);
      TakeFields(taken, fields[1..])
  }

  function KeyFromSlots(slots: Slots): Result<ArtworkKey, ArtworkRouteError> {
    if slots.source.None? || slots.id.None? then Err(InvalidQuery)
    else
      match TryFromParts(slots.source.value, slots.id.value)
      case Ok(key) => Ok(key)
      case Err(error) => Err(KeyError(error))
  }

  function ParseArtworkQuery(query: Option<seq<byte>>): Result<ArtworkKey, ArtworkRouteError> {
    if query.None? || query.value == [] then Err(InvalidQuery)
    else
      var slots :- TakeFields(Slots(None, None), Split(query.value, AMPERSAND));
      KeyFromSlots(slots)
  }

  method ParseQuery(query: Option<seq<byte>>) returns (r: Result<ArtworkKey, ArtworkRouteError>)
    ensures r == ParseArtworkQuery(query)
  {
    if query.None? || query.value == [] { return Err(InvalidQuery); }
    var source: Option<seq<byte>>, id: Option<seq<byte>> := None, None;
    var fields := Split(query.value, AMPERSAND);
    var k := 0;
    while k < |fields|
      invariant k <= |fields|
      invariant TakeFields(Slots(None, None), fields) == TakeFields(Slots(source, id), fields[k..])
    {
      var parts := SplitOnce(fields[k], EQUALS);
      if parts.None? || parts.value.0 == [] { return Err(InvalidQuery); }
      var name :- DecodeComponent(parts.value.0);
      var value :- DecodeComponent(parts.value.1);
      if name == Ascii("source") && source.None? {
        source := Some(value);
      } else if name == Ascii("id") && id.None? {
        id := Some(value);
      } else if name == Ascii("source") || name == Ascii("id") {
        return Err(DuplicateField);
      } else {
        return Err(UnknownField);
      }
      k := k + 1;
    }
    return KeyFromSlots(Slots(source, id));
  }

  // ----- The round trip -----

  lemma {:induction false} AsciiIsUtf8(text: seq<byte>, i: nat)
    requires i <= |text| && forall k | 0 <= k < |text| :: text[k] < 0x80
    ensures Utf8From(text, i)
    decreases |text| - i
  {
    if i < |text| {
      AsciiIsUtf8(text, i + 1);
    }
  }

  lemma EncodedDecodes(bytes: seq<byte>)
    requires Utf8(bytes)
    ensures DecodeFormComponent(Encode(bytes)) == Ok(bytes)
    ensures bytes != [] ==> Encode(bytes) != []
  {
    DecodeUndoesEncode(bytes);
  }

  lemma {:induction false} FoundSourceIsNamed(text: seq<byte>, k: nat)
    requires k <= |ALL|
    ensures FindSource(text, k).Some? ==> SourceText(FindSource(text, k).value) == text
    decreases |ALL| - k
  {
    if k < |ALL| {
      FoundSourceIsNamed(text, k + 1);
    }
  }

  /** A key keeps the very texts it was read from. */
  lemma KeyKeepsParts(source: seq<byte>, id: seq<byte>)
    ensures var key := TryFromParts(source, id);
            key.Ok? ==> SourceText(key.value.source) == source && key.value.id.text == id
  {
    FoundSourceIsNamed(source, 0);
  }

  lemma TakesPair(slots: Slots, pair: Pair)
    requires Utf8(pair.0) && Utf8(pair.1)
    requires (pair.0 == Ascii("source") && slots.source.None?) || (pair.0 == Ascii("id") && slots.id.None?)
    ensures TakeField(slots, PairText(pair)) ==
            Ok(if pair.0 == Ascii("source") then slots.(source := Some(pair.1)) else slots.(id := Some(pair.1)))
  {
    hide Utf8, Encode, DecodeFormComponent, PairText;
    PairHasNoSeparator(pair);
    EncodedDecodes(pair.0);
    EncodedDecodes(pair.1);
    assert |Ascii("source")| == 6 && |Ascii("id")| == 2;
  }

  lemma TakesBoth(source: seq<byte>, id: seq<byte>)
    requires Utf8(source) && Utf8(id)
    ensures TakeFields(Slots(None, None), [PairText((Ascii("source"), source)), PairText((Ascii("id"), id))]) ==
            Ok(Slots(Some(source), Some(id)))
  {
    var first, second := (Ascii("source"), source), (Ascii("id"), id);
    AsciiIsUtf8(first.0, 0);
    AsciiIsUtf8(second.0, 0);
    assert |first.0| == 6 && |second.0| == 2;
    hide Utf8, TakeField, PairText, Ascii;
    TakesPair(Slots(None, None), first);
    TakesPair(Slots(Some(source), None), second);
    var fields := [PairText(first), PairText(second)];
    assert fields[1..] == [PairText(second)] && fields[1..][1..] == [];
    assert TakeFields(Slots(Some(source), None), fields[1..]) == TakeFields(Slots(Some(source), Some(id)), []);
  }

  /** Reading the link a page writes for a valid key gives back that key. */
  lemma LinkReadsBack(key: ArtworkKey)
    requires ValidKey(key)
    ensures ParseArtworkQuery(Some(RouteQuery(key))) == Ok(key)
  {
    hide Utf8, TryFromParts, Split, SourceText, TakeFields, RouteQuery, PairText;
    var sourceText, id :| Utf8(id) && TryFromParts(sourceText, id) == Ok(key);
    KeyKeepsParts(sourceText, id);
    SourceTextIsUtf8(key.source);
    QueryHasTwoFields(key);
    TakesBoth(sourceText, id);
  }

  lemma SourceTextIsUtf8(source: SourceKind)
    ensures Utf8(SourceText(source))
  {
    AsciiIsUtf8(SourceText(source), 0);
  }

  lemma QueryHasTwoFields(key: ArtworkKey)
    ensures RouteQuery(key) != []
    ensures Split(RouteQuery(key), AMPERSAND) ==
            [PairText((Ascii("source"), SourceText(key.source))), PairText((Ascii("id"), key.id.text))]
  {
    hide PairText, Split, SourceText;
    var pairs := [(Ascii("source"), SourceText(key.source)), (Ascii("id"), key.id.text)];
    assert pairs[..1] == [pairs[0]] && pairs[..1][..0] == [];
    assert Serialize(pairs[..1]) == AppendPair([], pairs[0].0, pairs[0].1);
    assert Serialize(pairs) == RouteQuery(key);
    FieldsArePairs(pairs);
  }

  function Filled(slots: Slots): nat {
    (if slots.source.Some? then 1 else 0) + (if slots.id.Some? then 1 else 0)
  }

  ghost predicate SlotsAreText(slots: Slots) {
    && (slots.source.Some? ==> Utf8(slots.source.value))
    && (slots.id.Some? ==> Utf8(slots.id.value))
  }

  lemma {:induction false} EachFieldFillsOne(slots: Slots, fields: seq<seq<byte>>)
    requires SlotsAreText(slots)
    ensures var taken := TakeFields(slots, fields);
            taken.Ok? ==> Filled(taken.value) == Filled(slots) + |fields| && SlotsAreText(taken.value)
    decreases |fields|
  {
    hide Utf8;
    if fields != [] && TakeField(slots, fields[0]).Ok? {
      EachFieldFillsOne(TakeField(slots, fields[0]).value, fields[1..]);
    }
  }

  /** Any query that is read as a key has exactly two fields, and the key's own link is read the same. */
  lemma AcceptedQueries(query: seq<byte>, key: ArtworkKey)
    requires ParseArtworkQuery(Some(query)) == Ok(key)
    ensures |Split(query, AMPERSAND)| == 2
    ensures ValidKey(key) && ParseArtworkQuery(Some(RouteQuery(key))) == Ok(key)
  {
    hide Utf8, Split, TryFromParts, RouteQuery, TakeFields;
    EachFieldFillsOne(Slots(None, None), Split(query, AMPERSAND));
    var slots := TakeFields(Slots(None, None), Split(query, AMPERSAND)).value;
    assert TryFromParts(slots.source.value, slots.id.value) == Ok(key);
    LinkReadsBack(key);
  }

  /** What one field says, when it is a decodable name and value. */
  function FieldPair(field: seq<byte>): Option<Pair> {
    match SplitOnce(field, EQUALS)
    case None => None
    case Some((rawName, rawValue)) =>
      if rawName == [] || DecodeFormComponent(rawName).Err? || DecodeFormComponent(rawValue).Err? then None
      else Some((DecodeFormComponent(rawName).value, DecodeFormComponent(rawValue).value))
  }

  /** Two fields, one of each name in either order, whose values make the key. */
  predicate Names(one: Option<Pair>, other: Option<Pair>, key: ArtworkKey) {
    && one.Some? && other.Some?
    && one.value.0 == Ascii("source") && other.value.0 == Ascii("id")
    && TryFromParts(one.value.1, other.value.1) == Ok(key)
  }

  lemma TakesField(slots: Slots, field: seq<byte>)
    ensures TakeField(slots, field).Ok? <==>
            && FieldPair(field).Some?
            && var (name, _) := FieldPair(field).value;
               (name == Ascii("source") && slots.source.None?) || (name == Ascii("id") && slots.id.None?)
    ensures TakeField(slots, field).Ok? ==>
              var (name, value) := FieldPair(field).value;
              TakeField(slots, field).value ==
              if name == Ascii("source") then slots.(source := Some(value)) else slots.(id := Some(value))
  {
    assert |Ascii("source")| == 6 && |Ascii("id")| == 2;
  }

  lemma TakesTwoFields(fields: seq<seq<byte>>, key: ArtworkKey)
    requires |fields| == 2
    ensures (exists slots :: TakeFields(Slots(None, None), fields) == Ok(slots) && KeyFromSlots(slots) == Ok(key)) <==>
            Names(FieldPair(fields[0]), FieldPair(fields[1]), key) ||
            Names(FieldPair(fields[1]), FieldPair(fields[0]), key)
  {
    hide TakeField, FieldPair, TryFromParts, Ascii;
    SourceIsNotId();
    TakesField(Slots(None, None), fields[0]);
    assert fields[1..] == [fields[1]];
    var first := TakeField(Slots(None, None), fields[0]);
    if first.Ok? {
      TakesField(first.value, fields[1]);
      assert TakeFields(first.value, fields[1..]) ==
             match TakeField(first.value, fields[1]) case Ok(slots) => Ok(slots) case Err(error) => Err(error);
    }
  }

  lemma SourceIsNotId()
    ensures Ascii("source") != Ascii("id")
  {
    assert |Ascii("source")| == 6 && |Ascii("id")| == 2;
  }

  /** A query is read as a key exactly when it has one source field and one id field that make it. */
  lemma ReadsExactly(query: seq<byte>, key: ArtworkKey)
    ensures ParseArtworkQuery(Some(query)) == Ok(key) <==>
            && query != []
            && var fields := Split(query, AMPERSAND);
               && |fields| == 2
               && (Names(FieldPair(fields[0]), FieldPair(fields[1]), key)
                   || Names(FieldPair(fields[1]), FieldPair(fields[0]), key))
  {
    hide Split, TakeFields, FieldPair, Names, TryFromParts;
    var fields := Split(query, AMPERSAND);
    EachFieldFillsOne(Slots(None, None), fields);
    if |fields| == 2 {
      TakesTwoFields(fields, key);
    }
  }
}
