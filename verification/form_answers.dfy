/**
 What reading a link query answers: form decoding as the grammar of its pieces, when a source
 is unknown, and for a refused query the first field at fault.
 */
module FormAnswers {
  import opened Wrappers
  import opened Bytes
  import opened Search
  import opened FormCodec

  // ----- Decoding, by its grammar -----

  /** A plus sign, an escape with two hexadecimal digits, or any other byte. */
  datatype Piece = Plus | Escape(high: byte, low: byte) | Literal(value: byte)

  predicate IsHex(b: byte) {
    48 <= b <= 57 || 65 <= b <= 70 || 97 <= b <= 102
  }

  function HexOf(b: byte): nat
    requires IsHex(b)
  {
    if b <= 57 then b as nat - 48 else if b <= 70 then b as nat - 55 else b as nat - 87
  }

  predicate Proper(piece: Piece) {
    match piece
    case Plus => true
    case Escape(high, low) => IsHex(high) && IsHex(low)
    case Literal(value) => value != PLUS && value != PERCENT
  }

  predicate AllProper(pieces: seq<Piece>) {
    forall k | 0 <= k < |pieces| :: Proper(pieces[k])
  }

  function Raw(piece: Piece): seq<byte> {
    match piece
    case Plus => [PLUS]
    case Escape(high, low) => [PERCENT, high, low]
    case Literal(value) => [value]
  }

  function Meaning(piece: Piece): byte
    requires Proper(piece)
  {
    match piece
    case Plus => SPACE
    case Escape(high, low) => (HexOf(high) * 16 + HexOf(low)) as byte
    case Literal(value) => value
  }

  function Written(pieces: seq<Piece>): seq<byte> {
    if pieces == [] then [] else Raw(pieces[0]) + Written(pieces[1..])
  }

  function Meant(pieces: seq<Piece>): seq<byte>
    requires AllProper(pieces)
  {
    if pieces == [] then [] else [Meaning(pieces[0])] + Meant(pieces[1..])
  }

  lemma {:induction false} WrittenDecodes(pieces: seq<Piece>)
    requires AllProper(pieces)
    ensures DecodeBytes(Written(pieces)) == Some(Meant(pieces))
  {
    if pieces != [] {
      WrittenDecodes(pieces[1..]);
      var raw, rest := Written(pieces), Written(pieces[1..]);
      assert pieces[0].Escape? ==> raw[3..] == rest;
      assert !pieces[0].Escape? ==> raw[1..] == rest;
    }
  }

  lemma FirstPiece(raw: seq<byte>) returns (first: Piece)
    requires raw != [] && DecodeBytes(raw).Some?
    ensures Proper(first) && |Raw(first)| <= |raw| && raw == Raw(first) + raw[|Raw(first)|..]
    ensures DecodeBytes(raw[|Raw(first)|..]).Some?
    ensures DecodeBytes(raw).value == [Meaning(first)] + DecodeBytes(raw[|Raw(first)|..]).value
  {
    first := if raw[0] == PLUS then Plus else if raw[0] == PERCENT then Escape(raw[1], raw[2]) else Literal(raw[0]);
  }

  lemma PiecesCons(first: Piece, rest: seq<Piece>)
    requires Proper(first) && AllProper(rest)
    ensures AllProper([first] + rest)
    ensures Written([first] + rest) == Raw(first) + Written(rest)
    ensures Meant([first] + rest) == [Meaning(first)] + Meant(rest)
  {
    assert ([first] + rest)[1..] == rest;
  }

  lemma {:induction false} DecodedIsWritten(raw: seq<byte>) returns (pieces: seq<Piece>)
    requires DecodeBytes(raw).Some?
    ensures AllProper(pieces) && Written(pieces) == raw && Meant(pieces) == DecodeBytes(raw).value
  {
    pieces := [];
    if raw != [] {
      hide DecodeBytes, Proper, AllProper, Written, Meant, Meaning;
      var first := FirstPiece(raw);
      RawIsNotEmpty(first);
      var rest := DecodedIsWritten(raw[|Raw(first)|..]);
      PiecesCons(first, rest);
      pieces := [first] + rest;
    }
  }

  lemma RawIsNotEmpty(piece: Piece)
    ensures Raw(piece) != []
  {
  }

  /** Bytes are decoded exactly when they are a run of proper pieces, to what those mean. */
  lemma DecodesExactly(raw: seq<byte>, bytes: seq<byte>)
    ensures DecodeBytes(raw) == Some(bytes) <==>
            exists pieces :: AllProper(pieces) && Written(pieces) == raw && Meant(pieces) == bytes
  {
    if DecodeBytes(raw) == Some(bytes) {
      var pieces := DecodedIsWritten(raw);
    }
    if exists pieces :: AllProper(pieces) && Written(pieces) == raw && Meant(pieces) == bytes {
      var pieces :| AllProper(pieces) && Written(pieces) == raw && Meant(pieces) == bytes;
      WrittenDecodes(pieces);
    }
  }

  // ----- Keys -----

  lemma {:induction false} MissedSourceIsNone(text: seq<byte>, k: nat)
    requires k <= |ALL| && FindSource(text, k).None?
    ensures forall j | k <= j < |ALL| :: SourceText(ALL[j]) != text
    decreases |ALL| - k
  {
    hide SourceText;
    if k < |ALL| {
      MissedSourceIsNone(text, k + 1);
    }
  }

  /** Only a text that names none of the sources is an unknown one. */
  lemma UnknownSourceExactly(source: seq<byte>, id: seq<byte>)
    ensures TryFromParts(source, id) == Err(UnknownSource) <==> forall kind :: SourceText(kind) != source
  {
    hide SourceText;
    FoundSourceIsNamed(source, 0);
    if FindSource(source, 0).None? {
      MissedSourceIsNone(source, 0);
      forall kind ensures SourceText(kind) != source {
        var k := AnySourceIsRegistered(kind);
      }
    }
  }

  // ----- What a refusal says -----

  /** The field is a decodable pair with this name. */
  predicate HasName(field: seq<byte>, name: seq<byte>) {
    FieldPair(field).Some? && FieldPair(field).value.0 == name
  }

  ghost predicate NamedBefore(fields: seq<seq<byte>>, k: nat, name: seq<byte>)
    requires k <= |fields|
  {
    exists j :: 0 <= j < k && HasName(fields[j], name)
  }

  ghost predicate InOrder(fields: seq<seq<byte>>, k: nat)
    requires k < |fields|
  {
    || (HasName(fields[k], Ascii("source")) && !NamedBefore(fields, k, Ascii("source")))
    || (HasName(fields[k], Ascii("id")) && !NamedBefore(fields, k, Ascii("id")))
  }

  /** Field k is the first out of order, for the reason given. */
  ghost predicate FieldFault(fields: seq<seq<byte>>, k: nat, error: ArtworkRouteError) {
    && k < |fields| && (forall j | 0 <= j < k :: InOrder(fields, j))
    && match error
       case InvalidQuery => FieldPair(fields[k]).None?
       case DuplicateField =>
         || (HasName(fields[k], Ascii("source")) && NamedBefore(fields, k, Ascii("source")))
         || (HasName(fields[k], Ascii("id")) && NamedBefore(fields, k, Ascii("id")))
       case UnknownField =>
         && FieldPair(fields[k]).Some?
         && !HasName(fields[k], Ascii("source")) && !HasName(fields[k], Ascii("id"))
       case KeyError(_) => false
  }

  /** A slot is filled exactly when some field so far had its name. */
  ghost predicate SlotsTell(fields: seq<seq<byte>>, k: nat, slots: Slots)
    requires k <= |fields|
  {
    && (slots.source.Some? <==> NamedBefore(fields, k, Ascii("source")))
    && (slots.id.Some? <==> NamedBefore(fields, k, Ascii("id")))
  }

  lemma FieldBlamed(fields: seq<seq<byte>>, k: nat, slots: Slots)
    requires k < |fields| && SlotsTell(fields, k, slots) && forall j | 0 <= j < k :: InOrder(fields, j)
    ensures var taken := TakeField(slots, fields[k]);
            match taken
            case Ok(more) => InOrder(fields, k) && SlotsTell(fields, k + 1, more)
            case Err(error) => FieldFault(fields, k, error)
  {
    SourceIsNotId();
    TakesField(slots, fields[k]);
    hide Ascii, DecodeFormComponent, SplitOnce, NamedBefore;
    NamedNext(fields, k, Ascii("source"));
    NamedNext(fields, k, Ascii("id"));
  }

  lemma NamedNext(fields: seq<seq<byte>>, k: nat, name: seq<byte>)
    requires k < |fields|
    ensures NamedBefore(fields, k + 1, name) <==> NamedBefore(fields, k, name) || HasName(fields[k], name)
  {
  }

  lemma {:induction false} FieldsBlamed(fields: seq<seq<byte>>, k: nat, slots: Slots) returns (at: nat)
    requires k <= |fields| && SlotsTell(fields, k, slots) && forall j | 0 <= j < k :: InOrder(fields, j)
    ensures match TakeFields(slots, fields[k..])
            case Err(error) => FieldFault(fields, at, error)
            case Ok(more) => SlotsTell(fields, |fields|, more) && forall j | 0 <= j < |fields| :: InOrder(fields, j)
    decreases |fields| - k
  {
    hide TakeField, SlotsTell, InOrder, FieldFault;
    at := k;
    if k < |fields| {
      FieldBlamed(fields, k, slots);
      var taken := TakeField(slots, fields[k]);
      if taken.Ok? {
        assert fields[k..][1..] == fields[k + 1..];
        at := FieldsBlamed(fields, k + 1, taken.value);
      }
    }
  }

  /**
   A refused query is empty, or has a first field at fault, or lacks one of the two fields, or names
   something that is no key.
   */
  lemma RefusalIsTrue(query: seq<byte>)
    requires ParseArtworkQuery(Some(query)).Err?
    ensures var error, fields := ParseArtworkQuery(Some(query)).error, Split(query, AMPERSAND);
            || (query == [] && error == InvalidQuery)
            || (exists k :: FieldFault(fields, k, error))
            || (&& (forall j | 0 <= j < |fields| :: InOrder(fields, j))
                && if error.KeyError? then exists source, id :: TryFromParts(source, id) == Err(error.error)
                   else && error == InvalidQuery
                        && (!NamedBefore(fields, |fields|, Ascii("source")) ||
                            !NamedBefore(fields, |fields|, Ascii("id"))))
  {
    if query != [] {
      hide Split, TakeField, InOrder, FieldFault, TryFromParts, Ascii;
      var fields := Split(query, AMPERSAND);
      assert fields[0..] == fields;
      assert SlotsTell(fields, 0, Slots(None, None));
      var at := FieldsBlamed(fields, 0, Slots(None, None));
    }
  }
}
