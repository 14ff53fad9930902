/**
 Which texts name an artwork: a source's key and an identity of that source's kind, told by the
 characters of the identity rather than by its bytes.
 */
module ArtworkIds {
  import opened Wrappers
  import opened Bytes
  import opened Search
  import opened FormCodec
  import opened FormAnswers
  import opened Utf8Scalars

  /** Neither a control character nor one that separates the parts of a path or a query. */
  predicate SafeScalar(value: int) {
    value >= 0x20 && !(0x7F <= value < 0xA0) && value !in {0x2F, 0x5C, 0x3F, 0x23, 0x26, 0x3D, 0x25}
  }

  ghost predicate AllSafe(text: seq<byte>) {
    forall k | 0 <= k < |text| :: SafeAt(text, k)
  }

  lemma ScalarIsSafe(value: int, rest: seq<byte>)
    requires IsScalar(value)
    ensures var first := EncodeScalar(value);
            (forall k | 0 <= k < |first| :: SafeAt(first + rest, k)) <==> SafeScalar(value)
  {
    var first := EncodeScalar(value);
    var text := first + rest;
    assert forall k | 0 <= k < |first| :: text[k] == first[k];
    if SafeScalar(value) {
      forall k | 0 <= k < |first| ensures SafeAt(text, k) {
      }
    } else {
      assert !SafeAt(text, 0);
    }
  }

  /** The bytes of a text are safe exactly when its characters are. */
  lemma {:induction false} SafeExactly(values: seq<int>)
    requires forall k | 0 <= k < |values| :: IsScalar(values[k])
    ensures AllSafe(EncodeAll(values)) <==> forall k | 0 <= k < |values| :: SafeScalar(values[k])
  {
    hide IsScalar, SafeAt, SafeScalar, EncodeScalar;
    if values != [] {
      var first, rest := EncodeScalar(values[0]), EncodeAll(values[1..]);
      var text := first + rest;
      SafeExactly(values[1..]);
      ScalarIsSafe(values[0], rest);
      forall k | 0 <= k < |rest| ensures SafeAt(text, |first| + k) <==> SafeAt(rest, k) {
        SafeBehind(first, rest, k);
      }
      if AllSafe(text) {
        forall k | 0 <= k < |rest| ensures SafeAt(rest, k) {
          assert SafeAt(text, |first| + k);
        }
      }
      if AllSafe(rest) && SafeScalar(values[0]) {
        forall k | 0 <= k < |text| ensures SafeAt(text, k) {
          if k >= |first| {
            assert SafeAt(rest, k - |first|);
          }
        }
      }
      if forall k | 0 <= k < |values| :: SafeScalar(values[k]) {
        assert SafeScalar(values[0]);
      }
      assert forall k | 0 < k < |values| :: values[1..][k - 1] == values[k];
    }
  }

  lemma SafeBehind(first: seq<byte>, rest: seq<byte>, k: nat)
    requires k < |rest|
    ensures SafeAt(first + rest, |first| + k) <==> SafeAt(rest, k)
  {
    assert (first + rest)[|first| + k] == rest[k];
    if k + 1 < |rest| {
      assert (first + rest)[|first| + k + 1] == rest[k + 1];
    }
  }

  // ----- Kinds of identity -----

  /** Decimal digits, not all of them nought, below two to the sixty-fourth. */
  ghost predicate PositiveDigits(digits: seq<byte>) {
    && (forall k | 0 <= k < |digits| :: 48 <= digits[k] <= 57)
    && (exists k :: 0 <= k < |digits| && digits[k] != 48)
    && DigitsValue(digits) <= 0xFFFF_FFFF_FFFF_FFFF
  }

  /** A plus sign may stand in front. */
  ghost predicate IsNumber(id: seq<byte>) {
    PositiveDigits(id) || (id != [] && id[0] == 43 && PositiveDigits(id[1..]))
  }

  /** The fixed prefix and a file name of letters, digits, underscores, hyphens and dots. */
  ghost predicate IsEdanId(id: seq<byte>) {
    exists name: seq<byte> ::
      && id == Ascii("edanmdm:") + name && name != [] && name != [46] && name != [46, 46]
      && forall k | 0 <= k < |name| ::
           48 <= name[k] <= 57 || 65 <= name[k] <= 90 || 97 <= name[k] <= 122 || name[k] in {95, 45, 46}
  }

  ghost predicate FitsSource(source: SourceKind, id: seq<byte>) {
    match source
    case Smithsonian => IsEdanId(id)
    case WikimediaCommons => true
    case _ => IsNumber(id)
  }

  lemma {:induction false} PositiveExactly(digits: seq<byte>)
    requires forall k | 0 <= k < |digits| :: IsDigit(digits[k])
    ensures DigitsValue(digits) > 0 <==> exists k :: 0 <= k < |digits| && digits[k] != 48
  {
    if digits != [] {
      var before, last := digits[..|digits| - 1], digits[|digits| - 1];
      assert IsDigit(last);
      PositiveExactly(before);
      if exists k :: 0 <= k < |digits| && digits[k] != 48 {
        var k :| 0 <= k < |digits| && digits[k] != 48;
        assert k < |before| ==> before[k] != 48;
      }
    }
  }

  lemma DigitsExactly(digits: seq<byte>)
    ensures PositiveDigits(digits) <==> IsPositiveDecimal(digits)
  {
    if forall k | 0 <= k < |digits| :: IsDigit(digits[k]) {
      PositiveExactly(digits);
    }
  }

  lemma NumberExactly(id: seq<byte>)
    ensures IsPositiveNumber(id) <==> IsNumber(id)
  {
    DigitsExactly(id);
    if id != [] && id[0] == PLUS {
      DigitsExactly(id[1..]);
      assert !IsDigit(id[0]);
    }
    hide PositiveDigits, IsPositiveDecimal;
  }

  lemma EdanExactly(id: seq<byte>)
    ensures IsSmithsonianId(id) <==> IsEdanId(id)
  {
    var prefix := Ascii("edanmdm:");
    assert Ascii(".") == [46] && Ascii("..") == [46, 46];
    if IsSmithsonianId(id) {
      var name := id[|prefix|..];
      assert id == prefix + name;
      assert forall k | 0 <= k < |name| :: IsAlphanumeric(name[k]) || name[k] in {95, 45, 46};
    }
    if IsEdanId(id) {
      var name: seq<byte> :|
        && id == prefix + name && name != [] && name != [46] && name != [46, 46]
        && forall k | 0 <= k < |name| ::
             48 <= name[k] <= 57 || 65 <= name[k] <= 90 || 97 <= name[k] <= 122 || name[k] in {95, 45, 46};
      assert id[|prefix|..] == name;
    }
  }

  lemma SourceTextsDiffer(one: SourceKind, other: SourceKind)
    requires SourceText(one) == SourceText(other)
    ensures one == other
  {
    assert SourceText(one)[0] == SourceText(other)[0];
    assert |SourceText(one)| == |SourceText(other)|;
  }

  lemma KindIsFound(source: SourceKind)
    ensures FindSource(SourceText(source), 0) == Some(source)
  {
    hide SourceText;
    FoundSourceIsNamed(SourceText(source), 0);
    if FindSource(SourceText(source), 0).None? {
      MissedSourceIsNone(SourceText(source), 0);
      var k := AnySourceIsRegistered(source);
      assert false;
    }
    SourceTextsDiffer(FindSource(SourceText(source), 0).value, source);
  }

  /** The identity of a source's own kind that keeps this text. */
  function IdOfKind(source: SourceKind, id: seq<byte>): ArtworkId {
    if source.Smithsonian? then SmithsonianId(id)
    else if source.WikimediaCommons? then WikimediaId(id)
    else NumericId(id)
  }

  lemma IdsParseExactly(kind: SourceKind, id: seq<byte>)
    requires IsPositiveNumber(id) <==> IsNumber(id)
    requires IsSmithsonianId(id) <==> IsEdanId(id)
    ensures ParseArtworkId(kind, id) ==
            if 1 <= |id| <= 240 && AllSafe(id) && FitsSource(kind, id) then Ok(IdOfKind(kind, id))
            else Err(MalformedId)
  {
    hide SafeAt, IsPositiveNumber, IsNumber, IsSmithsonianId, IsEdanId;
  }

  lemma KeyFollowsId(source: seq<byte>, kind: SourceKind, id: seq<byte>)
    requires FindSource(source, 0) == Some(kind)
    ensures TryFromParts(source, id) ==
            match ParseArtworkId(kind, id)
            case Ok(parsed) => Ok(ArtworkKey(kind, parsed))
            case Err(error) => Err(error)
  {
    hide FindSource, ParseArtworkId;
  }

  /**
   Behind a source's name a text is read as an identity exactly when it has one to 240 bytes, safe
   characters only and the form of that source's identities; the key keeps it as it is.
   */
  lemma KeysReadExactly(kind: SourceKind, values: seq<int>)
    requires forall k | 0 <= k < |values| :: IsScalar(values[k])
    ensures var id := EncodeAll(values);
            TryFromParts(SourceText(kind), id) ==
            if 1 <= |id| <= 240 && (forall k | 0 <= k < |values| :: SafeScalar(values[k])) && FitsSource(kind, id)
            then Ok(ArtworkKey(kind, IdOfKind(kind, id)))
            else Err(MalformedId)
  {
    var id := EncodeAll(values);
    KindIsFound(kind);
    SafeExactly(values);
    NumberExactly(id);
    EdanExactly(id);
    hide *;
    IdsParseExactly(kind, id);
    KeyFollowsId(SourceText(kind), kind, id);
  }
}
