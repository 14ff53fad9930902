/**
 Card and ability identities: sixteen bytes, printed as lower-case UUID text and parsed
 from either a bare run of 32 hex digits or the hyphenated 8-4-4-4-12 shape.
 */
module EntityIds {
  import opened Bytes
  import opened Wrappers

  type EntityId = bytes: seq<byte> | |bytes| == 16
    witness [0, 0, 0, 0, 0, 0, 0, 0, 0, 0, 0, 0, 0, 0, 0, 0]

  function HexDigit(value: nat): (digit: char)
    requires value < 16
    ensures HexValue(digit) == Some(value) && digit != '-'
  {
    if value < 10 then '0' + value as char else 'a' + (value - 10) as char
  }

  /** The value of an ASCII hex digit of either case. */
  function HexValue(digit: char): (r: Option<nat>)
    ensures r.Some? ==> r.value < 16
  {
    if '0' <= digit <= '9' then Some((digit - '0') as nat)
    else if 'a' <= digit <= 'f' then Some((digit - 'a') as nat + 10)
    else if 'A' <= digit <= 'F' then Some((digit - 'A') as nat + 10)
    else None
  }

  /** Two lower-case digits for each byte, most significant digit first. */
  function HexDigits(bytes: seq<byte>): (digits: string)
    ensures |digits| == 2 * |bytes|
  {
    if bytes == [] then []
    else [HexDigit(bytes[0] as nat / 16), HexDigit(bytes[0] as nat % 16)] + HexDigits(bytes[1..])
  }

  /** Digit 2k and the one behind it are the high and the low half of byte k. */
  lemma {:induction false} DigitsOfByte(bytes: seq<byte>, k: nat)
    requires k < |bytes|
    ensures HexDigits(bytes)[2 * k] == "0123456789abcdef"[bytes[k] as int / 16]
    ensures HexDigits(bytes)[2 * k + 1] == "0123456789abcdef"[bytes[k] as int % 16]
  {
    if k > 0 {
      DigitsOfByte(bytes[1..], k - 1);
      var digits := HexDigits(bytes[1..]);
      assert HexDigits(bytes)[2..] == digits;
      assert HexDigits(bytes)[2 * k] == digits[2 * (k - 1)] && HexDigits(bytes)[2 * k + 1] == digits[2 * (k - 1) + 1];
    }
  }

  /** The canonical UUID shape of a run of digits. */
  function Hyphenated(digits: string): string
    requires |digits| == 32
  {
    digits[..8] + "-" + digits[8..12] + "-" + digits[12..16] + "-" + digits[16..20] + "-" + digits[20..]
  }

  function Display(id: EntityId): string {
    Hyphenated(HexDigits(id))
  }

  function WithoutHyphens(text: string): (r: string)
    ensures |r| <= |text|
  {
    if text == [] then []
    else if text[0] == '-' then WithoutHyphens(text[1..])
    else [text[0]] + WithoutHyphens(text[1..])
  }

  predicate HasCanonicalHyphens(text: string)
    requires |text| == 36
  {
    text[8] == '-' && text[13] == '-' && text[18] == '-' && text[23] == '-'
  }

  predicate AllHexDigits(text: string) {
    forall k | 0 <= k < |text| :: HexValue(text[k]).Some?
  }

  /** The hex run an accepted spelling carries, before its digits are read. */
  function HexRun(text: string): Option<string> {
    if |text| == 32 then Some(text)
    else if |text| == 36 && HasCanonicalHyphens(text) then Some(WithoutHyphens(text))
    else None
  }

  function ReadBytes(digits: string): (bytes: seq<byte>)
    requires |digits| % 2 == 0 && AllHexDigits(digits)
    ensures 2 * |bytes| == |digits|
  {
    if digits == [] then []
    else
      var high, low := HexValue(digits[0]).value, HexValue(digits[1]).value;
      [(high * 16 + low) as byte] + ReadBytes(digits[2..])
  }

  function Parse(text: string): Option<EntityId> {
    var run := HexRun(text);
    if run.Some? && |run.value| == 32 && AllHexDigits(run.value) then Some(ReadBytes(run.value)) else None
  }

  /** The parser's canonical-text rule: the text is what its own identity prints as. */
  predicate IsCanonical(text: string) {
    var id := Parse(text);
    id.Some? && Display(id.value) == text
  }

  // ----- Printing and parsing undo each other -----

  lemma {:induction false} HexDigitsAreHex(bytes: seq<byte>)
    ensures AllHexDigits(HexDigits(bytes))
    ensures '-' !in HexDigits(bytes)
  {
    if bytes != [] {
      HexDigitsAreHex(bytes[1..]);
    }
  }

  lemma {:induction false} ReadBytesUndoesHexDigits(bytes: seq<byte>)
    requires AllHexDigits(HexDigits(bytes))
    ensures ReadBytes(HexDigits(bytes)) == bytes
  {
    if bytes != [] {
      var digits := HexDigits(bytes);
      assert digits[2..] == HexDigits(bytes[1..]);
      HexDigitsAreHex(bytes[1..]);
      ReadBytesUndoesHexDigits(bytes[1..]);
      assert ReadBytes(digits)[0] == bytes[0];
      assert ReadBytes(digits) == [bytes[0]] + bytes[1..];
    }
  }

  lemma {:induction false} WithoutHyphensKeeps(text: string)
    requires '-' !in text
    ensures WithoutHyphens(text) == text
  {
    if text != [] {
      WithoutHyphensKeeps(text[1..]);
    }
  }

  lemma {:induction false} WithoutHyphensAppend(left: string, right: string)
    ensures WithoutHyphens(left + right) == WithoutHyphens(left) + WithoutHyphens(right)
  {
    if left == [] {
      assert left + right == right;
    } else {
      assert (left + right)[1..] == left[1..] + right;
      WithoutHyphensAppend(left[1..], right);
    }
  }

  lemma WithoutHyphensPart(left: string, part: string, right: string)
    requires '-' !in part
    ensures WithoutHyphens(left + "-" + part + right) == WithoutHyphens(left) + part + WithoutHyphens(right)
  {
    WithoutHyphensAppend(left + "-" + part, right);
    WithoutHyphensAppend(left + "-", part);
    WithoutHyphensAppend(left, "-");
    WithoutHyphensKeeps(part);
    assert WithoutHyphens("-") == "";
  }

  lemma HyphenatedRun(digits: string)
    requires |digits| == 32 && '-' !in digits
    ensures |Hyphenated(digits)| == 36 && HasCanonicalHyphens(Hyphenated(digits))
    ensures WithoutHyphens(Hyphenated(digits)) == digits
  {
    var one := digits[..8];
    var two := one + "-" + digits[8..12];
    var three := two + "-" + digits[12..16];
    var four := three + "-" + digits[16..20];
    WithoutHyphensKeeps(one);
    WithoutHyphensPart(one, digits[8..12], "");
    assert two + "" == two;
    WithoutHyphensPart(two, digits[12..16], "");
    assert three + "" == three;
    WithoutHyphensPart(three, digits[16..20], "");
    assert four + "" == four;
    WithoutHyphensPart(four, digits[20..], "");
    assert Hyphenated(digits) == four + "-" + digits[20..] + "";
    assert digits == digits[..8] + digits[8..12] + digits[12..16] + digits[16..20] + digits[20..];
  }

  lemma DisplayedRun(id: EntityId)
    ensures |Display(id)| == 36 && HasCanonicalHyphens(Display(id))
    ensures WithoutHyphens(Display(id)) == HexDigits(id)
  {
    HexDigitsAreHex(id);
    HyphenatedRun(HexDigits(id));
  }

  /** Every identity survives the wire: its printed text parses back to it. */
  lemma ParseUndoesDisplay(id: EntityId)
    ensures Parse(Display(id)) == Some(id)
    ensures IsCanonical(Display(id))
  {
    DisplayedRun(id);
    HexDigitsAreHex(id);
    ReadBytesUndoesHexDigits(id);
  }

  // ----- How many spellings one identity has -----

  function LowerHex(digits: string): (r: string)
    requires AllHexDigits(digits)
    ensures |r| == |digits|
  {
    seq(|digits|, k requires 0 <= k < |digits| => HexDigit(HexValue(digits[k]).value))
  }

  lemma PairDecidesDigits(left: string, right: string)
    requires |left| == |right| == 2 && AllHexDigits(left) && AllHexDigits(right)
    ensures ReadBytes(left)[0] == ReadBytes(right)[0] <==> LowerHex(left) == LowerHex(right)
  {
    var a, b := HexValue(left[0]).value, HexValue(left[1]).value;
    var c, d := HexValue(right[0]).value, HexValue(right[1]).value;
    assert a * 16 + b == c * 16 + d <==> a == c && b == d;
    assert LowerHex(left)[0] == HexDigit(a) && LowerHex(left)[1] == HexDigit(b);
    assert LowerHex(right)[0] == HexDigit(c) && LowerHex(right)[1] == HexDigit(d);
  }

  lemma {:induction false} ReadBytesDecidesDigits(left: string, right: string)
    requires |left| == |right| && |left| % 2 == 0 && AllHexDigits(left) && AllHexDigits(right)
    ensures ReadBytes(left) == ReadBytes(right) <==> LowerHex(left) == LowerHex(right)
  {
    if left != [] {
      ReadBytesDecidesDigits(left[2..], right[2..]);
      PairDecidesDigits(left[..2], right[..2]);
      ReadBytesFirst(left);
      ReadBytesFirst(right);
    }
  }

  lemma ReadBytesFirst(digits: string)
    requires |digits| % 2 == 0 && |digits| > 0 && AllHexDigits(digits)
    ensures ReadBytes(digits)[0] == ReadBytes(digits[..2])[0] && ReadBytes(digits)[1..] == ReadBytes(digits[2..])
    ensures LowerHex(digits)[..2] == LowerHex(digits[..2]) && LowerHex(digits)[2..] == LowerHex(digits[2..])
    ensures ReadBytes(digits) == [ReadBytes(digits)[0]] + ReadBytes(digits)[1..]
    ensures LowerHex(digits) == LowerHex(digits)[..2] + LowerHex(digits)[2..]
  {
    FirstByte(digits);
    LowerHexSplits(digits);
  }

  lemma FirstByte(digits: string)
    requires |digits| % 2 == 0 && |digits| > 0 && AllHexDigits(digits)
    ensures ReadBytes(digits)[0] == ReadBytes(digits[..2])[0] && ReadBytes(digits)[1..] == ReadBytes(digits[2..])
  {
  }

  lemma LowerHexSplits(digits: string)
    requires |digits| >= 2 && AllHexDigits(digits)
    ensures LowerHex(digits)[..2] == LowerHex(digits[..2]) && LowerHex(digits)[2..] == LowerHex(digits[2..])
  {
  }

  /** Two accepted texts name the same identity exactly when their digit runs agree up to case. */
  lemma SpellingsOfOneIdentity(left: string, right: string)
    requires Parse(left).Some? && Parse(right).Some?
    ensures Parse(left) == Parse(right) <==> LowerHex(HexRun(left).value) == LowerHex(HexRun(right).value)
  {
    ReadBytesDecidesDigits(HexRun(left).value, HexRun(right).value);
  }

  // ----- When an identity has only the two promised spellings -----

  lemma {:induction false} WithoutHyphensSameLength(text: string)
    ensures |WithoutHyphens(text)| == |text| ==> WithoutHyphens(text) == text
  {
    if text != [] {
      WithoutHyphensSameLength(text[1..]);
    }
  }

  /** Four hyphens in the canonical places are all of them when 32 other characters are left. */
  lemma HyphenatedTextIsItsRun(text: string)
    requires |text| == 36 && HasCanonicalHyphens(text) && |WithoutHyphens(text)| == 32
    ensures text == Hyphenated(WithoutHyphens(text))
  {
    var one, two, three, four, five := text[..8], text[9..13], text[14..18], text[19..23], text[24..];
    hide WithoutHyphens, Hyphenated;
    CutAtHyphens(text);
    HyphenParts(one, two, three, four, five);
    WithoutHyphensSameLength(one);
    WithoutHyphensSameLength(two);
    WithoutHyphensSameLength(three);
    WithoutHyphensSameLength(four);
    WithoutHyphensSameLength(five);
    PartsOfRun(one, two, three, four, five);
  }

  lemma PartsOfRun(one: string, two: string, three: string, four: string, five: string)
    requires |one| == 8 && |two| == |three| == |four| == 4 && |five| == 12
    ensures Hyphenated(one + two + three + four + five) ==
            one + "-" + two + "-" + three + "-" + four + "-" + five
  {
    var run := one + two + three + four + five;
    assert run[..8] == one && run[8..12] == two && run[12..16] == three && run[16..20] == four && run[20..] == five;
  }

  lemma CutAtHyphens(text: string)
    requires |text| == 36 && HasCanonicalHyphens(text)
    ensures text == text[..8] + "-" + text[9..13] + "-" + text[14..18] + "-" + text[19..23] + "-" + text[24..]
  {
    assert text[..9] == text[..8] + "-";
    assert text[..14] == text[..9] + text[9..13] + "-";
    assert text[..19] == text[..14] + text[14..18] + "-";
    assert text[..24] == text[..19] + text[19..23] + "-";
    assert text == text[..24] + text[24..];
  }

  lemma HyphenParts(one: string, two: string, three: string, four: string, five: string)
    ensures WithoutHyphens(one + "-" + two + "-" + three + "-" + four + "-" + five) ==
            WithoutHyphens(one) + WithoutHyphens(two) + WithoutHyphens(three) + WithoutHyphens(four) +
            WithoutHyphens(five)
  {
    hide WithoutHyphens;
    var first := one + "-" + two;
    var second := first + "-" + three;
    var third := second + "-" + four;
    WithoutHyphensBetween(one, two);
    WithoutHyphensBetween(first, three);
    WithoutHyphensBetween(second, four);
    WithoutHyphensBetween(third, five);
  }

  lemma WithoutHyphensBetween(left: string, right: string)
    ensures WithoutHyphens(left + "-" + right) == WithoutHyphens(left) + WithoutHyphens(right)
  {
    WithoutHyphensAppend(left + "-", right);
    WithoutHyphensAppend(left, "-");
    assert WithoutHyphens("-") == "";
  }

  /** An accepted text is its run of digits, bare or in the canonical shape. */
  lemma AcceptedShapes(text: string)
    requires Parse(text).Some?
    ensures var run := HexRun(text).value; |run| == 32 && (text == run || text == Hyphenated(run))
  {
    if |text| == 36 {
      HyphenatedTextIsItsRun(text);
    }
  }

  /** A printed digit is the lower-case digit of its value. */
  lemma {:induction false} PrintedDigit(bytes: seq<byte>, k: nat)
    requires k < 2 * |bytes|
    ensures HexValue(HexDigits(bytes)[k]).Some?
    ensures HexDigits(bytes)[k] == HexDigit(HexValue(HexDigits(bytes)[k]).value)
  {
    if k < 2 {
      FirstDigits(bytes);
    } else {
      FirstDigits(bytes);
      assert HexDigits(bytes)[k] == HexDigits(bytes)[2..][k - 2];
      PrintedDigit(bytes[1..], k - 2);
    }
  }

  lemma FirstDigits(bytes: seq<byte>)
    requires bytes != []
    ensures HexDigits(bytes)[0] == HexDigit(bytes[0] as nat / 16)
    ensures HexDigits(bytes)[1] == HexDigit(bytes[0] as nat % 16)
    ensures HexDigits(bytes)[2..] == HexDigits(bytes[1..])
  {
  }

  lemma PrintedIsLower(bytes: seq<byte>)
    ensures AllHexDigits(HexDigits(bytes)) && LowerHex(HexDigits(bytes)) == HexDigits(bytes)
  {
    HexDigitsAreHex(bytes);
    forall k | 0 <= k < 2 * |bytes| ensures LowerHex(HexDigits(bytes))[k] == HexDigits(bytes)[k] {
      PrintedDigit(bytes, k);
    }
  }

  /** The texts of an identity are the case variants of its digits, bare or in the canonical shape. */
  lemma SpellingRuns(id: EntityId, text: string)
    requires Parse(text) == Some(id)
    ensures var run := HexRun(text).value;
            && |run| == 32 && (text == run || text == Hyphenated(run))
            && AllHexDigits(run) && LowerHex(run) == HexDigits(id)
  {
    AcceptedShapes(text);
    PrintedIsLower(id);
    ReadBytesUndoesHexDigits(id);
    ReadBytesDecidesDigits(HexRun(text).value, HexDigits(id));
  }

  predicate IsDecimal(digit: char) {
    '0' <= digit <= '9'
  }

  lemma DecimalHasOneCase(digit: char)
    requires HexValue(digit).Some? && IsDecimal(HexDigit(HexValue(digit).value))
    ensures digit == HexDigit(HexValue(digit).value)
  {
  }

  function UpperDigit(digit: char): (upper: char)
    requires HexValue(digit).Some? && !IsDecimal(digit)
    ensures HexValue(upper) == HexValue(digit) && 'A' <= upper <= 'F'
  {
    'A' + (HexValue(digit).value - 10) as char
  }

  lemma UpperCaseIsAnother(id: EntityId, k: nat)
    requires k < 32 && !IsDecimal(HexDigits(id)[k])
    ensures exists text :: Parse(text) == Some(id) && text != HexDigits(id) && text != Display(id)
  {
    var digits := HexDigits(id);
    PrintedIsLower(id);
    PrintedDigit(id, k);
    ReadBytesUndoesHexDigits(id);
    DisplayedRun(id);
    var text := digits[k := UpperDigit(digits[k])];
    assert AllHexDigits(text);
    assert LowerHex(text) == LowerHex(digits);
    ReadBytesDecidesDigits(text, digits);
    assert Parse(text) == Some(id) && text[k] != digits[k];
  }

  /**
   The comment above `parse` promises at most two spellings of an identity, the bare and the
   canonical one. That is so exactly for identities that print in decimal digits only; any letter
   digit may be upper case as well.
   */
  lemma TwoSpellingsExactly(id: EntityId)
    ensures (forall text :: Parse(text) == Some(id) ==> text == HexDigits(id) || text == Display(id)) <==>
            (forall k | 0 <= k < 32 :: IsDecimal(HexDigits(id)[k]))
  {
    if forall k | 0 <= k < 32 :: IsDecimal(HexDigits(id)[k]) {
      forall text | Parse(text) == Some(id) ensures text == HexDigits(id) || text == Display(id) {
        SpellingRuns(id, text);
        var run := HexRun(text).value;
        forall k | 0 <= k < 32 ensures run[k] == HexDigits(id)[k] {
          assert LowerHex(run)[k] == HexDigits(id)[k];
          DecimalHasOneCase(run[k]);
        }
        assert run == HexDigits(id);
      }
    } else {
      var k :| 0 <= k < 32 && !IsDecimal(HexDigits(id)[k]);
      UpperCaseIsAnother(id, k);
    }
  }
}
