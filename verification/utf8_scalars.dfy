/**
 The well-formed byte sequences are exactly the encodings of Unicode scalar values (RFC 3629,
 section 3): the byte ranges that the scanner and the form codec go by admit those and nothing else.
 */
module Utf8Scalars {
  import opened Bytes

  predicate IsScalar(value: int) {
    0 <= value < 0x11_0000 && !(0xD800 <= value < 0xE000)
  }

  function Continuation(bits: int): byte
    requires 0 <= bits < 64
  {
    (0x80 + bits) as byte
  }

  /** Six bits to each byte behind the first. */
  function EncodeScalar(value: int): seq<byte>
    requires IsScalar(value)
  {
    if value < 0x80 then [value as byte]
    else if value < 0x800 then [(0xC0 + value / 64) as byte, Continuation(value % 64)]
    else if value < 0x1_0000 then
      [(0xE0 + value / 4096) as byte, Continuation(value / 64 % 64), Continuation(value % 64)]
    else
      [(0xF0 + value / 262144) as byte, Continuation(value / 4096 % 64), Continuation(value / 64 % 64),
       Continuation(value % 64)]
  }

  function EncodeAll(values: seq<int>): seq<byte>
    requires forall k | 0 <= k < |values| :: IsScalar(values[k])
  {
    if values == [] then [] else EncodeScalar(values[0]) + EncodeAll(values[1..])
  }

  lemma EncodedIsCharacter(value: int)
    requires IsScalar(value)
    ensures CharAt(EncodeScalar(value), 0, |EncodeScalar(value)|)
  {
  }

  /** The bits of two, three or four bytes. */
  function Decoded(bytes: seq<byte>): int
    requires 1 <= |bytes| <= 4
  {
    if |bytes| == 1 then bytes[0] as int
    else if |bytes| == 2 then (bytes[0] as int - 0xC0) * 64 + (bytes[1] as int - 0x80)
    else if |bytes| == 3 then
      (bytes[0] as int - 0xE0) * 4096 + (bytes[1] as int - 0x80) * 64 + (bytes[2] as int - 0x80)
    else
      (bytes[0] as int - 0xF0) * 262144 + (bytes[1] as int - 0x80) * 4096 + (bytes[2] as int - 0x80) * 64
      + (bytes[3] as int - 0x80)
  }

  lemma CharacterIsEncoded(bytes: seq<byte>)
    requires bytes != [] && CharAt(bytes, 0, |bytes|)
    ensures |bytes| <= 4 && IsScalar(Decoded(bytes)) && EncodeScalar(Decoded(bytes)) == bytes
  {
    assert |bytes| == CharLength(bytes[0]);
    if |bytes| == 2 {
      hide EncodeScalar, Decoded, IsScalar;
      TwoBytes(bytes);
    } else if |bytes| == 3 {
      assert IsContinuation(bytes[2]);
      hide EncodeScalar, Decoded, IsScalar;
      ThreeBytes(bytes);
    } else if |bytes| == 4 {
      assert IsContinuation(bytes[2]) && IsContinuation(bytes[3]);
      hide EncodeScalar, Decoded, IsScalar;
      FourBytes(bytes);
    }
  }

  /** A whole number of 64s and less than 64 more. */
  lemma Sixes(high: int, low: int)
    requires 0 <= low < 64
    ensures (high * 64 + low) / 64 == high && (high * 64 + low) % 64 == low
  {
  }

  lemma TwoBytes(bytes: seq<byte>)
    requires |bytes| == 2 && 0xC2 <= bytes[0] <= 0xDF && IsContinuation(bytes[1])
    ensures IsScalar(Decoded(bytes)) && EncodeScalar(Decoded(bytes)) == bytes
  {
    Sixes(bytes[0] as int - 0xC0, bytes[1] as int - 0x80);
  }

  lemma ThreeBytes(bytes: seq<byte>)
    requires |bytes| == 3 && 0xE0 <= bytes[0] <= 0xEF && SecondFits(bytes[0], bytes[1]) && IsContinuation(bytes[2])
    ensures IsScalar(Decoded(bytes)) && EncodeScalar(Decoded(bytes)) == bytes
  {
    var a, b, c := bytes[0] as int - 0xE0, bytes[1] as int - 0x80, bytes[2] as int - 0x80;
    Sixes(a * 64 + b, c);
    Sixes(a, b);
    var value := Decoded(bytes);
    assert value == (a * 64 + b) * 64 + c;
    assert value / 4096 == a;
  }

  lemma FourBytes(bytes: seq<byte>)
    requires |bytes| == 4 && 0xF0 <= bytes[0] <= 0xF4 && SecondFits(bytes[0], bytes[1])
    requires IsContinuation(bytes[2]) && IsContinuation(bytes[3])
    ensures IsScalar(Decoded(bytes)) && EncodeScalar(Decoded(bytes)) == bytes
  {
    var a, b, c, d := bytes[0] as int - 0xF0, bytes[1] as int - 0x80, bytes[2] as int - 0x80, bytes[3] as int - 0x80;
    Sixes((a * 64 + b) * 64 + c, d);
    Sixes(a * 64 + b, c);
    Sixes(a, b);
    var value := Decoded(bytes);
    assert value == ((a * 64 + b) * 64 + c) * 64 + d;
    assert value / 4096 == a * 64 + b && value / 262144 == a;
  }

  lemma CharacterAlone(text: seq<byte>, i: nat, n: nat)
    requires i + n <= |text|
    ensures CharAt(text, i, n) <==> CharAt(text[i..i + n], 0, n)
  {
    var alone := text[i..i + n];
    assert forall k | 0 <= k < n :: alone[k] == text[i + k];
    if CharAt(alone, 0, n) {
      forall k | i + 1 < k < i + n ensures IsContinuation(text[k]) {
        assert IsContinuation(alone[k - i]);
      }
    }
  }

  lemma OneCharacterMore(text: seq<byte>, i: nat, n: nat)
    requires i + n <= |text| && CharAt(text, i, n) && Utf8From(text, i + n)
    ensures Utf8From(text, i)
  {
  }

  lemma {:induction false} EncodedIsUtf8(values: seq<int>, before: seq<byte>)
    requires forall k | 0 <= k < |values| :: IsScalar(values[k])
    ensures Utf8From(before + EncodeAll(values), |before|)
    decreases |values|
  {
    hide EncodeScalar, CharAt, IsScalar, Utf8From;
    if values == [] {
      EndIsUtf8(before + []);
    } else {
      var first, rest := EncodeScalar(values[0]), EncodeAll(values[1..]);
      var text := before + EncodeAll(values);
      assert text == before + first + rest;
      EncodedIsUtf8(values[1..], before + first);
      EncodedIsCharacter(values[0]);
      assert text[|before|..|before| + |first|] == first;
      CharacterAlone(text, |before|, |first|);
      OneCharacterMore(text, |before|, |first|);
    }
  }

  lemma EndIsUtf8(text: seq<byte>)
    ensures Utf8From(text, |text|)
  {
  }

  lemma {:induction false} Utf8IsEncoded(text: seq<byte>, i: nat) returns (values: seq<int>)
    requires i <= |text| && Utf8From(text, i)
    ensures forall k | 0 <= k < |values| :: IsScalar(values[k])
    ensures EncodeAll(values) == text[i..]
    decreases |text| - i
  {
    values := [];
    if i < |text| {
      var n := CharLength(text[i]);
      CharacterAlone(text, i, n);
      CharacterIsEncoded(text[i..i + n]);
      var rest := Utf8IsEncoded(text, i + n);
      values := [Decoded(text[i..i + n])] + rest;
      assert values[1..] == rest;
      assert text[i..] == text[i..i + n] + text[i + n..];
    }
  }

  /** A text is well formed exactly when it encodes some run of scalar values. */
  lemma Utf8Exactly(text: seq<byte>)
    ensures Utf8(text) <==>
            exists values: seq<int> ::
              (forall k | 0 <= k < |values| :: IsScalar(values[k])) && EncodeAll(values) == text
  {
    if Utf8(text) {
      var values := Utf8IsEncoded(text, 0);
      assert text[0..] == text;
    }
    if exists values: seq<int> :: (forall k | 0 <= k < |values| :: IsScalar(values[k])) && EncodeAll(values) == text {
      var values: seq<int> :| (forall k | 0 <= k < |values| :: IsScalar(values[k])) && EncodeAll(values) == text;
      EncodedIsUtf8(values, []);
      assert [] + text == text;
    }
  }
}
