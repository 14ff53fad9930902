/** Bytes, and the well-formed byte sequences of UTF-8 (RFC 3629, section 4). */
module Bytes {
  newtype byte = value: int | 0 <= value < 256

  /** The byte count a leading byte announces; zero for a byte that cannot lead. */
  function CharLength(lead: byte): nat {
    if lead < 0x80 then 1
    else if 0xC2 <= lead <= 0xDF then 2
    else if 0xE0 <= lead <= 0xEF then 3
    else if 0xF0 <= lead <= 0xF4 then 4
    else 0
  }

  predicate IsContinuation(b: byte) {
    0x80 <= b < 0xC0
  }

  /** The narrower range of the second byte after some leading bytes. */
  predicate SecondFits(lead: byte, second: byte) {
    && IsContinuation(second)
    && (lead == 0xE0 ==> 0xA0 <= second)
    && (lead == 0xED ==> second < 0xA0)
    && (lead == 0xF0 ==> 0x90 <= second)
    && (lead == 0xF4 ==> second < 0x90)
  }

  /** One well-formed character of n bytes starts at i. */
  predicate CharAt(text: seq<byte>, i: nat, n: nat) {
    && i + n <= |text|
    && 0 < n
    && CharLength(text[i]) == n
    && (n > 1 ==> SecondFits(text[i], text[i + 1]))
    && (forall k | i + 1 < k < i + n :: IsContinuation(text[k]))
  }

  /** From i on, the text is a run of well-formed characters. */
  predicate Utf8From(text: seq<byte>, i: nat)
    requires i <= |text|
    decreases |text| - i
  {
    i == |text| || (var n := CharLength(text[i]); CharAt(text, i, n) && Utf8From(text, i + n))
  }

  predicate Utf8(text: seq<byte>) {
    Utf8From(text, 0)
  }

  predicate CharBoundary(text: seq<byte>, i: nat) {
    i == |text| || (i < |text| && !IsContinuation(text[i]))
  }

  /** In UTF-8 text a character follows every ASCII byte, so cutting after one splits no character. */
  lemma {:induction false} BoundaryAfterAscii(text: seq<byte>, from: nat, k: nat)
    requires from <= k < |text| && Utf8From(text, from) && text[k] < 0x80
    ensures CharBoundary(text, k + 1)
    decreases |text| - from
  {
    var n := CharLength(text[from]);
    if k >= from + n {
      BoundaryAfterAscii(text, from + n, k);
    } else if k + 1 < |text| {
      assert k == from;
      assert Utf8From(text, from + 1);
    }
  }
}
