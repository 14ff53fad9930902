/** Element-wise conversion of sequences, total and fallible, and when the two undo each other. */
module Sequences {
  import opened Wrappers

  function MapSeq<A, B>(convert: A -> B, items: seq<A>): (r: seq<B>)
    ensures |r| == |items|
    ensures forall k | 0 <= k < |items| :: r[k] == convert(items[k])
  {
    seq(|items|, k requires 0 <= k < |items| => convert(items[k]))
  }

  /** Converts from the front and stops at the first failure. */
  function TryMap<A, B, E>(convert: A -> Result<B, E>, items: seq<A>): (r: Result<seq<B>, E>)
    ensures r.Ok? ==> |r.value| == |items|
    ensures r.Ok? <==> forall k | 0 <= k < |items| :: convert(items[k]).Ok?
    ensures r.Ok? ==> forall k | 0 <= k < |items| :: convert(items[k]) == Ok(r.value[k])
  {
    if items == [] then Ok([])
    else
      var head :- convert(items[0]);
      var tail :- TryMap(convert, items[1..]);
      Ok([head] + tail)
  }

  function MapOption<A, B>(convert: A -> B, item: Option<A>): Option<B> {
    match item
    case None => None
    case Some(value) => Some(convert(value))
  }

  function TryOption<A, B, E>(convert: A -> Result<B, E>, item: Option<A>): Result<Option<B>, E> {
    match item
    case None => Ok(None)
    case Some(value) => var converted :- convert(value); Ok(Some(converted))
  }

  /** When every element survives the two conversions, so does the sequence. */
  lemma TryMapUndoesMap<A, B, E>(encode: A -> B, decode: B -> Result<A, E>, items: seq<A>)
    requires forall k | 0 <= k < |items| :: decode(encode(items[k])) == Ok(items[k])
    ensures TryMap(decode, MapSeq(encode, items)) == Ok(items)
  {
    var decoded := TryMap(decode, MapSeq(encode, items));
    assert decoded.Ok?;
    assert decoded.value == items;
  }

  /** Re-encoding a decoded sequence gives the original exactly when it does for every element. */
  lemma MapUndoesTryMap<A, B, E>(encode: A -> B, decode: B -> Result<A, E>, items: seq<B>)
    requires TryMap(decode, items).Ok?
    ensures MapSeq(encode, TryMap(decode, items).value) == items <==>
            forall k | 0 <= k < |items| :: encode(decode(items[k]).value) == items[k]
  {
    var again := MapSeq(encode, TryMap(decode, items).value);
    if forall k | 0 <= k < |items| :: encode(decode(items[k]).value) == items[k] {
      assert again == items;
    }
    if again == items {
      assert forall k | 0 <= k < |items| :: encode(decode(items[k]).value) == again[k];
    }
  }
}
