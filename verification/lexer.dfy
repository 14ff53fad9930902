/**
 The byte-level scanner that blanks comments and literals out of Rust source before its structure
 is read: what each step consumes, the in-place loop, and what the blanking preserves.
 */
module Lexer {
  import opened Wrappers
  import opened Bytes

  const NEWLINE: byte := 10
  const RETURN: byte := 13
  const SPACE: byte := 32
  const QUOTE: byte := 34
  const HASH: byte := 35
  const APOSTROPHE: byte := 39
  const STAR: byte := 42
  const SLASH: byte := 47
  const BACKSLASH: byte := 92
  const LETTER_R: byte := 114

  datatype State =
    | Code
    | BlockComment(depth: nat)
    | StringLiteral(escaped: bool)
    | RawString(hashes: nat)

  /** The bytes up to `next` are consumed together, either all blanked or all kept. */
  datatype Step = Step(next: nat, state: State, blank: bool)

  predicate Pair(input: seq<byte>, i: nat, first: byte, second: byte) {
    i + 1 < |input| && input[i] == first && input[i + 1] == second
  }

  function LineEnd(input: seq<byte>, i: nat): (r: nat)
    requires i <= |input|
    ensures i <= r <= |input|
    ensures r < |input| ==> input[r] == NEWLINE
    ensures forall k | i <= k < r :: input[k] != NEWLINE
    decreases |input| - i
  {
    if i == |input| || input[i] == NEWLINE then i else LineEnd(input, i + 1)
  }

  function HashesEnd(input: seq<byte>, i: nat): (r: nat)
    requires i <= |input|
    ensures i <= r <= |input|
    ensures forall k | i <= k < r :: input[k] == HASH
    ensures r < |input| ==> input[r] != HASH
    decreases |input| - i
  {
    if i < |input| && input[i] == HASH then HashesEnd(input, i + 1) else i
  }

  /** A quote that the scan of an escaped character literal stops at. */
  predicate Closes(input: seq<byte>, k: nat) {
    0 < k < |input| && input[k] == APOSTROPHE && input[k - 1] != BACKSLASH
  }

  /** Where the scan of an escaped character literal stops: at its quote, its line's end or the input's. */
  function EscapeEnd(input: seq<byte>, i: nat): (r: nat)
    requires i <= |input|
    ensures i <= r <= |input|
    ensures forall k | i <= k < r :: input[k] != NEWLINE && !Closes(input, k)
    ensures 0 < r < |input| ==> input[r] == NEWLINE || Closes(input, r)
    decreases |input| - i
  {
    if i == |input| || input[i] == NEWLINE || Closes(input, i) then i else EscapeEnd(input, i + 1)
  }

  /** The closing quote of a character literal that opens at i, if there is one. */
  function LiteralEnd(input: seq<byte>, i: nat): (r: Option<nat>)
    requires i < |input|
    ensures r.Some? ==> i + 2 <= r.value < |input| && input[r.value] == APOSTROPHE
  {
    if i + 1 < |input| && input[i + 1] == BACKSLASH then
      var cursor := EscapeEnd(input, i + 2);
      if cursor < |input| && input[cursor] == APOSTROPHE then Some(cursor) else None
    else if i + 1 < |input| then
      var cursor := i + 1 + CharLength(input[i + 1]);
      if i + 2 <= cursor < |input| && input[cursor] == APOSTROPHE then Some(cursor) else None
    else None
  }

  predicate ClosesRaw(input: seq<byte>, i: nat, hashes: nat)
    requires i < |input|
  {
    && input[i] == QUOTE
    && i + 1 + hashes <= |input|
    && forall k | i + 1 <= k < i + 1 + hashes :: input[k] == HASH
  }

  function CodeStep(input: seq<byte>, i: nat): (r: Step)
    requires i < |input|
    ensures i < r.next <= |input|
  {
    if Pair(input, i, SLASH, SLASH) then Step(LineEnd(input, i + 1), Code, true)
    else if Pair(input, i, SLASH, STAR) then Step(i + 2, BlockComment(1), true)
    else if input[i] == LETTER_R then
      var quote := HashesEnd(input, i + 1);
      if quote < |input| && input[quote] == QUOTE then Step(quote + 1, RawString(quote - i - 1), true)
      else Step(i + 1, Code, false)
    else if input[i] == QUOTE then Step(i + 1, StringLiteral(false), true)
    else if input[i] == APOSTROPHE then
      var end := LiteralEnd(input, i);
      if end.Some? then Step(end.value + 1, Code, true) else Step(i + 1, Code, false)
    else Step(i + 1, Code, false)
  }

  function StepAt(input: seq<byte>, state: State, i: nat): (r: Step)
    requires i < |input|
    ensures i < r.next <= |input|
    ensures !r.blank ==> state == Code == r.state && r.next == i + 1
  {
    match state
    case Code => CodeStep(input, i)
    case BlockComment(depth) =>
      if Pair(input, i, SLASH, STAR) then Step(i + 2, BlockComment(depth + 1), true)
      else if Pair(input, i, STAR, SLASH) then
        Step(i + 2, if depth <= 1 then Code else BlockComment(depth - 1), true)
      else Step(i + 1, state, true)
    case StringLiteral(escaped) =>
      Step(i + 1,
        if escaped then StringLiteral(false)
        else if input[i] == BACKSLASH then StringLiteral(true)
        else if input[i] == QUOTE then Code
        else StringLiteral(false), true)
    case RawString(hashes) =>
      if ClosesRaw(input, i, hashes) then Step(i + 1 + hashes, Code, true) else Step(i + 1, state, true)
  }

  function Blank(b: byte): byte {
    if b == NEWLINE || b == RETURN then b else SPACE
  }

  /** Which bytes from i on fall in blanked steps. */
  function Mask(input: seq<byte>, state: State, i: nat): (r: seq<bool>)
    requires i <= |input|
    ensures |r| == |input| - i
    decreases |input| - i
  {
    if i == |input| then []
    else
      var step := StepAt(input, state, i);
      seq(step.next - i, _ => step.blank) + Mask(input, step.state, step.next)
  }

  function Paint(input: seq<byte>, mask: seq<bool>): (r: seq<byte>)
    requires |input| == |mask|
    ensures |r| == |input|
    ensures forall k | 0 <= k < |r| :: r[k] == if mask[k] then Blank(input[k]) else input[k]
  {
    seq(|input|, k requires 0 <= k < |input| => if mask[k] then Blank(input[k]) else input[k])
  }

  function Structural(input: seq<byte>): (r: seq<byte>)
    ensures |r| == |input|
  {
    Paint(input, Mask(input, Code, 0))
  }

  // ----- The loop, in place -----

  method BlankRange(output: array<byte>, from: nat, to: nat)
    requires from <= to <= output.Length
    modifies output
    ensures forall k | 0 <= k < output.Length ::
              output[k] == if from <= k < to then Blank(old(output[k])) else old(output[k])
  {
    for index := from to to
      invariant forall k | 0 <= k < output.Length ::
                  output[k] == if from <= k < index then Blank(old(output[k])) else old(output[k])
    {
      if output[index] != NEWLINE && output[index] != RETURN {
        output[index] := SPACE;
      }
    }
  }

  method FindLiteralEnd(input: seq<byte>, index: nat) returns (end: Option<nat>)
    requires Utf8(input) && index < |input| && input[index] == APOSTROPHE
    ensures end == LiteralEnd(input, index)
  {
    if index + 1 < |input| && input[index + 1] == BACKSLASH {
      var cursor := index + 2;
      while cursor < |input| && input[cursor] != NEWLINE
        invariant index + 2 <= cursor <= |input|
        invariant EscapeEnd(input, cursor) == EscapeEnd(input, index + 2)
      {
        if input[cursor] == APOSTROPHE && input[cursor - 1] != BACKSLASH { break; }
        cursor := cursor + 1;
      }
      return if cursor < |input| && input[cursor] == APOSTROPHE then Some(cursor) else None;
    }
    // Slicing the text after the apostrophe never splits a character.
    BoundaryAfterAscii(input, 0, index);
    assert CharBoundary(input, index + 1);
    if index + 1 < |input| {
      var cursor := index + 1 + CharLength(input[index + 1]);
      if index + 2 <= cursor < |input| && input[cursor] == APOSTROPHE { return Some(cursor); }
    }
    return None;
  }

  /** How many bytes the step at `index` consumes, found by the loops of the scanner. */
  method TakeCodeStep(input: seq<byte>, index: nat) returns (step: Step)
    requires Utf8(input) && index < |input|
    ensures step == CodeStep(input, index)
  {
    if Pair(input, index, SLASH, SLASH) {
      var cursor := index;
      while cursor < |input| && input[cursor] != NEWLINE
        invariant index <= cursor <= |input|
        invariant LineEnd(input, cursor) == LineEnd(input, index + 1)
      {
        cursor := cursor + 1;
      }
      return Step(cursor, Code, true);
    }
    if Pair(input, index, SLASH, STAR) { return Step(index + 2, BlockComment(1), true); }
    if input[index] == LETTER_R {
      var quote := index + 1;
      while quote < |input| && input[quote] == HASH
        invariant index + 1 <= quote <= |input|
        invariant HashesEnd(input, quote) == HashesEnd(input, index + 1)
      {
        quote := quote + 1;
      }
      if quote < |input| && input[quote] == QUOTE { return Step(quote + 1, RawString(quote - index - 1), true); }
      return Step(index + 1, Code, false);
    }
    if input[index] == QUOTE { return Step(index + 1, StringLiteral(false), true); }
    if input[index] == APOSTROPHE {
      var end := FindLiteralEnd(input, index);
      if end.Some? { return Step(end.value + 1, Code, true); }
    }
    return Step(index + 1, Code, false);
  }

  method StructuralSource(input: seq<byte>) returns (output: array<byte>)
    requires Utf8(input)
    ensures fresh(output) && output[..] == Structural(input)
  {
    output := new byte[|input|](k requires 0 <= k < |input| => input[k]);
    var state, index := Code, 0;
    while index < |input|
      invariant index <= |input|
      invariant Mask(input, Code, 0)[index..] == Mask(input, state, index)
      invariant forall k | 0 <= k < index :: output[k] == Structural(input)[k]
      invariant forall k | index <= k < |input| :: output[k] == input[k]
      decreases |input| - index
    {
      var step: Step;
      if state == Code {
        step := TakeCodeStep(input, index);
      } else {
        step := StepAt(input, state, index);
      }
      if step.blank {
        BlankRange(output, index, step.next);
      }
      StepMasks(input, state, index);
      index, state := step.next, step.state;
    }
  }

  /** The mask over one step, and where it goes on. */
  lemma StepMasks(input: seq<byte>, state: State, i: nat)
    requires i < |input|
    requires Mask(input, Code, 0)[i..] == Mask(input, state, i)
    ensures var step := StepAt(input, state, i);
            && (forall k | i <= k < step.next :: Mask(input, Code, 0)[k] == step.blank)
            && Mask(input, Code, 0)[step.next..] == Mask(input, step.state, step.next)
  {
    var step := StepAt(input, state, i);
    var whole, rest := Mask(input, Code, 0), Mask(input, state, i);
    forall k | i <= k < step.next ensures whole[k] == step.blank {
      assert whole[k] == rest[k - i];
    }
    assert whole[step.next..] == rest[step.next - i..];
  }

  // ----- Where bytes are kept -----

  /** At every kept byte the scanner stands in code, as if it started there. */
  lemma {:induction false} KeptRestarts(input: seq<byte>, state: State, i: nat, k: nat)
    requires i <= k < |input| && !Mask(input, state, i)[k - i]
    ensures Mask(input, state, i)[k - i..] == Mask(input, Code, k)
    ensures CodeStep(input, k) == Step(k + 1, Code, false)
    decreases |input| - i
  {
    var step := StepAt(input, state, i);
    if k < step.next {
      assert k == i;
    } else {
      KeptRestarts(input, step.state, step.next, k);
      assert Mask(input, state, i)[k - i..] == Mask(input, step.state, step.next)[k - step.next..];
    }
  }

  /** The last byte before kept code ended a comment or literal, unless a line comment ends there. */
  lemma {:induction false} BeforeKept(input: seq<byte>, state: State, i: nat, k: nat)
    requires i <= k && k + 1 < |input|
    requires Mask(input, state, i)[k - i] && !Mask(input, state, i)[k + 1 - i]
    ensures input[k] in {SLASH, QUOTE, HASH, APOSTROPHE} || input[k + 1] == NEWLINE
    decreases |input| - i
  {
    var step := StepAt(input, state, i);
    if k >= step.next {
      BeforeKept(input, step.state, step.next, k);
    } else {
      assert k + 1 == step.next;
      assert Mask(input, step.state, step.next)[0] == Mask(input, state, i)[k + 1 - i];
      assert step.state == Code;
    }
  }

  // ----- What blanking preserves -----

  ghost predicate Clean(text: seq<byte>) {
    && (forall k | 0 <= k < |text| :: text[k] != QUOTE)
    && (forall k | 0 <= k < |text| :: !Pair(text, k, SLASH, SLASH) && !Pair(text, k, SLASH, STAR))
  }

  /** No string quote and no comment opener survives, and line breaks stay exactly where they were. */
  lemma BlankingIsClean(input: seq<byte>)
    ensures Clean(Structural(input))
    ensures forall k | 0 <= k < |input| ::
              && (Structural(input)[k] == NEWLINE <==> input[k] == NEWLINE)
              && (Structural(input)[k] == RETURN <==> input[k] == RETURN)
              && (Structural(input)[k] == input[k] || Structural(input)[k] == SPACE)
  {
    var output, mask := Structural(input), Mask(input, Code, 0);
    forall k | 0 <= k < |output|
      ensures output[k] != QUOTE && !Pair(output, k, SLASH, SLASH) && !Pair(output, k, SLASH, STAR)
    {
      if !mask[k] {
        KeptRestarts(input, Code, 0, k);
      }
    }
  }

  /** A byte of a longer character shares its fate with the byte before it. */
  lemma {:induction false} NeighboursShareFate(input: seq<byte>, state: State, i: nat, k: nat)
    requires i <= k && k + 1 < |input| && input[k] >= 0x80 && input[k + 1] >= 0x80
    ensures Mask(input, state, i)[k - i] == Mask(input, state, i)[k + 1 - i]
    decreases |input| - i
  {
    var step := StepAt(input, state, i);
    if k >= step.next {
      NeighboursShareFate(input, step.state, step.next, k);
    } else if k + 1 == step.next {
      assert Mask(input, step.state, step.next)[0] == Mask(input, state, i)[k + 1 - i];
      assert StepAt(input, step.state, step.next).blank == step.blank by {
        if i == k { } else { LongStepsEndInAscii(input, state, i); }
      }
    }
  }

  /** A step of several bytes ends at an ASCII byte or at the end of its line. */
  lemma LongStepsEndInAscii(input: seq<byte>, state: State, i: nat)
    requires i < |input| && StepAt(input, state, i).next > i + 1
    ensures var next := StepAt(input, state, i).next;
            input[next - 1] < 0x80 || next == |input| || input[next] == NEWLINE
  {
  }

  lemma {:induction false} CharacterIsWhole(input: seq<byte>, i: nat, n: nat, k: nat)
    requires CharAt(input, i, n) && i <= k < i + n
    ensures Mask(input, Code, 0)[k] == Mask(input, Code, 0)[i]
    decreases k
  {
    if k > i {
      CharacterIsWhole(input, i, n, k - 1);
      NeighboursShareFate(input, Code, 0, k - 1);
    }
  }

  lemma SpacesAreUtf8(text: seq<byte>, i: nat, n: nat)
    requires i + n <= |text| && Utf8From(text, i + n)
    requires forall k | i <= k < i + n :: text[k] < 0x80
    ensures Utf8From(text, i)
    decreases n
  {
    if n > 0 {
      SpacesAreUtf8(text, i + 1, n - 1);
    }
  }

  /** Every character is kept or blanked whole, so the output is text again. */
  lemma {:induction false} OutputIsUtf8From(input: seq<byte>, i: nat)
    requires i <= |input| && Utf8From(input, i)
    ensures Utf8From(Structural(input), i)
    decreases |input| - i
  {
    if i < |input| {
      var output, mask, n := Structural(input), Mask(input, Code, 0), CharLength(input[i]);
      OutputIsUtf8From(input, i + n);
      forall k | i <= k < i + n ensures mask[k] == mask[i] {
        CharacterIsWhole(input, i, n, k);
      }
      if mask[i] {
        SpacesAreUtf8(output, i, n);
      } else {
        assert forall k | i <= k < i + n :: output[k] == input[k];
      }
    }
  }

  lemma OutputIsUtf8(input: seq<byte>)
    requires Utf8(input)
    ensures Utf8(Structural(input))
  {
    OutputIsUtf8From(input, 0);
  }

  // ----- Blanking twice -----

  /** In a clean text without character literals the scanner keeps every byte. */
  lemma {:induction false} NothingToBlank(text: seq<byte>, i: nat)
    requires i <= |text| && Clean(text)
    requires forall k | 0 <= k < |text| && text[k] == APOSTROPHE :: LiteralEnd(text, k).None?
    ensures forall k | 0 <= k < |text| - i :: !Mask(text, Code, i)[k]
    decreases |text| - i
  {
    if i < |text| {
      assert CodeStep(text, i) == Step(i + 1, Code, false);
      NothingToBlank(text, i + 1);
    }
  }

  /** What the blanked text would still take for an escaped literal, the input had one already. */
  lemma EscapeSurvives(input: seq<byte>, i: nat)
    requires i + 1 < |input| && !Mask(input, Code, 0)[i + 1] && input[i + 1] == BACKSLASH
    requires var end := EscapeEnd(Structural(input), i + 2); end < |input| && Structural(input)[end] == APOSTROPHE
    ensures var end := EscapeEnd(input, i + 2); end < |input| && input[end] == APOSTROPHE
  {
    hide Mask, EscapeEnd;
    var output, mask := Structural(input), Mask(input, Code, 0);
    var end := EscapeEnd(output, i + 2);
    assert Closes(output, end) && input[end] == APOSTROPHE && !mask[end];
    if input[end - 1] == BACKSLASH {
      BeforeKept(input, Code, 0, end - 1);
      assert false;
    }
    assert Closes(input, end);
    assert forall k | i + 2 <= k < end :: output[k] != NEWLINE && input[k] != NEWLINE;
    assert EscapeEnd(input, i + 2) <= end;
  }

  lemma NoLiteralLeft(input: seq<byte>, i: nat)
    requires i < |input| && Structural(input)[i] == APOSTROPHE
    ensures LiteralEnd(Structural(input), i).None?
  {
    hide Mask, EscapeEnd;
    var output, mask := Structural(input), Mask(input, Code, 0);
    assert !mask[i];
    KeptRestarts(input, Code, 0, i);
    assert LiteralEnd(input, i).None?;
    if i + 1 < |input| && !mask[i + 1] {
      assert output[i + 1] == input[i + 1];
      if output[i + 1] == BACKSLASH {
        var end := EscapeEnd(output, i + 2);
        if end < |input| && output[end] == APOSTROPHE {
          EscapeSurvives(input, i);
        }
      }
    } else if i + 2 < |input| {
      BlankedByteAlone(input, i);
    }
  }

  /** A step that starts in code and blanks one byte opens a string, so the next byte is blanked too. */
  lemma BlankedStartGoesOn(input: seq<byte>, i: nat)
    requires i + 1 < |input| && Mask(input, Code, i)[0]
    ensures Mask(input, Code, i)[1]
  {
    var step := CodeStep(input, i);
    assert step.blank;
    if step.next == i + 1 {
      assert input[i] == QUOTE;
      assert Mask(input, Code, i)[1] == Mask(input, StringLiteral(false), i + 1)[0];
    }
  }

  lemma MaskAfterKept(input: seq<byte>, i: nat)
    requires i < |input| && CodeStep(input, i) == Step(i + 1, Code, false)
    ensures Mask(input, Code, i)[1..] == Mask(input, Code, i + 1)
  {
  }

  /** No single byte is blanked between two kept ones. */
  lemma BlankedByteAlone(input: seq<byte>, i: nat)
    requires i + 2 < |input| && !Mask(input, Code, 0)[i] && Mask(input, Code, 0)[i + 1]
    ensures Mask(input, Code, 0)[i + 2]
  {
    hide CodeStep, Mask;
    var mask, rest, next := Mask(input, Code, 0), Mask(input, Code, i), Mask(input, Code, i + 1);
    KeptRestarts(input, Code, 0, i);
    MaskAfterKept(input, i);
    assert mask[i + 1] == rest[1] && rest[1] == rest[1..][0] == next[0];
    assert mask[i + 2] == rest[2] && rest[2] == rest[1..][1] == next[1];
    BlankedStartGoesOn(input, i + 1);
  }

  /** Blanking what has been blanked changes nothing. */
  lemma BlankingTwiceIsOnce(input: seq<byte>)
    ensures Structural(Structural(input)) == Structural(input)
  {
    var output := Structural(input);
    BlankingIsClean(input);
    forall k | 0 <= k < |output| && output[k] == APOSTROPHE ensures LiteralEnd(output, k).None? {
      NoLiteralLeft(input, k);
    }
    NothingToBlank(output, 0);
  }
}
