/**
 What the scanner takes for one comment or literal, told from the text alone: wherever it stands in
 code before a string, a raw string, a character, a line comment or a nested block comment, it blanks
 exactly that and goes on in code behind it; before anything else it keeps one byte.
 */
module LexerTokens {
  import opened Wrappers
  import opened Bytes
  import opened Lexer

  /** From i to end everything is blanked, and the scanner goes on from there in a state. */
  ghost predicate BlanksTo(input: seq<byte>, state: State, i: nat, end: nat, next: State) {
    && i <= end <= |input|
    && Mask(input, state, i) == seq(end - i, _ => true) + Mask(input, next, end)
  }

  lemma BlankStep(input: seq<byte>, state: State, i: nat, end: nat, next: State)
    requires i < |input| && StepAt(input, state, i).blank
    requires var step := StepAt(input, state, i); BlanksTo(input, step.state, step.next, end, next)
    ensures BlanksTo(input, state, i, end, next)
  {
    var step := StepAt(input, state, i);
    assert seq(step.next - i, _ => true) + seq(end - step.next, _ => true) == seq(end - i, _ => true);
  }

  lemma Arrives(input: seq<byte>, i: nat, state: State)
    requires i <= |input|
    ensures BlanksTo(input, state, i, i, state)
  {
  }

  /** The byte at i is kept, and the scanner goes on in code behind it. */
  ghost predicate Keeps(input: seq<byte>, i: nat) {
    i < |input| && Mask(input, Code, i) == [false] + Mask(input, Code, i + 1)
  }

  // ----- Strings -----

  /** How many backslashes in a row stand just before j, back to the string's start. */
  function Backslashes(input: seq<byte>, from: nat, j: nat): nat
    requires from <= j <= |input|
    decreases j
  {
    if j == from || input[j - 1] != BACKSLASH then 0 else 1 + Backslashes(input, from, j - 1)
  }

  /** A quote with an even number of backslashes before it ends the string. */
  predicate EndsString(input: seq<byte>, from: nat, j: nat)
    requires from <= j <= |input|
  {
    j < |input| && input[j] == QUOTE && Backslashes(input, from, j) % 2 == 0
  }

  /** Inside a string the scanner stands after an escape exactly when the run of backslashes is odd. */
  function InString(input: seq<byte>, from: nat, j: nat): State
    requires from <= j <= |input|
  {
    StringLiteral(Backslashes(input, from, j) % 2 == 1)
  }

  lemma StringStep(input: seq<byte>, from: nat, j: nat)
    requires from <= j < |input|
    ensures StepAt(input, InString(input, from, j), j) ==
            Step(j + 1, if EndsString(input, from, j) then Code else InString(input, from, j + 1), true)
  {
    var run := Backslashes(input, from, j);
    assert Backslashes(input, from, j + 1) == if input[j] == BACKSLASH then 1 + run else 0;
    assert (1 + run) % 2 == 1 <==> run % 2 == 0;
  }

  lemma {:induction false} StringRun(input: seq<byte>, from: nat, j: nat, end: nat)
    requires from <= j <= end < |input| && EndsString(input, from, end)
    requires forall k | from <= k < end :: !EndsString(input, from, k)
    ensures BlanksTo(input, InString(input, from, j), j, end + 1, Code)
    decreases end - j
  {
    hide Mask, BlanksTo, InString, EndsString;
    StringStep(input, from, j);
    if j < end {
      StringRun(input, from, j + 1, end);
    } else {
      Arrives(input, end + 1, Code);
    }
    BlankStep(input, InString(input, from, j), j, end + 1, Code);
  }

  /** A string is blanked from its opening quote to the first quote that no backslash escapes. */
  lemma StringIsBlanked(input: seq<byte>, i: nat, from: nat, end: nat)
    requires from == i + 1 <= end < |input| && input[i] == QUOTE && EndsString(input, from, end)
    requires forall k | from <= k < end :: !EndsString(input, from, k)
    ensures BlanksTo(input, Code, i, end + 1, Code)
  {
    StringRun(input, from, from, end);
    assert InString(input, from, from) == StringLiteral(false);
    hide Mask, BlanksTo, InString, EndsString;
    BlankStep(input, Code, i, end + 1, Code);
  }

  lemma {:induction false} EndlessRun(input: seq<byte>, from: nat, j: nat)
    requires from <= j <= |input|
    requires forall k | from <= k < |input| :: !EndsString(input, from, k)
    ensures Mask(input, InString(input, from, j), j) == seq(|input| - j, _ => true)
    decreases |input| - j
  {
    hide InString, EndsString;
    if j < |input| {
      StringStep(input, from, j);
      EndlessRun(input, from, j + 1);
    }
  }

  /** A string that nothing ends takes the rest of the text. */
  lemma EndlessStringIsBlanked(input: seq<byte>, i: nat, from: nat)
    requires from == i + 1 <= |input| && input[i] == QUOTE
    requires forall k | from <= k < |input| :: !EndsString(input, from, k)
    ensures Mask(input, Code, i) == seq(|input| - i, _ => true)
  {
    EndlessRun(input, from, from);
    assert InString(input, from, from) == StringLiteral(false);
  }

  // ----- Raw strings -----

  lemma {:induction false} RawRun(input: seq<byte>, j: nat, end: nat, hashes: nat)
    requires j <= end < |input| && ClosesRaw(input, end, hashes)
    requires forall k | j <= k < end :: !ClosesRaw(input, k, hashes)
    ensures BlanksTo(input, RawString(hashes), j, end + 1 + hashes, Code)
    decreases end - j
  {
    if j < end {
      RawRun(input, j + 1, end, hashes);
    } else {
      Arrives(input, end + 1 + hashes, Code);
    }
    hide Mask, BlanksTo, ClosesRaw;
    BlankStep(input, RawString(hashes), j, end + 1 + hashes, Code);
  }

  lemma {:induction false} HashRun(input: seq<byte>, i: nat, end: nat)
    requires i <= end < |input| && input[end] != HASH && forall k | i <= k < end :: input[k] == HASH
    ensures HashesEnd(input, i) == end
    decreases end - i
  {
    if i < end {
      HashRun(input, i + 1, end);
    }
  }

  /** A raw string is blanked from its letter to the first quote followed by as many hashes as it opened with. */
  lemma RawStringIsBlanked(input: seq<byte>, i: nat, hashes: nat, end: nat)
    requires i + 1 + hashes < end < |input| && input[i] == LETTER_R
    requires (forall k | i < k < i + 1 + hashes :: input[k] == HASH) && input[i + 1 + hashes] == QUOTE
    requires ClosesRaw(input, end, hashes)
    requires forall k | i + 1 + hashes < k < end :: !ClosesRaw(input, k, hashes)
    ensures BlanksTo(input, Code, i, end + 1 + hashes, Code)
  {
    HashRun(input, i + 1, i + 1 + hashes);
    RawRun(input, i + 2 + hashes, end, hashes);
    hide Mask, BlanksTo, ClosesRaw;
    assert CodeStep(input, i) == Step(i + 2 + hashes, RawString(hashes), true);
    BlankStep(input, Code, i, end + 1 + hashes, Code);
  }

  lemma {:induction false} EndlessRawRun(input: seq<byte>, j: nat, hashes: nat)
    requires j <= |input| && forall k | j <= k < |input| :: !ClosesRaw(input, k, hashes)
    ensures Mask(input, RawString(hashes), j) == seq(|input| - j, _ => true)
    decreases |input| - j
  {
    if j < |input| {
      EndlessRawRun(input, j + 1, hashes);
    }
  }

  /** So does a raw string that nothing ends. */
  lemma EndlessRawStringIsBlanked(input: seq<byte>, i: nat, hashes: nat)
    requires i + 1 + hashes < |input| && input[i] == LETTER_R
    requires (forall k | i < k < i + 1 + hashes :: input[k] == HASH) && input[i + 1 + hashes] == QUOTE
    requires forall k | i + 1 + hashes < k < |input| :: !ClosesRaw(input, k, hashes)
    ensures Mask(input, Code, i) == seq(|input| - i, _ => true)
  {
    HashRun(input, i + 1, i + 1 + hashes);
    EndlessRawRun(input, i + 2 + hashes, hashes);
    hide ClosesRaw;
    assert CodeStep(input, i) == Step(i + 2 + hashes, RawString(hashes), true);
  }

  // ----- Characters -----

  /** From the quote at i to the quote at end stands one character that no backslash begins. */
  predicate PlainCharacter(input: seq<byte>, i: nat, end: nat) {
    && i + 1 < end < |input| && input[i] == APOSTROPHE && input[end] == APOSTROPHE
    && input[i + 1] != BACKSLASH && end == i + 1 + CharLength(input[i + 1])
  }

  /** The quote at end is the first on its line that no backslash precedes, behind a backslash at i + 1. */
  predicate EscapedCharacter(input: seq<byte>, i: nat, end: nat) {
    && i + 2 < end < |input| && input[i] == APOSTROPHE && input[i + 1] == BACKSLASH
    && input[end] == APOSTROPHE && input[end - 1] != BACKSLASH
    && forall k | i + 2 <= k < end :: input[k] != NEWLINE && (input[k] == APOSTROPHE ==> input[k - 1] == BACKSLASH)
  }

  lemma CharacterEnds(input: seq<byte>, i: nat, end: nat)
    requires PlainCharacter(input, i, end) || EscapedCharacter(input, i, end)
    ensures LiteralEnd(input, i) == Some(end)
  {
    hide EscapeEnd;
    if EscapedCharacter(input, i, end) {
      EscapeRun(input, i + 2, end);
    }
  }

  /** A character literal is blanked from quote to quote, whatever character it holds. */
  lemma CharacterIsBlanked(input: seq<byte>, i: nat, end: nat)
    requires PlainCharacter(input, i, end) || EscapedCharacter(input, i, end)
    ensures BlanksTo(input, Code, i, end + 1, Code)
  {
    CharacterEnds(input, i, end);
    assert i < end < |input| && input[i] == APOSTROPHE;
    Arrives(input, end + 1, Code);
    hide Mask, BlanksTo, LiteralEnd, PlainCharacter, EscapedCharacter;
    BlankStep(input, Code, i, end + 1, Code);
  }

  lemma {:induction false} EscapeRun(input: seq<byte>, j: nat, end: nat)
    requires 0 < j <= end < |input| && Closes(input, end)
    requires forall k | j <= k < end :: input[k] != NEWLINE && !Closes(input, k)
    ensures EscapeEnd(input, j) == end
    decreases end - j
  {
    if j < end {
      EscapeRun(input, j + 1, end);
    }
  }

  /** An apostrophe that opens no character literal, as at a lifetime, is kept like any code. */
  lemma LifetimeIsKept(input: seq<byte>, i: nat)
    requires i < |input| && input[i] == APOSTROPHE
    requires forall end :: !PlainCharacter(input, i, end) && !EscapedCharacter(input, i, end)
    ensures Keeps(input, i)
  {
    LiteralIsCharacter(input, i);
  }

  lemma LiteralIsCharacter(input: seq<byte>, i: nat)
    requires i < |input| && input[i] == APOSTROPHE
    ensures var end := LiteralEnd(input, i);
            end.Some? ==> PlainCharacter(input, i, end.value) || EscapedCharacter(input, i, end.value)
  {
  }

  /** Whatever begins no comment and no literal is kept. */
  lemma PlainCodeIsKept(input: seq<byte>, i: nat)
    requires i < |input| && input[i] != QUOTE && input[i] != APOSTROPHE
    requires input[i] == SLASH && i + 1 < |input| ==> input[i + 1] != SLASH && input[i + 1] != STAR
    requires input[i] == LETTER_R ==>
               forall quote | i < quote < |input| && input[quote] == QUOTE ::
                 exists k | i < k < quote :: input[k] != HASH
    ensures Keeps(input, i)
  {
  }

  // ----- Comments -----

  lemma {:induction false} LineRun(input: seq<byte>, i: nat, end: nat)
    requires i <= end <= |input| && (end == |input| || input[end] == NEWLINE)
    requires forall k | i <= k < end :: input[k] != NEWLINE
    ensures LineEnd(input, i) == end
    decreases end - i
  {
    if i < end {
      LineRun(input, i + 1, end);
    }
  }

  /** A line comment is blanked to the end of its line, which stays. */
  lemma LineCommentIsBlanked(input: seq<byte>, i: nat, end: nat)
    requires Pair(input, i, SLASH, SLASH) && i + 1 < end <= |input| && (end == |input| || input[end] == NEWLINE)
    requires forall k | i <= k < end :: input[k] != NEWLINE
    ensures BlanksTo(input, Code, i, end, Code)
  {
    LineRun(input, i + 1, end);
    Arrives(input, end, Code);
    hide Mask, BlanksTo;
    BlankStep(input, Code, i, end, Code);
  }

  /** What follows a comment's opener: bytes, whole comments inside, and the closer. */
  datatype Comment = Closer | Plain(value: byte, rest: Comment) | Nested(inner: Comment, rest: Comment)

  function Written(comment: Comment): (r: seq<byte>)
    ensures |r| >= 2
  {
    match comment
    case Closer => [STAR, SLASH]
    case Plain(value, rest) => [value] + Written(rest)
    case Nested(inner, rest) => [SLASH, STAR] + Written(inner) + Written(rest)
  }

  /** No plain byte makes an opener or a closer with the byte after it. */
  predicate Proper(comment: Comment) {
    match comment
    case Closer => true
    case Plain(value, rest) =>
      && !(value == SLASH && Written(rest)[0] == STAR)
      && !(value == STAR && Written(rest)[0] == SLASH)
      && Proper(rest)
    case Nested(inner, rest) => Proper(inner) && Proper(rest)
  }

  predicate Holds(input: seq<byte>, i: nat, text: seq<byte>) {
    i + |text| <= |input| && input[i..i + |text|] == text
  }

  function Outside(depth: nat): State {
    if depth <= 1 then Code else BlockComment(depth - 1)
  }

  lemma HoldsParts(input: seq<byte>, i: nat, first: seq<byte>, second: seq<byte>)
    requires Holds(input, i, first + second)
    ensures Holds(input, i, first) && Holds(input, i + |first|, second)
  {
    assert input[i..i + |first| + |second|][..|first|] == first;
    assert input[i..i + |first| + |second|][|first|..] == second;
  }

  lemma HoldsAt(input: seq<byte>, i: nat, text: seq<byte>, k: nat)
    requires Holds(input, i, text) && k < |text|
    ensures i + |text| <= |input| && input[i + k] == text[k]
  {
    assert input[i..i + |text|][k] == text[k];
  }

  lemma Joined(input: seq<byte>, state: State, i: nat, middle: nat, between: State, end: nat, next: State)
    requires BlanksTo(input, state, i, middle, between) && BlanksTo(input, between, middle, end, next)
    ensures BlanksTo(input, state, i, end, next)
  {
    assert seq(middle - i, _ => true) + seq(end - middle, _ => true) == seq(end - i, _ => true);
  }

  /** The scanner's step at the front of a comment's rest. */
  lemma CommentStep(input: seq<byte>, i: nat, depth: nat, comment: Comment)
    requires depth >= 1 && Proper(comment) && Holds(input, i, Written(comment))
    ensures i + 1 < |input|
    ensures StepAt(input, BlockComment(depth), i) ==
            match comment
            case Closer => Step(i + 2, Outside(depth), true)
            case Plain(_, _) => Step(i + 1, BlockComment(depth), true)
            case Nested(_, _) => Step(i + 2, BlockComment(depth + 1), true)
  {
    hide Holds;
    HoldsAt(input, i, Written(comment), 0);
    HoldsAt(input, i, Written(comment), 1);
  }

  lemma NestedParts(input: seq<byte>, i: nat, inner: Comment, rest: Comment)
    requires Holds(input, i, Written(Nested(inner, rest)))
    ensures Holds(input, i + 2, Written(inner)) && Holds(input, i + 2 + |Written(inner)|, Written(rest))
  {
    hide Holds;
    assert Written(Nested(inner, rest)) == [SLASH, STAR] + (Written(inner) + Written(rest));
    HoldsParts(input, i, [SLASH, STAR], Written(inner) + Written(rest));
    HoldsParts(input, i + 2, Written(inner), Written(rest));
  }

  lemma HoldsWithin(input: seq<byte>, i: nat, text: seq<byte>)
    requires Holds(input, i, text)
    ensures i + |text| <= |input|
  {
  }

  lemma {:induction false} CommentRun(input: seq<byte>, i: nat, depth: nat, comment: Comment)
    requires depth >= 1 && Proper(comment) && Holds(input, i, Written(comment))
    ensures BlanksTo(input, BlockComment(depth), i, i + |Written(comment)|, Outside(depth))
    decreases comment
  {
    hide Mask, BlanksTo, Holds, StepAt, Outside;
    var end := i + |Written(comment)|;
    CommentStep(input, i, depth, comment);
    HoldsWithin(input, i, Written(comment));
    match comment {
      case Closer =>
        Arrives(input, end, Outside(depth));
      case Plain(value, rest) =>
        HoldsParts(input, i, [value], Written(rest));
        CommentRun(input, i + 1, depth, rest);
      case Nested(inner, rest) =>
        NestedParts(input, i, inner, rest);
        var middle := i + 2 + |Written(inner)|;
        CommentRun(input, i + 2, depth + 1, inner);
        assert Outside(depth + 1) == BlockComment(depth) by { OutsideOfNested(depth); }
        CommentRun(input, middle, depth, rest);
        Joined(input, BlockComment(depth + 1), i + 2, middle, BlockComment(depth), end, Outside(depth));
    }
    BlankStep(input, BlockComment(depth), i, end, Outside(depth));
  }

  lemma OutsideOfNested(depth: nat)
    requires depth >= 1
    ensures Outside(depth + 1) == BlockComment(depth)
  {
  }

  /** Inside a comment the scanner finds its matching closer or blanks all that is left. */
  lemma {:induction false} CommentOrRest(input: seq<byte>, i: nat, depth: nat) returns (found: Option<Comment>)
    requires depth >= 1 && i <= |input|
    ensures found.Some? ==> Proper(found.value) && Holds(input, i, Written(found.value))
    ensures found.None? ==> Mask(input, BlockComment(depth), i) == seq(|input| - i, _ => true)
    decreases |input| - i
  {
    hide Written, Proper, Mask;
    if i == |input| {
      found := None;
      RestMask(input, BlockComment(depth), i);
    } else if Pair(input, i, SLASH, STAR) {
      var inner := CommentOrRest(input, i + 2, depth + 1);
      if inner.Some? {
        CommentRun(input, i + 2, depth + 1, inner.value);
        OutsideOfNested(depth);
        var middle := i + 2 + |Written(inner.value)|;
        var rest := CommentOrRest(input, middle, depth);
        if rest.Some? {
          found := Some(Nested(inner.value, rest.value));
          NestedIsFound(input, i, inner.value, rest.value);
        } else {
          found := None;
          JoinedRest(input, BlockComment(depth + 1), i + 2, middle, BlockComment(depth));
          RestMask(input, BlockComment(depth), i);
        }
      } else {
        found := None;
        RestMask(input, BlockComment(depth), i);
      }
    } else if Pair(input, i, STAR, SLASH) {
      found := Some(Closer);
      CloserIsFound(input, i);
    } else {
      var rest := CommentOrRest(input, i + 1, depth);
      if rest.Some? {
        found := Some(Plain(input[i], rest.value));
        PlainIsFound(input, i, rest.value);
      } else {
        found := None;
        RestMask(input, BlockComment(depth), i);
      }
    }
  }

  /** One blanked step before a rest that is blanked whole. */
  lemma RestMask(input: seq<byte>, state: State, i: nat)
    requires i <= |input|
    requires i < |input| ==>
               var step := StepAt(input, state, i);
               step.blank && Mask(input, step.state, step.next) == seq(|input| - step.next, _ => true)
    ensures Mask(input, state, i) == seq(|input| - i, _ => true)
  {
  }

  lemma JoinedRest(input: seq<byte>, state: State, i: nat, middle: nat, between: State)
    requires BlanksTo(input, state, i, middle, between)
    requires Mask(input, between, middle) == seq(|input| - middle, _ => true)
    ensures Mask(input, state, i) == seq(|input| - i, _ => true)
  {
  }

  lemma CloserIsFound(input: seq<byte>, i: nat)
    requires Pair(input, i, STAR, SLASH)
    ensures Proper(Closer) && Holds(input, i, Written(Closer))
  {
  }

  lemma PlainIsFound(input: seq<byte>, i: nat, rest: Comment)
    requires i < |input| && !Pair(input, i, SLASH, STAR) && !Pair(input, i, STAR, SLASH)
    requires Proper(rest) && Holds(input, i + 1, Written(rest))
    ensures Proper(Plain(input[i], rest)) && Holds(input, i, Written(Plain(input[i], rest)))
  {
    HoldsAt(input, i + 1, Written(rest), 0);
    assert input[i..i + 1 + |Written(rest)|] == [input[i]] + input[i + 1..i + 1 + |Written(rest)|];
  }

  lemma HoldsTogether(input: seq<byte>, i: nat, first: seq<byte>, second: seq<byte>)
    requires Holds(input, i, first) && Holds(input, i + |first|, second)
    ensures Holds(input, i, first + second)
  {
    assert input[i..i + |first| + |second|] == input[i..i + |first|] + input[i + |first|..i + |first| + |second|];
  }

  lemma NestedIsFound(input: seq<byte>, i: nat, inner: Comment, rest: Comment)
    requires Pair(input, i, SLASH, STAR) && Proper(inner) && Proper(rest)
    requires Holds(input, i + 2, Written(inner)) && Holds(input, i + 2 + |Written(inner)|, Written(rest))
    ensures Proper(Nested(inner, rest)) && Holds(input, i, Written(Nested(inner, rest)))
  {
    assert Written(Nested(inner, rest)) == [SLASH, STAR] + (Written(inner) + Written(rest));
    assert Holds(input, i, [SLASH, STAR]);
    hide Written, Holds;
    HoldsTogether(input, i + 2, Written(inner), Written(rest));
    HoldsTogether(input, i, [SLASH, STAR], Written(inner) + Written(rest));
  }

  /** A block comment that nothing closes takes the rest of the text. */
  lemma EndlessCommentIsBlanked(input: seq<byte>, i: nat)
    requires Pair(input, i, SLASH, STAR)
    requires forall comment :: Proper(comment) ==> !Holds(input, i + 2, Written(comment))
    ensures Mask(input, Code, i) == seq(|input| - i, _ => true)
  {
    var found := CommentOrRest(input, i + 2, 1);
  }

  /** A block comment is blanked to the closer that matches its opener, however deep comments nest in it. */
  lemma NestedCommentIsBlanked(input: seq<byte>, i: nat, comment: Comment)
    requires Proper(comment) && Holds(input, i, [SLASH, STAR] + Written(comment))
    ensures BlanksTo(input, Code, i, i + 2 + |Written(comment)|, Code)
  {
    hide Mask, BlanksTo, Holds, Written, Proper;
    var text := [SLASH, STAR] + Written(comment);
    HoldsAt(input, i, text, 0);
    HoldsAt(input, i, text, 1);
    HoldsParts(input, i, [SLASH, STAR], Written(comment));
    CommentRun(input, i + 2, 1, comment);
    BlankStep(input, Code, i, i + 2 + |Written(comment)|, Code);
  }
}
