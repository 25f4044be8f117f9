/** The expressions the scanner matches at its position; past its end the text reads as EOF. */
module Exp {
  const EOF: char := '\U{0004}'

  function At(t: string, i: nat): char {
    if i < |t| then t[i] else EOF
  }

  predicate OneOf(c: char, set_: string) {
    c in set_
  }

  predicate IsBlank(c: char) {
    c == ' ' || c == '\t'
  }

  predicate IsBreak(c: char) {
    c == '\n' || c == '\r'
  }

  predicate IsBlankOrBreak(c: char) {
    IsBlank(c) || IsBreak(c)
  }

  predicate IsDigit(c: char) {
    '0' <= c <= '9'
  }

  predicate IsHex(c: char) {
    IsDigit(c) || 'A' <= c <= 'F' || 'a' <= c <= 'f'
  }

  predicate IsWord(c: char) {
    'a' <= c <= 'z' || 'A' <= c <= 'Z' || IsDigit(c) || c == '-'
  }

  /** The length of the line break here, 0 if there is none. */
  function Break(t: string, i: nat): (n: nat)
    ensures n > 0 <==> IsBreak(At(t, i))
    ensures i + n <= |t| || n == 0
  {
    if At(t, i) == '\n' then 1
    else if At(t, i) == '\r' && At(t, i + 1) == '\n' then 2
    else if At(t, i) == '\r' then 1
    else 0
  }

  predicate Separated(t: string, i: nat) {
    IsBlankOrBreak(At(t, i)) || At(t, i) == EOF
  }

  predicate DocStart(t: string, i: nat) {
    At(t, i) == '-' && At(t, i + 1) == '-' && At(t, i + 2) == '-' && Separated(t, i + 3)
  }

  predicate DocEnd(t: string, i: nat) {
    At(t, i) == '.' && At(t, i + 1) == '.' && At(t, i + 2) == '.' && Separated(t, i + 3)
  }

  predicate DocIndicator(t: string, i: nat) {
    DocStart(t, i) || DocEnd(t, i)
  }

  predicate BlockEntry(t: string, i: nat) {
    At(t, i) == '-' && Separated(t, i + 1)
  }

  predicate Key(t: string, i: nat) {
    At(t, i) == '?' && IsBlankOrBreak(At(t, i + 1))
  }

  predicate Value(t: string, i: nat) {
    At(t, i) == ':' && Separated(t, i + 1)
  }

  predicate ValueInFlow(t: string, i: nat) {
    At(t, i) == ':' && (IsBlankOrBreak(At(t, i + 1)) || OneOf(At(t, i + 1), ",]}"))
  }

  predicate ValueInJSONFlow(t: string, i: nat) {
    At(t, i) == ':'
  }

  predicate Anchor(t: string, i: nat) {
    !OneOf(At(t, i), "[]{},") && !IsBlankOrBreak(At(t, i))
  }

  predicate AnchorEnd(t: string, i: nat) {
    OneOf(At(t, i), "?:,]}%@`") || IsBlankOrBreak(At(t, i))
  }

  predicate PercentEscape(t: string, i: nat) {
    At(t, i) == '%' && IsHex(At(t, i + 1)) && IsHex(At(t, i + 2))
  }

  function URI(t: string, i: nat): (n: nat)
    ensures n > 0 ==> i + n <= |t|
  {
    if IsWord(At(t, i)) || OneOf(At(t, i), "#;/?:@&=+$,_.!~*'()[]") then 1 else if PercentEscape(t, i) then 3 else 0
  }

  function Tag(t: string, i: nat): (n: nat)
    ensures n > 0 ==> i + n <= |t|
  {
    if IsWord(At(t, i)) || OneOf(At(t, i), "#;/?:@&=+$_.~*'()") then 1 else if PercentEscape(t, i) then 3 else 0
  }

  const PLAIN_EXCLUDED: string := ",[]{}#&*!|>'\"%@`"

  predicate PlainScalar(t: string, i: nat) {
    && !IsBlankOrBreak(At(t, i)) && !OneOf(At(t, i), PLAIN_EXCLUDED)
    && !(OneOf(At(t, i), "-?:") && Separated(t, i + 1))
  }

  predicate PlainScalarInFlow(t: string, i: nat) {
    && !IsBlankOrBreak(At(t, i)) && !OneOf(At(t, i), "?" + PLAIN_EXCLUDED)
    && !(OneOf(At(t, i), "-:") && (IsBlank(At(t, i + 1)) || At(t, i + 1) == EOF))
  }

  predicate CommentAfterBlank(t: string, i: nat) {
    IsBlankOrBreak(At(t, i)) && At(t, i + (if Break(t, i) == 2 then 2 else 1)) == '#'
  }

  predicate ScanScalarEnd(t: string, i: nat) {
    Value(t, i) || CommentAfterBlank(t, i)
  }

  predicate ScanScalarEndInFlow(t: string, i: nat) {
    || (At(t, i) == ':' && (Separated(t, i + 1) || OneOf(At(t, i + 1), ",]}")))
    || OneOf(At(t, i), ",?[]{}") || CommentAfterBlank(t, i)
  }

  predicate EscBreak(t: string, i: nat) {
    At(t, i) == '\\' && IsBreak(At(t, i + 1))
  }

  /** Chomping and indentation indicators of a block scalar, in either order. */
  function Chomp(t: string, i: nat): nat {
    if OneOf(At(t, i), "+-") then if IsDigit(At(t, i + 1)) then 2 else 1
    else if IsDigit(At(t, i)) then if OneOf(At(t, i + 1), "+-") then 2 else 1
    else 0
  }
}
