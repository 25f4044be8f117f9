/**
 * Writing quoted scalars, and what they read as: a quoted scalar on one line is a sequence of raw
 * characters and escape sequences. Sections 5.7, 7.3.1 and 7.3.2 of YAML 1.2.
 */
module QuotedScalars {
  import opened Exp
  import opened Utf8
  import opened Escaping

  datatype Quote = Single | Double

  function QuoteChar(q: Quote): char {
    if q.Single? then '\'' else '"'
  }

  function EscapeChar(q: Quote): char {
    if q.Single? then '\'' else '\\'
  }

  /** The closing quote is at i; a single quote must not be one of a pair. */
  predicate Closes(t: string, i: nat, q: Quote) {
    At(t, i) == QuoteChar(q) && (q.Single? ==> At(t, i + 1) != '\'')
  }

  datatype Line = NotOnOneLine | Line(value: string, end: nat)

  /** The scalar whose content begins at i, when its closing quote comes before any line break. */
  function OneLine(t: string, i: nat, q: Quote): Line
    decreases |t| - i
  {
    if i >= |t| then NotOnOneLine
    else if Closes(t, i, q) then Line("", i)
    else if IsBreak(t[i]) then NotOnOneLine
    else if t[i] == EscapeChar(q) then
      var e := EscapeAt(t, i);
      if e.BadEscape? || e.next <= i then NotOnOneLine else Prepend(e.value, OneLine(t, e.next, q))
    else Prepend([t[i]], OneLine(t, i + 1, q))
  }

  function Prepend(s: string, l: Line): Line {
    if l.NotOnOneLine? then l else Line(s + l.value, l.end)
  }

  // Writing

  function DoubleQuotedChar(c: Character, style: StringEscaping): string {
    if c == '"' as int then "\\\""
    else if c == '\\' as int then "\\\\"
    else if c == '\n' as int then "\\n"
    else if c == '\t' as int then "\\t"
    else if c == '\r' as int then "\\r"
    else if c == 8 then "\\b"
    else if c == 12 then "\\f"
    else if c < 0x20 || 0x80 <= c <= 0xA0 || c == 0xFEFF || (style == NonAscii && c > 0x7E) then EscapeSequence(c, style)
    else Encode(c)
  }

  function SingleQuotedChar(c: Character): string {
    if c == '\'' as int then "''" else Encode(c)
  }

  function QuotedChar(c: Character, q: Quote, style: StringEscaping): string {
    if q.Single? then SingleQuotedChar(c) else DoubleQuotedChar(c, style)
  }

  function QuotedAll(codePoints: seq<Character>, q: Quote, style: StringEscaping): string {
    if codePoints == [] then "" else QuotedChar(codePoints[0], q, style) + QuotedAll(codePoints[1..], q, style)
  }

  lemma {:induction false} QuotedSnoc(codePoints: seq<Character>, c: Character, q: Quote, style: StringEscaping)
    ensures QuotedAll(codePoints + [c], q, style) == QuotedAll(codePoints, q, style) + QuotedChar(c, q, style)
  {
    hide QuotedChar;
    if codePoints == [] {
      assert codePoints + [c] == [c];
    } else {
      QuotedSnoc(codePoints[1..], c, q, style);
      assert (codePoints + [c])[1..] == codePoints[1..] + [c];
    }
  }

  /** The code points before and from i on, as a writer's loop meets them. */
  ghost predicate Reading(s: string, i: nat, done: seq<Character>) {
    i <= |s| && CodePoints(s, 0) == done + CodePoints(s, i)
  }

  lemma ReadOn(s: string, i: nat, done: seq<Character>)
    requires Reading(s, i, done) && i < |s|
    ensures Decode(s, i).1 <= |s| && IsCharacter(Decode(s, i).0) && Reading(s, Decode(s, i).1, done + [Decode(s, i).0])
  {
    DecodeBounds(s, i);
    var (c, j) := Decode(s, i);
    assert done + ([c] + CodePoints(s, j)) == (done + [c]) + CodePoints(s, j);
  }

  /** The body of the loop of WriteDoubleQuotedString. */
  method WriteDoubleQuotedChar(codePoint: Character, style: StringEscaping) returns (out: string)
    ensures out == DoubleQuotedChar(codePoint, style)
  {
    if codePoint == '"' as int {
      out := "\\\"";
    } else if codePoint == '\\' as int {
      out := "\\\\";
    } else if codePoint == '\n' as int {
      out := "\\n";
    } else if codePoint == '\t' as int {
      out := "\\t";
    } else if codePoint == '\r' as int {
      out := "\\r";
    } else if codePoint == 8 {
      out := "\\b";
    } else if codePoint == 12 {
      out := "\\f";
    } else if codePoint < 0x20 || 0x80 <= codePoint <= 0xA0 {
      out := WriteEscapeSequence(codePoint, style);
    } else if codePoint == 0xFEFF {
      out := WriteEscapeSequence(codePoint, style);
    } else if style == NonAscii && codePoint > 0x7E {
      out := WriteEscapeSequence(codePoint, style);
    } else {
      out := Written(codePoint);
    }
  }

  method WriteDoubleQuotedString(s: string, style: StringEscaping) returns (out: string)
    ensures out == "\"" + QuotedAll(CodePoints(s, 0), Double, style) + "\""
  {
    hide DoubleQuotedChar;
    out := "\"";
    var i := 0;
    ghost var done: seq<Character> := [];
    while true
      invariant i <= |s| && Reading(s, i, done)
      invariant out == "\"" + QuotedAll(done, Double, style)
      decreases |s| - i
    {
      var more, codePoint, next := GetNextCodePointAndAdvance(s, i);
      if !more {
        break;
      }
      ReadOn(s, i, done);
      QuotedSnoc(done, codePoint, Double, style);
      done := done + [codePoint];
      i := next;
      var w := WriteDoubleQuotedChar(codePoint, style);
      out := out + w;
    }
    assert done == CodePoints(s, 0);
    out := out + "\"";
  }

  method WriteSingleQuotedString(s: string) returns (ok: bool, out: string)
    ensures ok <==> '\n' as int !in CodePoints(s, 0)
    ensures ok ==> out == "'" + QuotedAll(CodePoints(s, 0), Single, Plain) + "'"
  {
    out := "'";
    var i := 0;
    ghost var done: seq<Character> := [];
    while true
      invariant i <= |s| && Reading(s, i, done) && '\n' as int !in done
      invariant out == "'" + QuotedAll(done, Single, Plain)
      decreases |s| - i
    {
      var more, codePoint, next := GetNextCodePointAndAdvance(s, i);
      if !more {
        break;
      }
      ReadOn(s, i, done);
      QuotedSnoc(done, codePoint, Single, Plain);
      if codePoint == '\n' as int {
        return false, out;
      }
      done := done + [codePoint];
      i := next;
      out := out + if codePoint == '\'' as int then "''" else Written(codePoint);
    }
    assert done == CodePoints(s, 0);
    ok, out := true, out + "'";
  }

  // Reading back

  /** Characters that stand for themselves between the quotes. */
  ghost predicate Raw(w: string, q: Quote) {
    forall k :: 0 <= k < |w| ==> !IsBreak(w[k]) && w[k] != QuoteChar(q) && w[k] != EscapeChar(q)
  }

  lemma {:induction false} RawReads(t: string, i: nat, w: string, q: Quote)
    requires HasAt(t, i, w) && Raw(w, q)
    ensures OneLine(t, i, q) == Prepend(w, OneLine(t, i + |w|, q))
    decreases |w|
  {
    if w != "" {
      var v := w[1..];
      HasBoth(t, i, [w[0]], v);
      assert [w[0]] + v == w;
      RawReads(t, i + 1, v, q);
      RawStep(t, i, q);
      hide OneLine, Raw, Prepend;
      PrependTwice([w[0]], v, OneLine(t, i + |w|, q));
    } else {
      PrependNothing(OneLine(t, i, q));
    }
  }

  lemma HasBoth(t: string, i: nat, w: string, v: string)
    requires HasAt(t, i, w + v)
    ensures HasAt(t, i, w) && HasAt(t, i + |w|, v)
    ensures |w| == 1 ==> t[i] == w[0]
  {
    assert t[i..i + |w|] == t[i..i + |w + v|][..|w|];
    assert t[i + |w|..i + |w| + |v|] == t[i..i + |w + v|][|w|..];
  }

  lemma RawStep(t: string, i: nat, q: Quote)
    requires i < |t| && Raw([t[i]], q)
    ensures OneLine(t, i, q) == Prepend([t[i]], OneLine(t, i + 1, q))
  {
    assert [t[i]][0] == t[i];
  }

  lemma PrependTwice(a: string, b: string, l: Line)
    ensures Prepend(a, Prepend(b, l)) == Prepend(a + b, l)
  {
    if l.Line? {
      assert a + (b + l.value) == a + b + l.value;
    }
  }

  lemma PrependNothing(l: Line)
    ensures Prepend("", l) == l
  {
    if l.Line? {
      assert "" + l.value == l.value;
    }
  }

  lemma HighBytesAreRaw(c: Character, q: Quote)
    requires c >= 0x80
    ensures Raw(Encode(c), q)
  {
  }

  lemma {:induction false} CharsOf(t: string, i: nat, w: string)
    requires HasAt(t, i, w)
    ensures Chars(t, i, |w|) == w
    decreases |w|
  {
    if w != "" {
      var n := |w| - 1;
      assert t[i..i + n] == t[i..i + |w|][..n];
      CharsOf(t, i, w[..n]);
      assert t[i + n] == t[i..i + |w|][n];
    }
  }

  /** c is written at i as w, and what follows is still to be read. */
  ghost predicate ReadsAs(t: string, i: nat, w: string, q: Quote, c: Character) {
    |w| > 0 && OneLine(t, i, q) == Prepend(Encode(c), OneLine(t, i + |w|, q))
  }

  predicate HexLetter(letter: char, digits: nat) {
    (letter == 'x' && digits == 2) || (letter == 'u' && digits == 4) || (letter == 'U' && digits == 8)
  }

  lemma HexEscapeReads(t: string, i: nat, c: Character, letter: char, digits: nat)
    requires HasAt(t, i, "\\" + [letter] + HexDigits(c, digits)) && c < Pow16(digits) && HexLetter(letter, digits)
    ensures EscapeAt(t, i) == Escaped(Encode(c), i + 2 + digits) && i < |t| && t[i] == '\\'
  {
    var h := HexDigits(c, digits);
    HexDigitsReadBack(c, digits);
    hide HexDigits, HexValue, Chars, Encode, Pow16, EscapeAt, HexLetter, HexEscapeAt;
    HasLetter(t, i, letter, h);
    hide HasAt;
    CharsOf(t, i + 2, h);
    HexEscapeFits(t, i + 2, c, digits);
    HexLetterEscapes(t, i, letter, digits);
  }

  lemma HasLetter(t: string, i: nat, letter: char, digits: string)
    requires HasAt(t, i, "\\" + [letter] + digits)
    ensures i < |t| && t[i] == '\\' && At(t, i + 1) == letter && HasAt(t, i + 2, digits)
  {
    assert "\\" + [letter] + digits == "\\" + ([letter] + digits);
    HasBoth(t, i, "\\", [letter] + digits);
    HasBoth(t, i + 1, [letter], digits);
  }

  lemma HexLetterEscapes(t: string, i: nat, letter: char, digits: nat)
    requires At(t, i) == '\\' && At(t, i + 1) == letter && HexLetter(letter, digits)
    ensures EscapeAt(t, i) == HexEscapeAt(t, i + 2, digits)
  {
    hide HexEscapeAt;
  }

  lemma HexEscapeFits(t: string, i: nat, c: Character, digits: nat)
    requires HexValue(Chars(t, i, digits)) == Hex(c)
    ensures HexEscapeAt(t, i, digits) == Escaped(Encode(c), i + digits)
  {
  }

  /**
   * What is written for a code point reads as its UTF-8, unless it is a pair: that begins with a backslash too
   * many, so its second half is read as an escape sequence of its own, for half a character, which throws.
   */
  lemma EscapeSequenceReads(t: string, i: nat, c: Character, style: StringEscaping)
    requires HasAt(t, i, EscapeSequence(c, style))
    ensures if TakesPair(c, style) then OneLine(t, i, Double).NotOnOneLine? else ReadsAs(t, i, EscapeSequence(c, style), Double, c)
  {
    if TakesPair(c, style) {
      PairThrows(t, i, c);
    } else {
      OneSequenceReads(t, i, c, style);
    }
  }

  lemma SequenceIs(c: Character, style: StringEscaping) returns (letter: char, digits: nat)
    requires !TakesPair(c, style)
    ensures EscapeSequence(c, style) == "\\" + [letter] + HexDigits(c, digits) && |EscapeSequence(c, style)| == 2 + digits
    ensures c < Pow16(digits) && HexLetter(letter, digits)
  {
    hide HexDigits, Pow16, HexValue;
    letter, digits := if c < 0xFF && style != JSON then 'x' else if c < 0xFFFF then 'u' else 'U',
                      if c < 0xFF && style != JSON then 2 else if c < 0xFFFF then 4 else 8;
    EscapeLength(c, digits);
    HexDigitsReadBack(c, digits);
  }

  lemma OneSequenceReads(t: string, i: nat, c: Character, style: StringEscaping)
    requires !TakesPair(c, style) && HasAt(t, i, EscapeSequence(c, style))
    ensures ReadsAs(t, i, EscapeSequence(c, style), Double, c)
  {
    hide EscapeAt, Encode, Pow16, OneLine, HasAt, EscapeSequence, HexLetter, HexDigits;
    var letter, digits := SequenceIs(c, style);
    HexEscapeReads(t, i, c, letter, digits);
    EscapeGoesOn(t, i, Encode(c), i + 2 + digits);
  }

  lemma EscapeGoesOn(t: string, i: nat, value: string, next: nat)
    requires i < next && i < |t| && t[i] == '\\' && EscapeAt(t, i) == Escaped(value, next)
    ensures OneLine(t, i, Double) == Prepend(value, OneLine(t, next, Double))
  {
    hide EscapeAt, Prepend;
  }

  lemma PairThrows(t: string, i: nat, c: Character)
    requires TakesPair(c, JSON) && HasAt(t, i, EscapeSequence(c, JSON))
    ensures OneLine(t, i, Double).NotOnOneLine?
  {
    hide HexDigits, OneLine, EscapeAt, HexValue, Pow16;
    var lead, trail := HexDigits(LeadOf(c), 4), HexDigits(TrailOf(c), 4);
    EscapeLength(LeadOf(c), 4);
    EscapeLength(TrailOf(c), 4);
    HexDigitsReadBack(LeadOf(c), 4);
    HexDigitsReadBack(TrailOf(c), 4);
    PairText(c);
    HasBoth(t, i, "\\\\", "u" + lead + ("\\u" + trail));
    HasBoth(t, i + 2, "u" + lead, "\\u" + trail);
    HasBoth(t, i + 7, "\\u", trail);
    DigitsAreRaw(lead);
    RawReads(t, i + 2, "u" + lead, Double);
    CharsOf(t, i + 9, trail);
    HalfThrows(t, i + 7, TrailOf(c));
    BackslashFirst(t, i);
    hide Prepend, HasAt, Raw;
    PrependNone("u" + lead);
    PrependNone("\\");
  }

  lemma PairText(c: Character)
    requires TakesPair(c, JSON)
    ensures EscapeSequence(c, JSON) ==
            "\\\\" + ("u" + HexDigits(LeadOf(c), 4) + ("\\u" + HexDigits(TrailOf(c), 4)))
  {
    hide HexDigits;
    var lead, trail := HexDigits(LeadOf(c), 4), HexDigits(TrailOf(c), 4);
    assert EscapeSequence(LeadOf(c), JSON) == "\\u" + lead && EscapeSequence(TrailOf(c), JSON) == "\\u" + trail;
    assert "\\" + ("\\u" + lead) + ("\\u" + trail) == "\\\\" + ("u" + lead + ("\\u" + trail));
  }

  lemma DigitsAreRaw(s: string)
    requires HexValue(s).Hex?
    ensures Raw("u" + s, Double)
  {
    HexHasNoBreak(s);
  }

  lemma HalfThrows(t: string, i: nat, trail: nat)
    requires HasAt(t, i, "\\u") && HexValue(Chars(t, i + 2, 4)) == Hex(trail) && 0xDC00 <= trail <= 0xDFFF
    ensures OneLine(t, i, Double).NotOnOneLine?
  {
    hide HexValue, Chars;
    assert t[i] == t[i..i + 2][0] && t[i + 1] == t[i..i + 2][1];
  }

  lemma BackslashFirst(t: string, i: nat)
    requires HasAt(t, i, "\\\\")
    ensures OneLine(t, i, Double) == Prepend("\\", OneLine(t, i + 2, Double))
  {
    assert t[i] == t[i..i + 2][0] && t[i + 1] == t[i..i + 2][1];
    assert EscapeAt(t, i) == Escaped("\\", i + 2);
  }

  lemma PrependNone(s: string)
    ensures Prepend(s, NotOnOneLine).NotOnOneLine?
  {
  }

  lemma EscapeLength(c: nat, digits: nat)
    requires c <= 0x10FFFF
    requires digits == 8 || (digits == 4 && c < 0xFFFF) || (digits == 2 && c < 0xFF)
    ensures c < Pow16(digits)
  {
    assert Pow16(2) == 0x100;
    assert Pow16(4) == 0x1_0000;
    assert Pow16(6) == 0x100_0000;
    Pow16Grows(6);
  }

  lemma Pow16Grows(n: nat)
    ensures Pow16(n) <= Pow16(n + 2)
  {
    assert Pow16(n + 2) == 16 * Pow16(n + 1);
  }

  lemma ShortEscapeReads(t: string, i: nat, c: Character, style: StringEscaping)
    requires c == '"' as int || c == '\\' as int || c == '\n' as int || c == '\t' as int || c == '\r' as int || c == 8 || c == 12
    requires HasAt(t, i, DoubleQuotedChar(c, style))
    ensures ReadsAs(t, i, DoubleQuotedChar(c, style), Double, c)
  {
    assert t[i] == t[i..i + 2][0] && t[i + 1] == t[i..i + 2][1];
    assert EscapeAt(t, i) == Escaped(Encode(c), i + 2);
    hide EscapeAt, Encode;
  }

  /** One written code point, read back. */
  lemma DoubleQuotedCharReads(t: string, i: nat, c: Character, style: StringEscaping)
    requires HasAt(t, i, DoubleQuotedChar(c, style))
    ensures ReadsAs(t, i, DoubleQuotedChar(c, style), Double, c)
  {
    var w := DoubleQuotedChar(c, style);
    if c == '"' as int || c == '\\' as int || c == '\n' as int || c == '\t' as int || c == '\r' as int || c == 8 || c == 12 {
      ShortEscapeReads(t, i, c, style);
    } else if c < 0x20 || 0x80 <= c <= 0xA0 || c == 0xFEFF || (style == NonAscii && c > 0x7E) {
      EscapeSequenceReads(t, i, c, style);
    } else {
      if c >= 0x80 {
        HighBytesAreRaw(c, Double);
      }
      EncodeNotEmpty(c);
      RawReads(t, i, w, Double);
    }
  }

  lemma SingleQuotedCharReads(t: string, i: nat, c: Character)
    requires HasAt(t, i, SingleQuotedChar(c)) && c != '\n' as int && c != '\r' as int
    ensures ReadsAs(t, i, SingleQuotedChar(c), Single, c)
  {
    if c == '\'' as int {
      assert t[i] == t[i..i + 2][0] && t[i + 1] == t[i..i + 2][1];
    } else {
      if c >= 0x80 {
        HighBytesAreRaw(c, Single);
      }
      EncodeNotEmpty(c);
      RawReads(t, i, Encode(c), Single);
    }
  }

  /** What a quoted writer put between the quotes reads as the UTF-8 of the code points. */
  lemma {:induction false} QuotedReadsBack(t: string, i: nat, codePoints: seq<Character>, q: Quote, style: StringEscaping)
    requires i <= |t| && HasAt(t, i, QuotedAll(codePoints, q, style)) && Closes(t, i + |QuotedAll(codePoints, q, style)|, q)
    requires q.Single? ==> '\n' as int !in codePoints && '\r' as int !in codePoints
    ensures OneLine(t, i, q) == Line(EncodeAll(codePoints), i + |QuotedAll(codePoints, q, style)|)
    decreases |codePoints|
  {
    hide QuotedChar, Encode, OneLine, Closes;
    if codePoints != [] {
      var c, rest := codePoints[0], codePoints[1..];
      var w, v := QuotedChar(c, q, style), QuotedAll(rest, q, style);
      HasBoth(t, i, w, v);
      QuotedCharReads(t, i, c, q, style);
      QuotedReadsBack(t, i + |w|, rest, q, style);
    } else {
      ClosedAtOnce(t, i, q);
    }
  }

  lemma ClosedAtOnce(t: string, i: nat, q: Quote)
    requires Closes(t, i, q)
    ensures OneLine(t, i, q) == Line("", i)
  {
    hide EscapeAt;
  }

  lemma QuotedCharReads(t: string, i: nat, c: Character, q: Quote, style: StringEscaping)
    requires HasAt(t, i, QuotedChar(c, q, style)) && (q.Single? ==> c != '\n' as int && c != '\r' as int)
    ensures ReadsAs(t, i, QuotedChar(c, q, style), q, c)
  {
    if q.Single? {
      SingleQuotedCharReads(t, i, c);
    } else {
      DoubleQuotedCharReads(t, i, c, style);
    }
  }
}
