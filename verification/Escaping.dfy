/** Escape sequences of quoted scalars: what exp.cpp reads and what emitterutils.cpp writes. */
module Escaping {
  import opened Exp
  import opened ScannerState
  import opened Streaming
  import opened Utf8

  datatype Escaped = BadEscape | Escaped(value: string, next: nat)

  datatype Hex = NotHex | Hex(value: nat)

  function DigitOf(c: char): Hex {
    if 'a' <= c <= 'f' then Hex(c as int - 'a' as int + 10)
    else if 'A' <= c <= 'F' then Hex(c as int - 'A' as int + 10)
    else if '0' <= c <= '9' then Hex(c as int - '0' as int)
    else NotHex
  }

  /** The number a string of hexadecimal digits stands for. */
  function HexValue(s: string): Hex {
    if s == "" then Hex(0)
    else
      var last := |s| - 1;
      if HexValue(s[..last]).NotHex? || DigitOf(s[last]).NotHex? then NotHex
      else Hex(HexValue(s[..last]).value * 16 + DigitOf(s[last]).value)
  }

  function Pow16(n: nat): (r: nat)
    ensures r >= 1
  {
    if n == 0 then 1 else 16 * Pow16(n - 1)
  }

  /** So the unsigned accumulator of ParseHex does not wrap on the eight digits there are at most. */
  lemma {:induction false} HexFits(s: string)
    ensures HexValue(s).Hex? ==> HexValue(s).value < Pow16(|s|)
  {
    if s != "" {
      HexFits(s[..|s| - 1]);
    }
  }

  lemma NoDigit(s: string)
    ensures s[..0] == "" && HexValue("") == Hex(0)
  {
  }

  lemma OneDigitMore(s: string, i: nat)
    requires i < |s| && HexValue(s[..i]).Hex?
    ensures HexValue(s[..i + 1]) ==
            if DigitOf(s[i]).NotHex? then NotHex else Hex(HexValue(s[..i]).value * 16 + DigitOf(s[i]).value)
  {
    assert s[..i + 1][..i] == s[..i];
    hide DigitOf;
  }

  /** The accumulator is unsigned and wraps; up to eight digits it holds the number itself. */
  method ParseHex(s: string) returns (r: Hex)
    ensures r == if HexValue(s).Hex? then Hex(HexValue(s).value % 0x1_0000_0000) else NotHex
    ensures |s| <= 8 ==> r == HexValue(s)
  {
    hide HexValue, DigitOf;
    var value := 0;
    NoDigit(s);
    for i := 0 to |s|
      invariant value >= 0 && HexValue(s[..i]).Hex? && value == HexValue(s[..i]).value % 0x1_0000_0000
    {
      var digit := DigitOf(s[i]);
      OneDigitMore(s, i);
      if digit.NotHex? {
        NotHexStays(s, i + 1);
        return NotHex;
      }
      Wraps(HexValue(s[..i]).value, digit.value);
      value := (value * 16 + digit.value) % 0x1_0000_0000;
    }
    assert s[..|s|] == s;
    HexFits(s);
    if |s| <= 8 {
      Pow16Bound(|s|);
    }
    r := Hex(value);
  }

  lemma Wraps(value: nat, digit: nat)
    ensures (value % 0x1_0000_0000 * 16 + digit) % 0x1_0000_0000 == (value * 16 + digit) % 0x1_0000_0000
  {
    var low, high := value % 0x1_0000_0000, value / 0x1_0000_0000;
    assert value * 16 + digit == (low * 16 + digit) + 16 * high * 0x1_0000_0000;
  }

  lemma Pow16Bound(n: nat)
    requires n <= 8
    ensures Pow16(n) <= 0x1_0000_0000
  {
    assert Pow16(4) == 0x1_0000;
    if n > 4 {
      assert Pow16(8) == 0x1_0000_0000;
    }
  }

  lemma {:induction false} NotHexStays(s: string, n: nat)
    requires n <= |s| && HexValue(s[..n]).NotHex?
    ensures HexValue(s).NotHex?
    decreases |s|
  {
    if n == |s| {
      assert s[..n] == s;
    } else {
      assert s[..|s| - 1][..n] == s[..n];
      NotHexStays(s[..|s| - 1], n);
    }
  }

  function Chars(t: string, i: nat, n: nat): string {
    if n == 0 then "" else Chars(t, i, n - 1) + [At(t, i + n - 1)]
  }

  lemma {:induction false} CharsAt(t: string, i: nat, n: nat, s: string)
    requires |s| == n && forall k :: 0 <= k < n ==> s[k] == At(t, i + k)
    ensures Chars(t, i, n) == s
  {
    if n > 0 {
      CharsAt(t, i, n - 1, s[..n - 1]);
      assert s == s[..n - 1] + [s[n - 1]];
    }
  }

  /** A \x, \u or \U escape whose n digits begin at i. */
  function HexEscapeAt(t: string, i: nat, n: nat): Escaped {
    var h := HexValue(Chars(t, i, n));
    if h.NotHex? || 0xD800 <= h.value <= 0xDFFF || h.value > 0x10FFFF then BadEscape
    else Escaped(Encode(h.value), i + n)
  }

  /** The escape sequence at i, whose first character is the escape character itself. */
  function EscapeAt(t: string, i: nat): (r: Escaped)
    ensures r.Escaped? ==> r.next >= i + 2
  {
    var c := At(t, i + 1);
    if At(t, i) == '\'' && c == '\'' then Escaped("'", i + 2)
    else
      match c
      case '0' => Escaped([Byte(0)], i + 2)
      case 'a' => Escaped([Byte(7)], i + 2)
      case 'b' => Escaped([Byte(8)], i + 2)
      case 't' => Escaped([Byte(9)], i + 2)
      case '\t' => Escaped([Byte(9)], i + 2)
      case 'n' => Escaped([Byte(10)], i + 2)
      case 'v' => Escaped([Byte(11)], i + 2)
      case 'f' => Escaped([Byte(12)], i + 2)
      case 'r' => Escaped([Byte(13)], i + 2)
      case 'e' => Escaped([Byte(0x1B)], i + 2)
      case ' ' => Escaped(" ", i + 2)
      case '"' => Escaped("\"", i + 2)
      case '\'' => Escaped("'", i + 2)
      case '\\' => Escaped("\\", i + 2)
      case '/' => Escaped("/", i + 2)
      case 'N' => Escaped([Byte(0x85)], i + 2)
      case '_' => Escaped([Byte(0xA0)], i + 2)
      case 'L' => Escaped([Byte(0xE2), Byte(0x80), Byte(0xA8)], i + 2)
      case 'P' => Escaped([Byte(0xE2), Byte(0x80), Byte(0xA9)], i + 2)
      case 'x' => HexEscapeAt(t, i + 2, 2)
      case 'u' => HexEscapeAt(t, i + 2, 4)
      case 'U' => HexEscapeAt(t, i + 2, 8)
      case _ => BadEscape
  }

  lemma {:induction false} HexHasNoBreak(s: string)
    requires HexValue(s).Hex?
    ensures forall k :: 0 <= k < |s| ==> IsHex(s[k])
  {
    if s != "" {
      HexHasNoBreak(s[..|s| - 1]);
    }
  }

  /** Where the stream is after n characters that are not line feeds. */
  lemma {:induction false} StaysOnLine(t: string, m: Mark, n: nat)
    requires '\n' !in Chars(t, m.pos, n)
    ensures AfterMany(t, m, n) == Mark(m.pos + n, m.line, m.column + n)
  {
    if n > 0 {
      var s := Chars(t, m.pos, n);
      assert s[|s| - 1] == At(t, m.pos + n - 1);
      StaysOnLine(t, m, n - 1);
    }
  }

  lemma TwoRead(t: string, m: Mark)
    ensures AfterMany(t, m, 2) == After(t, After(t, m))
  {
    assert AfterMany(t, m, 1) == After(t, AfterMany(t, m, 0));
  }

  method HexEscape(input: Stream, codeLength: nat) returns (r: Escaped)
    requires codeLength <= 8
    modifies input
    ensures r == HexEscapeAt(input.text, old(input.pos), codeLength)
    ensures input.Here() == AfterMany(input.text, old(input.Here()), codeLength)
  {
    var s := input.GetString(codeLength);
    CharsAt(input.text, old(input.pos), codeLength, s);
    var h := ParseHex(s);
    if h.NotHex? || 0xD800 <= h.value <= 0xDFFF || h.value > 0x10FFFF {
      return BadEscape;
    }
    r := Escaped(Encode(h.value), input.pos);
  }

  /** Escape: reads the sequence at the stream's position. */
  method Escape(input: Stream) returns (r: Escaped)
    modifies input
    ensures r == EscapeAt(input.text, old(input.pos)) && input.pos >= old(input.pos) + 2
    ensures r.Escaped? ==> input.Here() == AfterMany(input.text, old(input.Here()), r.next - old(input.pos))
  {
    hide AfterMany;
    ghost var here := input.Here();
    var escape := input.Get();
    var c := input.Get();
    TwoRead(input.text, here);
    AfterMore(input.text, here, 2, 2);
    AfterMore(input.text, here, 2, 4);
    AfterMore(input.text, here, 2, 8);
    if escape == '\'' && c == '\'' {
      return Escaped("'", input.pos);
    }
    match c {
      case '0' => r := Escaped([Byte(0)], input.pos);
      case 'a' => r := Escaped([Byte(7)], input.pos);
      case 'b' => r := Escaped([Byte(8)], input.pos);
      case 't' => r := Escaped([Byte(9)], input.pos);
      case '\t' => r := Escaped([Byte(9)], input.pos);
      case 'n' => r := Escaped([Byte(10)], input.pos);
      case 'v' => r := Escaped([Byte(11)], input.pos);
      case 'f' => r := Escaped([Byte(12)], input.pos);
      case 'r' => r := Escaped([Byte(13)], input.pos);
      case 'e' => r := Escaped([Byte(0x1B)], input.pos);
      case ' ' => r := Escaped(" ", input.pos);
      case '"' => r := Escaped("\"", input.pos);
      case '\'' => r := Escaped("'", input.pos);
      case '\\' => r := Escaped("\\", input.pos);
      case '/' => r := Escaped("/", input.pos);
      case 'N' => r := Escaped([Byte(0x85)], input.pos);
      case '_' => r := Escaped([Byte(0xA0)], input.pos);
      case 'L' => r := Escaped([Byte(0xE2), Byte(0x80), Byte(0xA8)], input.pos);
      case 'P' => r := Escaped([Byte(0xE2), Byte(0x80), Byte(0xA9)], input.pos);
      case 'x' => r := HexEscape(input, 2);
      case 'u' => r := HexEscape(input, 4);
      case 'U' => r := HexEscape(input, 8);
      case _ => r := BadEscape;
    }
  }

  // Writing

  datatype StringEscaping = Plain | NonAscii | JSON

  function HexDigit(n: int): char
    requires 0 <= n < 16
  {
    "0123456789abcdef"[n]
  }

  function HexDigits(v: nat, digits: nat): string {
    if digits == 0 then "" else HexDigits(v / 16, digits - 1) + [HexDigit(v % 16)]
  }

  /**
   * EncodeUTF16SurrogatePair. The offset 0xD800 - 0x40 is or-ed with c >> 10 and not added to it; above the six
   * low bits it has every bit c >> 10 can have.
   */
  function LeadOf(c: nat): nat {
    0xD7C0 + c / 1024 % 64
  }

  function TrailOf(c: nat): nat {
    0xDC00 + c % 1024
  }

  /** In the JSON style, where a code point takes a pair. */
  predicate TakesPair(c: nat, style: StringEscaping) {
    style == JSON && c >= 0xFFFF
  }

  function EscapeSequence(c: nat, style: StringEscaping): string {
    if TakesPair(c, style) then "\\" + EscapeSequence(LeadOf(c), style) + EscapeSequence(TrailOf(c), style)
    else if c < 0xFF && style != JSON then "\\x" + HexDigits(c, 2)
    else if c < 0xFFFF then "\\u" + HexDigits(c, 4)
    else "\\U" + HexDigits(c, 8)
  }

  lemma HexDigitReadsBack(n: int)
    requires 0 <= n < 16
    ensures DigitOf(HexDigit(n)) == Hex(n)
  {
  }

  lemma {:induction false} HexDigitsReadBack(v: nat, digits: nat)
    requires v < Pow16(digits)
    ensures |HexDigits(v, digits)| == digits && HexValue(HexDigits(v, digits)) == Hex(v)
  {
    if digits > 0 {
      HexDigitsReadBack(v / 16, digits - 1);
      HexDigitReadsBack(v % 16);
      var s := HexDigits(v, digits);
      assert s[..|s| - 1] == HexDigits(v / 16, digits - 1);
    }
  }

  /** c shifted right by some hexadecimal digits. */
  function Shifted(c: nat, digits: nat): nat {
    if digits == 0 then c else Shifted(c, digits - 1) / 16
  }

  lemma NoDigits(v: nat)
    ensures HexDigits(v, 0) == ""
  {
  }

  lemma NextDigit(c: nat, digits: nat, written: nat)
    requires digits > 0
    ensures HexDigits(Shifted(c, digits - 1), written + 1) ==
            HexDigits(Shifted(c, digits), written) + [HexDigit(Shifted(c, digits - 1) % 16)]
  {
  }

  lemma NotShifted(c: nat)
    ensures Shifted(c, 0) == c
  {
  }

  /** WriteDoubleQuoteEscapeSequence: a letter for the length, then the digits from the top; or a pair. */
  method WriteEscapeSequence(c: nat, style: StringEscaping) returns (out: string)
    requires c <= 0x10FFFF
    ensures out == EscapeSequence(c, style)
    decreases c
  {
    out := "\\";
    var digits := 8;
    if c < 0xFF && style != JSON {
      out := out + "x";
      digits := 2;
    } else if c < 0xFFFF {
      out := out + "u";
      digits := 4;
    } else if style != JSON {
      out := out + "U";
    } else {
      var first := WriteEscapeSequence(LeadOf(c), style);
      var second := WriteEscapeSequence(TrailOf(c), style);
      out := out + first + second;
      return;
    }
    hide HexDigits, Shifted, HexDigit;
    ghost var head := out;
    ghost var n := digits;
    NoDigits(Shifted(c, n));
    assert head + "" == head;
    while digits > 0
      invariant 0 <= digits <= n
      invariant out == head + HexDigits(Shifted(c, digits), n - digits)
    {
      NextDigit(c, digits, n - digits);
      assert head + (HexDigits(Shifted(c, digits), n - digits) + [HexDigit(Shifted(c, digits - 1) % 16)]) ==
             head + HexDigits(Shifted(c, digits), n - digits) + [HexDigit(Shifted(c, digits - 1) % 16)];
      out := out + [HexDigit(Shifted(c, digits - 1) % 16)];
      digits := digits - 1;
    }
    NotShifted(c);
  }

  /** The escape letters of section 5.7 of YAML 1.2, with the code points they stand for. */
  const LETTERS: map<char, int> := map[
    '0' := 0x0, 'a' := 0x7, 'b' := 0x8, 't' := 0x9, '\t' := 0x9, 'n' := 0xA, 'v' := 0xB, 'f' := 0xC, 'r' := 0xD, 'e' := 0x1B,
    ' ' := 0x20, '"' := 0x22, '\'' := 0x27, '/' := 0x2F, '\\' := 0x5C, 'N' := 0x85, '_' := 0xA0, 'L' := 0x2028, 'P' := 0x2029]

  /**
   * Behind a backslash each letter stands for the UTF-8 of its code point, and x, u and U begin a number; but the code
   * gives the two code points above ASCII and below U+0100 as one byte each, which is no UTF-8. Nothing else is an escape.
   */
  lemma LetterReads(t: string, i: nat)
    requires At(t, i) == '\\'
    ensures var c, r := At(t, i + 1), EscapeAt(t, i);
            if c in {'x', 'u', 'U'} then r == HexEscapeAt(t, i + 2, if c == 'x' then 2 else if c == 'u' then 4 else 8)
            else if c !in LETTERS then r == BadEscape
            else r.Escaped? && r.next == i + 2 && (r.value == Encode(LETTERS[c]) <==> c != 'N' && c != '_')
    ensures At(t, i + 1) == 'N' || At(t, i + 1) == '_' ==> EscapeAt(t, i) == Escaped([Byte(LETTERS[At(t, i + 1)])], i + 2)
  {
    hide HexEscapeAt;
  }
}
