/** Write a quoted scalar, scan it back. */
module QuotedRoundTrip {
  import opened Exp
  import opened Streaming
  import opened ScannerState
  import opened Utf8
  import opened Escaping
  import opened QuotedScalars
  import opened ScalarReading
  import opened ScalarLines
  import opened ScalarScanning
  import Scanning
  import TokenText
  import Transcoding

  function Quoted(s: string, q: Quote, style: StringEscaping): string {
    [QuoteChar(q)] + QuotedAll(CodePoints(s, 0), q, style) + [QuoteChar(q)]
  }

  /** What single quotes cannot hold on one line, and the end marker of streams. */
  predicate FitsSingleQuotes(s: string) {
    '\n' as int !in CodePoints(s, 0) && '\r' as int !in CodePoints(s, 0) && EOF as int !in CodePoints(s, 0)
  }

  /**
   * Wherever the written scalar stands in a text, its content reads as the recoded string: for well-formed
   * UTF-8 without noncharacters, the string itself.
   */
  lemma WrittenReads(t: string, i: nat, s: string, q: Quote, style: StringEscaping)
    requires HasAt(t, i, Quoted(s, q, style)) && (q.Single? ==> FitsSingleQuotes(s) && At(t, i + |Quoted(s, q, style)|) != '\'')
    ensures t[i] == QuoteChar(q) && OneLine(t, i + 1, q) == Line(Recode(s), i + |Quoted(s, q, style)| - 1)
    ensures WellFormed(s, 0) && NoNonCharacters(s, 0) ==> OneLine(t, i + 1, q).value == s
  {
    hide OneLine, Encode, QuotedAll, CodePoints, EncodeAll;
    var body := QuotedAll(CodePoints(s, 0), q, style);
    HasBoth(t, i, [QuoteChar(q)] + body, [QuoteChar(q)]);
    HasBoth(t, i, [QuoteChar(q)], body);
    assert t[i + 1 + |body|] == t[i + 1 + |body|..i + 2 + |body|][0];
    QuotedReadsBack(t, i + 1, CodePoints(s, 0), q, style);
    RecodeNormalizes(s);
  }

  /** The two halves put together, on a stream that holds nothing else and was decoded already. */
  method WriteAndScan(s: string, q: Quote, style: StringEscaping) returns (r: Scanned)
    requires q.Single? ==> FitsSingleQuotes(s)
    ensures r == Scanned(Recode(s), false)
    ensures WellFormed(s, 0) && NoNonCharacters(s, 0) ==> r == Scanned(s, false)
  {
    hide OneLine, TokenText.QuotedAt, Encode, CodePoints, EncodeAll, Recode, WellFormed, NoNonCharacters;
    var t := Write(s, q, style);
    WrittenReads(t, 0, s, q, style);
    Scanning.QuotedLine(t, Mark(0, 0, 0), q);
    var input := new Stream(t);
    r := Scanning.ReadQuoted(input);
  }

  method Write(s: string, q: Quote, style: StringEscaping) returns (t: string)
    requires q.Single? ==> FitsSingleQuotes(s)
    ensures t == Quoted(s, q, style)
  {
    hide CodePoints;
    if q.Double? {
      t := WriteDoubleQuotedString(s, style);
    } else {
      var ok;
      ok, t := WriteSingleQuotedString(s);
      SingleIgnoresStyle(CodePoints(s, 0), style);
    }
  }

  /**
   * Single quotes on their own, on a decoded stream: the writer refuses line feeds, and what it accepts is read
   * back if and only if it holds no carriage return.
   */
  method WriteAndScanSingle(s: string) returns (ok: bool, r: Scanned)
    requires EOF as int !in CodePoints(s, 0)
    ensures ok <==> '\n' as int !in CodePoints(s, 0)
    ensures ok ==> (r == Scanned(Recode(s), false) <==> '\r' as int !in CodePoints(s, 0))
  {
    hide OneLine, TokenText.QuotedAt, Encode, CodePoints, EncodeAll, Recode, WellFormed, NoNonCharacters;
    var t;
    ok, t := WriteSingleQuotedString(s);
    r := Threw;
    if ok {
      var input := new Stream(t);
      assert input.Peek() == '\'';
      r := Scanning.ReadQuoted(input);
      if r.Scanned? {
        NoReturnQuoted(t, Mark(0, 0, 0));
      }
      if '\r' as int in CodePoints(s, 0) {
        ReturnIsEncoded(CodePoints(s, 0));
        assert '\r' in Recode(s) by { RecodeIs(s); }
      } else {
        assert t == Quoted(s, Single, Plain);
        WrittenReads(t, 0, s, Single, Plain);
        Scanning.QuotedLine(t, Mark(0, 0, 0), Single);
      }
    }
  }

  // At the very beginning of an input, where the encoding is still to be found

  lemma {:induction false} DigitsAreBytes(v: nat, digits: nat)
    ensures Bytes(HexDigits(v, digits))
  {
    if digits > 0 {
      DigitsAreBytes(v / 16, digits - 1);
    }
  }

  lemma {:induction false} SequenceIsBytes(c: nat, style: StringEscaping)
    ensures Bytes(EscapeSequence(c, style)) && EscapeSequence(c, style) != "" && EscapeSequence(c, style)[0] == '\\'
    decreases c
  {
    hide HexDigits;
    DigitsAreBytes(c, 2);
    DigitsAreBytes(c, 4);
    DigitsAreBytes(c, 8);
    if TakesPair(c, style) {
      SequenceIsBytes(LeadOf(c), style);
      SequenceIsBytes(TrailOf(c), style);
    }
  }

  /** Only single quotes let U+0000 through. */
  lemma QuotedCharIsBytes(c: Character, q: Quote, style: StringEscaping)
    ensures var w := QuotedChar(c, q, style); Bytes(w) && w != "" && (w[0] == '\0' <==> q.Single? && c == 0)
  {
    hide EscapeSequence;
    SequenceIsBytes(c, style);
    Transcoding.EncodedBytes(c);
    EncodeNotEmpty(c);
    assert Encode(c)[0] == '\0' <==> c == 0;
  }

  lemma {:induction false} QuotedAllIsBytes(codePoints: seq<Character>, q: Quote, style: StringEscaping)
    ensures var w := QuotedAll(codePoints, q, style);
            Bytes(w) && (w != "" && w[0] == '\0' <==> q.Single? && codePoints != [] && codePoints[0] == 0)
  {
    hide QuotedChar;
    if codePoints != [] {
      QuotedCharIsBytes(codePoints[0], q, style);
      QuotedAllIsBytes(codePoints[1..], q, style);
    }
  }

  /** Single quotes around a string that begins with U+0000: the input begins like UTF-16 or UTF-32. */
  predicate Misleads(s: string, q: Quote) {
    q.Single? && CodePoints(s, 0) != [] && CodePoints(s, 0)[0] == 0
  }

  lemma QuotedIsDetected(s: string, q: Quote, style: StringEscaping)
    ensures Bytes(Quoted(s, q, style))
    ensures var b := Transcoding.Codes(Quoted(s, q, style));
            && Transcoding.Detected(b).1 == 0
            && (Transcoding.Transcoded(Transcoding.Detected(b).0, b) == Quoted(s, q, style) <==> !Misleads(s, q))
  {
    hide QuotedAll, CodePoints, Transcoding.Detected, Transcoding.Transcoded, Transcoding.Codes;
    var w := Quoted(s, q, style);
    QuotedAllIsBytes(CodePoints(s, 0), q, style);
    Transcoding.AsciiIsDetected(w);
    var b := Transcoding.Codes(w);
    assert b[0..] == b;
  }

  /**
   * The whole way as the first thing of an input: written, taken for bytes, its encoding found, decoded and
   * scanned. The text arrives as it was written unless it misleads the detection, and is then read back.
   */
  method WriteDecodeAndScan(s: string, q: Quote, style: StringEscaping) returns (text: string, r: Scanned)
    requires q.Single? ==> FitsSingleQuotes(s)
    ensures text == Quoted(s, q, style) <==> !Misleads(s, q)
    ensures !Misleads(s, q) ==> r == Scanned(Recode(s), false)
  {
    hide OneLine, TokenText.QuotedAt, Recode, Misleads, QuotedAll, Transcoding.Detected, Transcoding.Transcoded, Transcoding.Codes;
    var t := Write(s, q, style);
    QuotedIsDetected(s, q, style);
    var b := Transcoding.Codes(t);
    text := Transcoding.Decode(b);
    assert b[0..] == b;
    if !Misleads(s, q) {
      WrittenReads(text, 0, s, q, style);
      Scanning.QuotedLine(text, Mark(0, 0, 0), q);
    }
    var input := new Stream(text);
    r := Scanning.ReadQuoted(input);
  }

  lemma NoReturnQuoted(t: string, m: Mark)
    requires At(t, m.pos) == '\'' && TokenText.QuotedAt(t, m).ScalarEnds?
    ensures '\r' !in TokenText.QuotedAt(t, m).value
  {
    hide ReadScalar;
    SingleHasNoReturn(t, After(t, m), TokenText.QuotedParams(Single));
  }

  lemma RecodeIs(s: string)
    ensures Recode(s) == EncodeAll(CodePoints(s, 0))
  {
  }

  lemma {:induction false} ReturnIsEncoded(codePoints: seq<Utf8.Scalar>)
    requires '\r' as int in codePoints
    ensures '\r' in EncodeAll(codePoints)
  {
    if codePoints[0] == '\r' as int {
      assert Encode(codePoints[0])[0] == '\r';
    } else {
      ReturnIsEncoded(codePoints[1..]);
    }
  }

  lemma {:induction false} SingleIgnoresStyle(codePoints: seq<Character>, style: StringEscaping)
    ensures QuotedAll(codePoints, Single, style) == QuotedAll(codePoints, Single, Plain)
  {
    if codePoints != [] {
      SingleIgnoresStyle(codePoints[1..], style);
    }
  }
}
