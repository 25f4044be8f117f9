/** What the specification of a scalar gives where it is easy to say: on one line, and for line folding. */
module ScalarLines {
  import opened Exp
  import opened Streaming
  import opened Escaping
  import opened QuotedScalars
  import opened ScannerState
  import opened ScalarReading

  // Progress

  lemma LineMoves(t: string, m: Mark, p: Params, s: Scalar, found: bool)
    requires s.Ok() && m.pos < |t| && !StopsAt(t, m, p) && LineFrom(t, m, p, s, found).LineScanned?
    ensures LineFrom(t, m, p, s, found).mark.pos > m.pos
  {
    hide EndMatches, EscapeAt, EscBreak, DocIndicator;
  }

  /** Where a scalar does not end at once, a character of it is read. */
  lemma ScalarMoves(t: string, m: Mark, p: Params)
    requires m.pos < |t| && !StopsAt(t, m, p) && ReadScalar(t, m, p).ScalarEnds?
    ensures ReadScalar(t, m, p).mark.pos > m.pos
  {
    hide EndMatches, EscapeAt, EscBreak, DocIndicator, LineFrom, FoldAt, Finished;
    LineMoves(t, m, p, Scalar("", -1, 0), false);
  }

  // Single quotes

  predicate IsSingle(p: Params) {
    p.end == QuoteEnd(Single) && p.escape == EscapeChar(Single)
  }

  lemma {:induction false} LineHasNoReturn(t: string, m: Mark, p: Params, s: Scalar, found: bool)
    requires IsSingle(p) && s.Ok() && '\r' !in s.text && LineFrom(t, m, p, s, found).LineScanned?
    ensures '\r' !in LineFrom(t, m, p, s, found).scalar.text
    decreases |t| - m.pos
  {
    hide DocIndicator;
    if !EndMatches(p.end, t, m.pos) && !IsBreak(At(t, m.pos)) && m.pos < |t| && !(AtIndicator(t, m) && p.onDocIndicator != Reaction.NONE) {
      if At(t, m.pos) == p.escape {
        var e := EscapeAt(t, m.pos);
        assert e == Escaped("'", m.pos + 2);
        LineHasNoReturn(t, AfterMany(t, m, e.next - m.pos), p, AddEscaped(s, e.value), true);
      } else {
        LineHasNoReturn(t, After(t, m), p, AddChar(s, At(t, m.pos)), true);
      }
    }
  }

  lemma {:induction false} NewlinesOnly(n: nat)
    ensures '\r' !in Newlines(n)
  {
    if n > 0 {
      NewlinesOnly(n - 1);
    }
  }

  /** Folding adds spaces and line feeds only. */
  lemma FoldIsNoReturn(p: Params, f: Folding, nextEmptyLine: bool, nextMoreIndented: bool, atIndent: bool, found: bool, escapedNewline: bool)
    ensures '\r' !in FoldBreak(p, f, nextEmptyLine, nextMoreIndented, atIndent, found, escapedNewline).0
  {
    NewlinesOnly(if f.newlines == 0 then 0 else f.newlines - 1);
    NewlinesOnly(f.newlines);
    hide Newlines;
  }

  lemma FoldHasNoReturn(t: string, m: Mark, p: Params, s: Scalar, f: Folding, indent: int, found: bool, past: bool, escapedNewline: bool)
    requires s.Ok() && IsBreak(At(t, m.pos)) && '\r' !in s.text
    requires FoldAt(t, m, p, s, f, indent, found, past, escapedNewline).FoldScanned?
    ensures '\r' !in FoldAt(t, m, p, s, f, indent, found, past, escapedNewline).scalar.text
  {
    hide FoldBreak, IndentationEnd, BlanksEnd, AfterMany;
    forall g: Folding, empty, more, atIndent
      ensures '\r' !in FoldBreak(p, g, empty, more, atIndent, found, escapedNewline).0
    {
      FoldIsNoReturn(p, g, empty, more, atIndent, found, escapedNewline);
    }
  }

  lemma {:induction false} LinesHaveNoReturn(t: string, m: Mark, p: Params, text: string, lastEscapedChar: int, f: Folding, indent: int,
                                             found: bool, past: bool)
    requires IsSingle(p) && -1 <= lastEscapedChar <= |text| && '\r' !in text
    ensures var r := ScalarFrom(t, m, p, text, lastEscapedChar, f, indent, found, past); r.Reading? ==> '\r' !in r.scalar.text
    decreases |t| - m.pos
  {
    hide LineFrom, FoldAt, EndMatches, DocIndicator;
    if m.pos < |t| {
      var line := LineAt(t, m, p, text, lastEscapedChar);
      if line.LineScanned? {
        LineHasNoReturn(t, m, p, Scalar(text, lastEscapedChar, |text|), false);
        var here, s := line.mark, line.scalar;
        if here.pos < |t| && !(p.onDocIndicator == BREAK && AtIndicator(t, here)) && !EndMatches(p.end, t, here.pos) {
          var foundNow, pastNow := found || line.foundNonEmptyLine, past || line.foundNonEmptyLine;
          var fold := FoldAt(t, here, p, s, f, indent, foundNow, pastNow, line.escapedNewline);
          if fold.FoldScanned? {
            FoldHasNoReturn(t, here, p, s, f, indent, foundNow, pastNow, line.escapedNewline);
            LinesHaveNoReturn(t, fold.mark, p, fold.scalar.text, fold.scalar.lastEscapedChar, fold.folding, fold.indent, foundNow, true);
          }
        }
      }
    }
  }

  /** Between single quotes no carriage return reaches the scalar: a break is folded, and no escape stands for it. */
  lemma SingleHasNoReturn(t: string, m: Mark, p: Params)
    requires IsSingle(p) && ReadScalar(t, m, p).ScalarEnds?
    ensures '\r' !in ReadScalar(t, m, p).value
  {
    LinesHaveNoReturn(t, m, p, "", -1, Folding(false, false, 0, false), p.indent, false, p.fold == FOLD_FLOW);
    hide ScalarFrom;
  }

  // A quoted scalar on one line

  predicate IsQuoted(p: Params) {
    && p.end.QuoteEnd? && p.escape == EscapeChar(p.end.quote) && p.fold == FOLD_FLOW && p.eatEnd
    && !p.trimTrailingSpaces && p.chomp == CLIP && p.onDocIndicator == THROW
  }

  /** After the last escape, nothing but raw characters of one line. */
  ghost predicate RawTail(s: Scalar) {
    forall k :: 0 <= k < |s.text| && s.lastEscapedChar <= k ==> s.text[k] != '\n'
  }

  /** An escape sequence holds no line feed, so it stays on its line. */
  lemma EscapeStays(t: string, m: Mark)
    requires EscapeAt(t, m.pos).Escaped? && At(t, m.pos) != '\n'
    ensures AfterMany(t, m, EscapeAt(t, m.pos).next - m.pos).column > m.column
  {
    hide AfterMany, HexValue, Chars;
    var m2 := After(t, After(t, m));
    TwoRead(t, m);
    var n := EscapeAt(t, m.pos).next - m.pos - 2;
    AfterMore(t, m, 2, n);
    if n > 0 {
      HexStays(t, m2, n);
    } else {
      NoMore(t, m2);
    }
  }

  lemma NoMore(t: string, m: Mark)
    ensures AfterMany(t, m, 0) == m
  {
  }

  lemma HexStays(t: string, m: Mark, n: nat)
    requires HexEscapeAt(t, m.pos, n).Escaped?
    ensures AfterMany(t, m, n).column == m.column + n
  {
    HexHasNoBreak(Chars(t, m.pos, n));
    StaysOnLine(t, m, n);
  }

  lemma BreakIsNotEscaped(t: string, i: nat)
    requires EscBreak(t, i)
    ensures EscapeAt(t, i).BadEscape?
  {
  }

  /** The rest of a line that closes reads as its characters and escapes say. */
  lemma {:induction false} QuotedLineReads(t: string, m: Mark, p: Params, s: Scalar, found: bool)
    requires IsQuoted(p) && m.column > 0 && s.Ok() && RawTail(s) && OneLine(t, m.pos, p.end.quote).Line?
    ensures var line := OneLine(t, m.pos, p.end.quote);
            var r := LineFrom(t, m, p, s, found);
            && r.LineScanned? && !r.escapedNewline && r.mark.pos == line.end < |t| && Closes(t, line.end, p.end.quote)
            && r.scalar.text == s.text + line.value && RawTail(r.scalar)
    decreases |t| - m.pos
  {
    hide EscapeAt, DocIndicator, EscBreak, Closes;
    var q := p.end.quote;
    if Closes(t, m.pos, q) {
      assert s.text + "" == s.text;
    } else {
      var c := At(t, m.pos);
      if c == EscapeChar(q) {
        var e := EscapeAt(t, m.pos);
        EscapeStays(t, m);
        if EscBreak(t, m.pos) {
          BreakIsNotEscaped(t, m.pos);
        }
        QuotedLineReads(t, AfterMany(t, m, e.next - m.pos), p, AddEscaped(s, e.value), true);
        Joined(s.text, e.value, OneLine(t, e.next, q));
      } else {
        NotEscaped(t, m.pos, p);
        QuotedLineReads(t, After(t, m), p, AddChar(s, c), true);
        Joined(s.text, [c], OneLine(t, m.pos + 1, q));
      }
    }
  }

  lemma NotEscaped(t: string, i: nat, p: Params)
    requires At(t, i) != p.escape
    ensures !(p.escape == '\\' && EscBreak(t, i))
  {
  }

  lemma Joined(before: string, value: string, rest: Line)
    ensures rest.Line? ==> before + value + rest.value == before + Prepend(value, rest).value
  {
  }

  lemma RawTailIsKept(s: Scalar)
    requires s.Ok() && RawTail(s)
    ensures Chomped(s.text, s.lastEscapedChar, CLIP) == s.text
  {
    var last := |s.text| - 1;
    if last >= 0 && s.lastEscapedChar <= last {
      assert s.text[last] != '\n';
    }
  }

  /** A quoted scalar that closes on its line. */
  lemma QuotedOnOneLine(t: string, m: Mark, p: Params)
    requires IsQuoted(p) && m.column > 0 && OneLine(t, m.pos, p.end.quote).Line?
    ensures var line := OneLine(t, m.pos, p.end.quote); var r := ReadScalar(t, m, p);
            r.ScalarEnds? && r.value == line.value && !r.leadingSpaces && r.mark.pos == line.end + 1
  {
    hide LineFrom, OneLine, FoldAt, Closes, EscapeAt, Chomped;
    var s := Scalar("", -1, 0);
    QuotedLineReads(t, m, p, s, false);
    var line := OneLine(t, m.pos, p.end.quote);
    var r := LineFrom(t, m, p, s, false);
    assert "" + line.value == line.value;
    OneLineIsAhead(t, m.pos, p.end.quote);
    RawTailIsKept(r.scalar);
  }

  lemma {:induction false} OneLineIsAhead(t: string, i: nat, q: Quote)
    requires OneLine(t, i, q).Line?
    ensures i <= OneLine(t, i, q).end < |t|
    decreases |t| - i
  {
    hide EscapeAt;
    if !Closes(t, i, q) {
      OneLineIsAhead(t, if t[i] == EscapeChar(q) then EscapeAt(t, i).next else i + 1, q);
    }
  }

  /** Where the scan of a line stops. */
  function LineStop(t: string, i: nat, e: End): (j: nat)
    ensures i <= j && (i <= |t| ==> j <= |t|)
    decreases |t| - i
  {
    if i < |t| && !EndMatches(e, t, i) && !IsBreak(t[i]) then LineStop(t, i + 1, e) else i
  }
}
