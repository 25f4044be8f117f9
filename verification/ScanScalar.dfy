/** ScanScalar, the loop behind plain, quoted and block scalars: it always ends, and reads the scalar at its position. */
module ScalarScanning {
  import opened Exp
  import opened Streaming
  import opened Escaping
  import opened QuotedScalars
  import opened ScannerState
  import opened ScalarReading

  /** Phase 1: until the line or the scalar ends. */
  method ScanLine(input: Stream, p: Params, text: string, lastEscapedChar: int) returns (threw: bool, s: Scalar, found: bool, escapedNewline: bool)
    requires -1 <= lastEscapedChar <= |text|
    modifies input
    ensures s.Ok() && input.pos >= old(input.pos)
    ensures LineAt(input.text, old(input.Here()), p, text, lastEscapedChar) ==
            if threw then LineThrew else LineScanned(input.Here(), s, found, escapedNewline)
  {
    hide EndMatches, DocIndicator, EscapeAt, EscBreak, AfterMany;
    s, found := Scalar(text, lastEscapedChar, |text|), false;
    while !EndMatches(p.end, input.text, input.pos) && !IsBreak(input.Peek())
      invariant s.Ok() && input.pos >= old(input.pos)
      invariant LineFrom(input.text, input.Here(), p, s, found) == LineAt(input.text, old(input.Here()), p, text, lastEscapedChar)
      decreases input.Left()
    {
      if !input.More() {
        break;
      }
      if input.column == 0 && DocIndicator(input.text, input.pos) {
        if p.onDocIndicator == BREAK {
          break;
        }
        if p.onDocIndicator == THROW {
          return true, s, found, false;
        }
      }
      found := true;
      if p.escape == '\\' && EscBreak(input.text, input.pos) {
        var _ := input.Get();
        s := Scalar(s.text, |s.text|, |s.text|);
        return false, s, found, true;
      }
      var ok;
      ok, s := AddNext(input, p, s);
      if !ok {
        return true, s, found, false;
      }
    }
    threw, escapedNewline := false, false;
  }

  /** One more escape sequence or character; false for a bad escape. */
  method AddNext(input: Stream, p: Params, s: Scalar) returns (ok: bool, next: Scalar)
    requires s.Ok() && input.More() && !EndMatches(p.end, input.text, input.pos) && !IsBreak(input.Peek())
    requires !(AtIndicator(input.text, input.Here()) && p.onDocIndicator != Reaction.NONE)
    requires !(p.escape == '\\' && EscBreak(input.text, input.pos))
    modifies input
    ensures next.Ok() && input.pos > old(input.pos)
    ensures forall found :: LineFrom(input.text, old(input.Here()), p, s, found) ==
                            if ok then LineFrom(input.text, input.Here(), p, next, true) else LineThrew
  {
    hide EscapeAt, EndMatches, DocIndicator, EscBreak, AfterMany;
    if input.Peek() == p.escape {
      var e := Escape(input);
      if e.BadEscape? {
        return false, s;
      }
      next := AddEscaped(s, e.value);
    } else {
      var c := input.Get();
      next := AddChar(s, c);
    }
    ok := true;
  }

  /** The initial spaces of a line; nothing is returned when a tab stands where indentation should be. */
  method ScanInitialSpaces(input: Stream, p: Params, indent: int, found: bool) returns (ok: bool, newIndent: int)
    modifies input
    ensures var indented := IndentationEnd(input.text, old(input.Here()), p, indent, found);
            && newIndent == IndentFrom(indented, p, indent, found)
            && BlanksEnd(input.text, indented, p, newIndent) == (if ok then SpacesEnd(input.Here()) else TabThrew)
  {
    hide EndMatches;
    while input.Peek() == ' ' && (input.column < indent || (p.detectIndent && !found)) && !EndMatches(p.end, input.text, input.pos)
      invariant IndentationEnd(input.text, input.Here(), p, indent, found) ==
                IndentationEnd(input.text, old(input.Here()), p, indent, found)
      decreases input.Left()
    {
      var _ := input.Get();
    }
    newIndent := if p.detectIndent && !found && input.column > indent then input.column else indent;
    ghost var indented := input.Here();
    while IsBlank(input.Peek())
      invariant BlanksEnd(input.text, input.Here(), p, newIndent) == BlanksEnd(input.text, indented, p, newIndent)
      decreases input.Left()
    {
      if input.Peek() == '\t' && input.column < newIndent && p.onTabInIndentation == THROW {
        return false, newIndent;
      }
      if !p.eatLeadingWhitespace || EndMatches(p.end, input.text, input.pos) {
        break;
      }
      var _ := input.Get();
    }
    ok := true;
  }

  /** Phases 2 and 3: the line ending, the spaces of the next line, and what the ending becomes. */
  method FoldLine(input: Stream, p: Params, before: Scalar, folding: Folding, oldIndent: int, found: bool,
                  pastOpeningBreak: bool, escapedNewline: bool)
    returns (ok: bool, s: Scalar, f: Folding, indent: int)
    requires before.Ok() && IsBreak(input.Peek())
    modifies input
    ensures FoldAt(input.text, old(input.Here()), p, before, folding, oldIndent, found, pastOpeningBreak, escapedNewline) ==
            if ok then FoldScanned(input.Here(), s, f, indent) else FoldThrew
    ensures ok ==> s.Ok() && s.lastNonWhitespaceChar == |s.text|
  {
    hide FoldBreak, IndentationEnd, BlanksEnd, AfterMany, IndentFrom, Break;
    s, f := before, folding;
    if p.fold == FOLD_FLOW {
      s := s.(text := s.text[..s.lastNonWhitespaceChar]);
    }
    input.Eat(Break(input.text, input.pos));
    ok, indent := ScanInitialSpaces(input, p, oldIndent, found);
    if !ok {
      return;
    }
    var nextEmptyLine, nextMoreIndented := IsBreak(input.Peek()), IsBlank(input.Peek());
    if p.fold == FOLD_BLOCK && f.newlines == 0 && nextEmptyLine {
      f := f.(startedMoreIndented := f.moreIndented);
    }
    if pastOpeningBreak {
      var (added, newlines) := FoldBreak(p, f, nextEmptyLine, nextMoreIndented, input.column >= indent, found, escapedNewline);
      s := s.(text := s.text + added);
      f := f.(newlines := newlines);
    } else {
      assert s.text + "" == s.text;
    }
    s := s.(lastNonWhitespaceChar := |s.text|);
    f := f.(emptyLine := nextEmptyLine, moreIndented := nextMoreIndented);
  }

  /** Line after line, until the scalar ends. */
  method ScanLines(input: Stream, p: Params) returns (threw: bool, s: Scalar, leadingSpaces: bool)
    modifies input
    ensures s.Ok()
    ensures Lines(input.text, old(input.Here()), p) == if threw then NoReading else Reading(s, leadingSpaces, input.Here())
  {
    hide LineAt, FoldAt, EndMatches, DocIndicator, AfterMany;
    s := Scalar("", -1, 0);
    threw, leadingSpaces := false, false;
    var found, pastOpeningBreak := false, p.fold == FOLD_FLOW;
    var f := Folding(false, false, 0, false);
    var indent := p.indent;
    ghost var whole := Lines(input.text, input.Here(), p);
    while input.More()
      invariant s.Ok() && s.lastNonWhitespaceChar == |s.text|
      invariant whole == ScalarFrom(input.text, input.Here(), p, s.text, s.lastEscapedChar, f, indent, found, pastOpeningBreak)
      decreases input.Left()
    {
      var foundHere, escapedNewline;
      threw, s, foundHere, escapedNewline := ScanLine(input, p, s.text, s.lastEscapedChar);
      if threw {
        return;
      }
      found := found || foundHere;
      pastOpeningBreak := pastOpeningBreak || foundHere;
      if !input.More() {
        threw := p.eatEnd;
        return;
      }
      if p.onDocIndicator == BREAK && input.column == 0 && DocIndicator(input.text, input.pos) {
        return;
      }
      if EndMatches(p.end, input.text, input.pos) {
        if p.eatEnd {
          var _ := input.Get();
        }
        return;
      }
      var ok;
      ok, s, f, indent := FoldLine(input, p, s, f, indent, found, pastOpeningBreak, escapedNewline);
      if !ok {
        return true, Scalar("", -1, 0), false;
      }
      pastOpeningBreak := true;
      if !f.emptyLine && input.column < indent {
        leadingSpaces := true;
        return;
      }
    }
  }

  datatype Scanned = Threw | Scanned(value: string, leadingSpaces: bool)

  method ScanScalar(input: Stream, p: Params) returns (r: Scanned)
    modifies input
    ensures ReadScalar(input.text, old(input.Here()), p) ==
            if r.Threw? then ScalarThrows else ScalarEnds(r.value, r.leadingSpaces, input.Here())
  {
    hide Lines, Chomped, Trimmed;
    var threw, s, leadingSpaces := ScanLines(input, p);
    if threw {
      return Threw;
    }
    var text := if p.trimTrailingSpaces then Trimmed(s.text, s.lastEscapedChar) else s.text;
    r := Scanned(Chomped(text, s.lastEscapedChar, p.chomp), leadingSpaces);
  }
}
