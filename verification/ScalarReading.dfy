/**
 * What ScanScalar reads at a position, whatever its parameters: the lines of a scalar, the white space and the
 * line breaks between them, and what is cut off in the end.
 */
module ScalarReading {
  import opened Exp
  import opened Streaming
  import opened Escaping
  import opened QuotedScalars
  import opened ScannerState

  datatype End = PlainEnd | PlainEndInFlow | QuoteEnd(quote: Quote) | Empty

  datatype Chomping = STRIP | CLIP | KEEP

  datatype Reaction = NONE | BREAK | THROW

  datatype Fold = DONT_FOLD | FOLD_BLOCK | FOLD_FLOW

  datatype Params = Params(
    end: End, eatEnd: bool, indent: int, detectIndent: bool, eatLeadingWhitespace: bool, escape: char, fold: Fold,
    trimTrailingSpaces: bool, chomp: Chomping, onDocIndicator: Reaction, onTabInIndentation: Reaction)

  predicate EndMatches(e: End, t: string, i: nat) {
    match e
    case PlainEnd => ScanScalarEnd(t, i)
    case PlainEndInFlow => ScanScalarEndInFlow(t, i)
    case QuoteEnd(q) => Closes(t, i, q)
    case Empty => At(t, i) == EOF
  }

  /** The scalar so far; lastEscapedChar is -1 while nothing was escaped. */
  datatype Scalar = Scalar(text: string, lastEscapedChar: int, lastNonWhitespaceChar: nat) {
    predicate Ok() {
      -1 <= lastEscapedChar <= lastNonWhitespaceChar <= |text|
    }
  }

  predicate AtIndicator(t: string, m: Mark) {
    m.column == 0 && DocIndicator(t, m.pos)
  }

  /** Where the scan of a line stops without reading on. */
  predicate StopsAt(t: string, m: Mark, p: Params) {
    EndMatches(p.end, t, m.pos) || IsBreak(At(t, m.pos)) || (p.onDocIndicator == BREAK && AtIndicator(t, m))
  }

  // Phase 1

  datatype LineScan = LineThrew | LineScanned(mark: Mark, scalar: Scalar, foundNonEmptyLine: bool, escapedNewline: bool)

  function AddChar(s: Scalar, c: char): (r: Scalar)
    requires s.Ok()
    ensures r.Ok()
  {
    Scalar(s.text + [c], s.lastEscapedChar, if IsBlank(c) then s.lastNonWhitespaceChar else |s.text| + 1)
  }

  function AddEscaped(s: Scalar, value: string): (r: Scalar)
    requires s.Ok()
    ensures r.Ok()
  {
    var n := |s.text| + |value|;
    Scalar(s.text + value, n, n)
  }

  predicate LineStops(t: string, m: Mark, p: Params, r: LineScan)
    requires r.LineScanned?
  {
    && r.scalar.Ok() && r.mark.pos >= m.pos
    && (r.mark.pos >= |t| || r.escapedNewline || StopsAt(t, r.mark, p))
    && (r.escapedNewline ==> IsBreak(At(t, r.mark.pos)) && r.mark.pos > m.pos)
  }

  /** The rest of a line: until it, or the scalar, ends. */
  function LineFrom(t: string, m: Mark, p: Params, s: Scalar, found: bool): (r: LineScan)
    requires s.Ok()
    ensures r.LineScanned? ==> LineStops(t, m, p, r)
    decreases |t| - m.pos
  {
    var c := At(t, m.pos);
    if EndMatches(p.end, t, m.pos) || IsBreak(c) || m.pos >= |t| then LineScanned(m, s, found, false)
    else if AtIndicator(t, m) && p.onDocIndicator == BREAK then LineScanned(m, s, found, false)
    else if AtIndicator(t, m) && p.onDocIndicator == THROW then LineThrew
    else if p.escape == '\\' && EscBreak(t, m.pos) then
      LineScanned(After(t, m), Scalar(s.text, |s.text|, |s.text|), true, true)
    else if c == p.escape then
      var e := EscapeAt(t, m.pos);
      if e.BadEscape? then LineThrew else LineFrom(t, AfterMany(t, m, e.next - m.pos), p, AddEscaped(s, e.value), true)
    else LineFrom(t, After(t, m), p, AddChar(s, c), true)
  }

  /** A line that begins at m, behind the text so far. */
  function LineAt(t: string, m: Mark, p: Params, text: string, lastEscapedChar: int): (r: LineScan)
    requires -1 <= lastEscapedChar <= |text|
    ensures r.LineScanned? ==> LineStops(t, m, p, r)
  {
    LineFrom(t, m, p, Scalar(text, lastEscapedChar, |text|), false)
  }

  // Phases 2 and 3

  /** The spaces of the indentation. */
  function IndentationEnd(t: string, m: Mark, p: Params, indent: int, found: bool): (r: Mark)
    ensures r.pos >= m.pos
    decreases |t| - m.pos
  {
    if At(t, m.pos) == ' ' && (m.column < indent || (p.detectIndent && !found)) && !EndMatches(p.end, t, m.pos) then
      IndentationEnd(t, After(t, m), p, indent, found)
    else m
  }

  datatype Spaces = TabThrew | SpacesEnd(mark: Mark)

  /** The blanks behind the indentation; a tab must not stand where indentation should be. */
  function BlanksEnd(t: string, m: Mark, p: Params, indent: int): (r: Spaces)
    ensures r.SpacesEnd? ==> r.mark.pos >= m.pos
    decreases |t| - m.pos
  {
    if !IsBlank(At(t, m.pos)) then SpacesEnd(m)
    else if At(t, m.pos) == '\t' && m.column < indent && p.onTabInIndentation == THROW then TabThrew
    else if !p.eatLeadingWhitespace || EndMatches(p.end, t, m.pos) then SpacesEnd(m)
    else BlanksEnd(t, After(t, m), p, indent)
  }

  /** The indentation that is asked for, once it was looked at. */
  function IndentFrom(m: Mark, p: Params, indent: int, found: bool): int {
    if p.detectIndent && !found && m.column > indent then m.column else indent
  }

  datatype Folding = Folding(emptyLine: bool, moreIndented: bool, newlines: nat, startedMoreIndented: bool)

  function Newlines(n: nat): string {
    if n == 0 then "" else Newlines(n - 1) + "\n"
  }

  /** What a line break becomes in the scalar, and what is remembered of it. */
  function FoldBreak(p: Params, f: Folding, nextEmptyLine: bool, nextMoreIndented: bool, atIndent: bool,
                     foundNonEmptyLine: bool, escapedNewline: bool): (string, nat)
  {
    match p.fold
    case DONT_FOLD => ("\n", f.newlines)
    case FOLD_BLOCK =>
      var (added, newlines) :=
        if !f.emptyLine && !nextEmptyLine && !f.moreIndented && !nextMoreIndented && atIndent then (" ", f.newlines)
        else if nextEmptyLine then ("", f.newlines + 1)
        else ("\n", f.newlines);
      if !nextEmptyLine && newlines > 0 then
        (added + Newlines(newlines - 1) + (if f.startedMoreIndented || nextMoreIndented || !foundNonEmptyLine then "\n" else ""), 0)
      else (added, newlines)
    case FOLD_FLOW =>
      (if nextEmptyLine then "\n" else if !f.emptyLine && !escapedNewline then " " else "", f.newlines)
  }

  datatype FoldScan = FoldThrew | FoldScanned(mark: Mark, scalar: Scalar, folding: Folding, indent: int)

  /** The line break at m and the spaces behind it: what it becomes in the scalar. */
  function FoldAt(t: string, m: Mark, p: Params, s: Scalar, f: Folding, indent: int, found: bool, past: bool,
                  escapedNewline: bool): (r: FoldScan)
    requires s.Ok() && IsBreak(At(t, m.pos))
    ensures r.FoldScanned? ==> r.scalar.Ok() && r.mark.pos > m.pos
  {
    var kept := if p.fold == FOLD_FLOW then s.text[..s.lastNonWhitespaceChar] else s.text;
    var indented := IndentationEnd(t, AfterMany(t, m, Break(t, m.pos)), p, indent, found);
    var newIndent := IndentFrom(indented, p, indent, found);
    var spaces := BlanksEnd(t, indented, p, newIndent);
    if spaces.TabThrew? then FoldThrew
    else
      var next := spaces.mark;
      var empty, more := IsBreak(At(t, next.pos)), IsBlank(At(t, next.pos));
      var started := if p.fold == FOLD_BLOCK && f.newlines == 0 && empty then f.moreIndented else f.startedMoreIndented;
      var (added, newlines) :=
        if past then FoldBreak(p, f.(startedMoreIndented := started), empty, more, next.column >= newIndent, found, escapedNewline)
        else ("", f.newlines);
      FoldScanned(next, Scalar(kept + added, s.lastEscapedChar, |kept + added|), Folding(empty, more, newlines, started), newIndent)
  }

  // All of it

  datatype Reading = NoReading | Reading(scalar: Scalar, leadingSpaces: bool, mark: Mark)

  /** Line after line. */
  function ScalarFrom(t: string, m: Mark, p: Params, text: string, lastEscapedChar: int, f: Folding, indent: int, found: bool,
                      past: bool): (r: Reading)
    requires -1 <= lastEscapedChar <= |text|
    ensures r.Reading? ==> r.scalar.Ok() && r.mark.pos >= m.pos
    decreases |t| - m.pos
  {
    if m.pos >= |t| then Reading(Scalar(text, lastEscapedChar, |text|), false, m)
    else
      var line := LineAt(t, m, p, text, lastEscapedChar);
      if line.LineThrew? then NoReading
      else
        var here, s := line.mark, line.scalar;
        var foundNow := found || line.foundNonEmptyLine;
        if here.pos >= |t| then if p.eatEnd then NoReading else Reading(s, false, here)
        else if p.onDocIndicator == BREAK && AtIndicator(t, here) then Reading(s, false, here)
        else if EndMatches(p.end, t, here.pos) then Reading(s, false, if p.eatEnd then After(t, here) else here)
        else
          var fold := FoldAt(t, here, p, s, f, indent, foundNow, past || line.foundNonEmptyLine, line.escapedNewline);
          if fold.FoldThrew? then NoReading
          else if !fold.folding.emptyLine && fold.mark.column < fold.indent then Reading(fold.scalar, true, fold.mark)
          else
            ScalarFrom(t, fold.mark, p, fold.scalar.text, fold.scalar.lastEscapedChar, fold.folding, fold.indent, foundNow, true)
  }

  /** find_last_not_of; -1 when there is no such character. */
  function LastNotOf(s: string, excluded: string): (r: int)
    ensures -1 <= r < |s|
    ensures r >= 0 ==> s[r] !in excluded
    ensures forall k :: r < k < |s| ==> s[k] in excluded
  {
    if s == "" then -1 else if s[|s| - 1] !in excluded then |s| - 1 else LastNotOf(s[..|s| - 1], excluded)
  }

  function NotBefore(pos: int, lastEscapedChar: int): int {
    if pos < lastEscapedChar then lastEscapedChar else pos
  }

  function Trimmed(text: string, lastEscapedChar: int): string {
    var pos := NotBefore(LastNotOf(text, " \t"), lastEscapedChar);
    if 0 <= pos < |text| then text[..pos + 1] else text
  }

  function Chomped(text: string, lastEscapedChar: int, chomp: Chomping): string
    requires -1 <= lastEscapedChar
  {
    var pos := NotBefore(LastNotOf(text, "\n"), lastEscapedChar);
    match chomp
    case CLIP => if pos == -1 then "" else if pos + 1 < |text| then text[..pos + 2] else text
    case STRIP => if pos == -1 then "" else if pos < |text| then text[..pos + 1] else text
    case KEEP => text
  }

  datatype ScalarScan = ScalarThrows | ScalarEnds(value: string, leadingSpaces: bool, mark: Mark)

  /** What is cut off a scalar in the end. */
  function Finished(s: Scalar, p: Params): string
    requires s.Ok()
  {
    Chomped(if p.trimTrailingSpaces then Trimmed(s.text, s.lastEscapedChar) else s.text, s.lastEscapedChar, p.chomp)
  }

  function Lines(t: string, m: Mark, p: Params): (r: Reading)
    ensures r.Reading? ==> r.scalar.Ok() && r.mark.pos >= m.pos
  {
    ScalarFrom(t, m, p, "", -1, Folding(false, false, 0, false), p.indent, false, p.fold == FOLD_FLOW)
  }

  /** The scalar at m. */
  function ReadScalar(t: string, m: Mark, p: Params): (r: ScalarScan)
    ensures r.ScalarEnds? ==> r.mark.pos >= m.pos
  {
    var r := Lines(t, m, p);
    if r.NoReading? then ScalarThrows else ScalarEnds(Finished(r.scalar, p), r.leadingSpaces, r.mark)
  }
}
