/**
 * Plain scalars on any number of lines (section 7.3.3 of YAML 1.2), said of the characters alone: where a line of one
 * ends, what is between two lines, and what the token holds. It is what the scanner reads, in and out of a flow.
 */
module PlainFolding {
  import opened Exp
  import opened Streaming
  import opened QuotedScalars
  import opened ScannerState
  import opened ScalarReading
  import opened ScalarLines
  import opened TokenText
  import FlowFolding

  // The characters of a plain scalar

  const WHITE: string := " \t\n\r"

  /** In front of this character a plain scalar ends: a value indicator, a comment, or in a flow one of its indicators. */
  predicate EndsPlain(t: string, i: nat, inFlow: bool) {
    var c, next := At(t, i), At(t, i + 1);
    || (c == ':' && (next in WHITE || next == '\U{0004}'))
    || (inFlow && c == ':' && next in ",]}")
    || (inFlow && c in ",?[]{}")
    || (c in WHITE && (if c == '\r' && next == '\n' then At(t, i + 2) else next) == '#')
  }

  /** The end of the scalar, or of its line. */
  function LineEnd(t: string, i: nat, inFlow: bool): (j: nat)
    ensures i <= j && (i <= |t| ==> j <= |t|) && (j < |t| ==> EndsPlain(t, j, inFlow) || t[j] == '\n' || t[j] == '\r')
    decreases |t| - i
  {
    if i < |t| && !EndsPlain(t, i, inFlow) && t[i] != '\n' && t[i] != '\r' then LineEnd(t, i + 1, inFlow) else i
  }

  /** What stands between two lines: breaks and blanks, with the column behind them, which no lone carriage return resets. */
  datatype Run = TabInIndentation(at: nat) | Run(end: nat, column: nat, breaks: nat)

  function RunFrom(t: string, i: nat, column: nat, breaks: nat, indent: int, inFlow: bool): (r: Run)
    ensures match r case TabInIndentation(at) => at >= i case Run(end, _, n) => end >= i && n >= breaks
    decreases |t| - i
  {
    if i >= |t| || t[i] !in WHITE then Run(i, column, breaks)
    else if t[i] == '\t' && column < indent then TabInIndentation(i)
    else if EndsPlain(t, i, inFlow) then Run(i, column, breaks)
    else if t[i] == '\r' && At(t, i + 1) == '\n' then RunFrom(t, i + 2, 0, breaks + 1, indent, inFlow)
    else if t[i] == '\n' then RunFrom(t, i + 1, 0, breaks + 1, indent, inFlow)
    else if t[i] == '\r' then RunFrom(t, i + 1, column + 1, breaks + 1, indent, inFlow)
    else RunFrom(t, i + 1, column + 1, breaks, indent, inFlow)
  }

  /** One break is a space; of more, each but one is a line feed. */
  function Between(breaks: nat): string {
    if breaks == 1 then " " else if breaks == 0 then "" else Newlines(breaks - 1)
  }

  function Stripped(s: string, blanks: string): string {
    if s != "" && s[|s| - 1] in blanks then Stripped(s[..|s| - 1], blanks) else s
  }

  /** Where it ends and in which column; `brokeOff` when what follows is not indented deep enough. */
  datatype PlainText = BadPlain(end: nat) | PlainText(value: string, end: nat, column: nat, brokeOff: bool)

  predicate EndsBehind(t: string, r: Run, indent: int, inFlow: bool) {
    r.Run? && (r.end >= |t| || EndsPlain(t, r.end, inFlow) || r.column < indent || (r.column == 0 && DocIndicator(t, r.end)))
  }

  /** The rest of a plain scalar whose line has its first character at i, in this column. */
  function PlainFrom(t: string, i: nat, column: nat, indent: int, inFlow: bool): (r: PlainText)
    requires i <= |t|
    ensures r.end >= i
    decreases |t| - i
  {
    var j := LineEnd(t, i, inFlow);
    var line := Stripped(t[i..j], " \t");
    if j >= |t| || EndsPlain(t, j, inFlow) then PlainText(line, j, column + (j - i), false)
    else
      BreakRuns(t, j, column + (j - i), indent, inFlow);
      var run := RunFrom(t, j, column + (j - i), 0, indent, inFlow);
      if run.TabInIndentation? then BadPlain(run.at)
      else if EndsBehind(t, run, indent, inFlow) then
        PlainText(line, run.end, run.column, run.column < indent && At(t, run.end) != '\n' && At(t, run.end) != '\r')
      else
        var rest := PlainFrom(t, run.end, run.column, indent, inFlow);
        if rest.BadPlain? then rest else PlainText(line + Between(run.breaks) + rest.value, rest.end, rest.column, rest.brokeOff)
  }

  lemma BreakRuns(t: string, i: nat, column: nat, indent: int, inFlow: bool)
    requires i < |t| && IsBreak(t[i]) && !EndsPlain(t, i, inFlow)
    ensures var r := RunFrom(t, i, column, 0, indent, inFlow); match r case TabInIndentation(at) => at > i case Run(end, _, n) => end > i && n > 0
  {
    hide EndsPlain;
  }

  // One line

  function EndIn(inFlow: bool): End {
    if inFlow then PlainEndInFlow else PlainEnd
  }

  lemma EndsAre(t: string, i: nat, inFlow: bool)
    ensures EndMatches(EndIn(inFlow), t, i) <==> EndsPlain(t, i, inFlow)
  {
  }

  lemma {:induction false} StrippedIs(s: string, blanks: string)
    ensures Stripped(s, blanks) == s[..LastNotOf(s, blanks) + 1]
  {
    if s != "" && s[|s| - 1] in blanks {
      StrippedIs(s[..|s| - 1], blanks);
      assert s[..|s| - 1][..LastNotOf(s[..|s| - 1], blanks) + 1] == s[..LastNotOf(s, blanks) + 1];
    }
  }

  /** The parameters of a plain scalar: what of them matters. */
  predicate ReadsPlain(p: Params, indent: int, inFlow: bool) {
    && p.end == EndIn(inFlow) && !p.eatEnd && p.indent == indent && !p.detectIndent && p.eatLeadingWhitespace && p.escape == '\0'
    && p.fold == FOLD_FLOW && p.trimTrailingSpaces && p.chomp == STRIP && p.onDocIndicator == BREAK && p.onTabInIndentation == THROW
  }

  /** No NUL: where no scalar is to be escaped, the code takes NUL for the escape character. */
  predicate NoNul(t: string, i: nat, j: nat) {
    forall k :: i <= k < j && k < |t| ==> t[k] != '\0'
  }

  // Between lines

  lemma {:induction false} IndentationRuns(t: string, m: Mark, p: Params, indent: int, inFlow: bool, found: bool, n: nat)
    requires ReadsPlain(p, indent, inFlow)
    ensures var r := IndentationEnd(t, m, p, indent, found);
            RunFrom(t, m.pos, m.column, n, indent, inFlow) == RunFrom(t, r.pos, r.column, n, indent, inFlow)
    decreases |t| - m.pos
  {
    hide EndMatches, EndsPlain;
    EndsAre(t, m.pos, inFlow);
    if At(t, m.pos) == ' ' && m.column < indent && !EndMatches(p.end, t, m.pos) {
      IndentationRuns(t, After(t, m), p, indent, inFlow, found, n);
    }
  }

  lemma {:induction false} BlanksRun(t: string, m: Mark, p: Params, indent: int, inFlow: bool, n: nat)
    requires ReadsPlain(p, indent, inFlow)
    ensures var r, run := BlanksEnd(t, m, p, indent), RunFrom(t, m.pos, m.column, n, indent, inFlow);
            match r
            case TabThrew => run.TabInIndentation?
            case SpacesEnd(q) =>
              && run == RunFrom(t, q.pos, q.column, n, indent, inFlow)
              && (!IsBreak(At(t, q.pos)) ==> run == Run(q.pos, q.column, n))
              && (IsBlank(At(t, q.pos)) ==> EndsPlain(t, q.pos, inFlow))
    decreases |t| - m.pos
  {
    hide EndMatches, EndsPlain;
    EndsAre(t, m.pos, inFlow);
    var c := At(t, m.pos);
    if IsBlank(c) && !(c == '\t' && m.column < indent) && !EndMatches(p.end, t, m.pos) {
      BlanksRun(t, After(t, m), p, indent, inFlow, n);
    }
  }

  /** A line feed for a break in front of an empty line, a space for one between two lines. */
  function RunAdds(t: string, end: nat, breaks: nat, silent: bool): string {
    if IsBreak(At(t, end)) then Newlines(breaks) else if breaks == 1 && silent then "" else Between(breaks)
  }

  function Inked(s: Scalar): string
    requires s.Ok()
  {
    s.text[..s.lastNonWhitespaceChar]
  }

  /** What follows a line that ended at a break. */
  function BehindBreak(t: string, m: Mark, p: Params, s: Scalar, f: Folding, indent: int, found: bool): Reading
    requires s.Ok() && IsBreak(At(t, m.pos))
  {
    var fold := FoldAt(t, m, p, s, f, indent, found, true, false);
    if fold.FoldThrew? then NoReading
    else if !fold.folding.emptyLine && fold.mark.column < fold.indent then Reading(fold.scalar, true, fold.mark)
    else ScalarFrom(t, fold.mark, p, fold.scalar.text, fold.scalar.lastEscapedChar, fold.folding, fold.indent, found, true)
  }

  /** One break and the blanks behind it. */
  lemma OneBreak(t: string, m: Mark, p: Params, s: Scalar, f: Folding, indent: int, inFlow: bool, found: bool, n: nat)
    returns (m1: Mark, m2: Mark)
    requires ReadsPlain(p, indent, inFlow) && s.Ok() && m.pos < |t| && IsBreak(t[m.pos]) && !EndsPlain(t, m.pos, inFlow)
    ensures RunFrom(t, m.pos, m.column, n, indent, inFlow) == RunFrom(t, m1.pos, m1.column, n + 1, indent, inFlow) && m2.pos >= m1.pos > m.pos
    ensures var fold := FoldAt(t, m, p, s, f, indent, found, true, false);
            var run := RunFrom(t, m1.pos, m1.column, n + 1, indent, inFlow);
            match fold
            case FoldThrew => run.TabInIndentation?
            case FoldScanned(next, scalar, folding, indent2) =>
              && indent2 == indent && next == m2 && run == RunFrom(t, m2.pos, m2.column, n + 1, indent, inFlow)
              && folding.emptyLine == IsBreak(At(t, m2.pos))
              && (!IsBreak(At(t, m2.pos)) ==> run == Run(m2.pos, m2.column, n + 1))
              && scalar.lastEscapedChar == s.lastEscapedChar && scalar.lastNonWhitespaceChar == |scalar.text|
              && scalar.text == Inked(s) + (if IsBreak(At(t, m2.pos)) then "\n" else if f.emptyLine then "" else " ")
  {
    m1 := AfterMany(t, m, Break(t, m.pos));
    BreakIsPassed(t, m);
    hide AfterMany, EndsPlain, EndMatches, RunFrom, IndentationEnd, BlanksEnd;
    var indented := IndentationEnd(t, m1, p, indent, found);
    IndentationRuns(t, m1, p, indent, inFlow, found, n + 1);
    BlanksRun(t, indented, p, indent, inFlow, n + 1);
    RunPassesBreak(t, m, indent, inFlow, n);
    var spaces := BlanksEnd(t, indented, p, indent);
    m2 := if spaces.SpacesEnd? then spaces.mark else m1;
  }

  lemma RunPassesBreak(t: string, m: Mark, indent: int, inFlow: bool, n: nat)
    requires m.pos < |t| && IsBreak(t[m.pos]) && !EndsPlain(t, m.pos, inFlow)
    ensures var m1 := AfterMany(t, m, Break(t, m.pos));
            RunFrom(t, m.pos, m.column, n, indent, inFlow) == RunFrom(t, m1.pos, m1.column, n + 1, indent, inFlow)
  {
    hide EndsPlain;
    var one := After(t, m);
    assert AfterMany(t, m, 1) == After(t, AfterMany(t, m, 0)) == one;
    assert AfterMany(t, m, 2) == After(t, one);
  }

  lemma BreakIsPassed(t: string, m: Mark)
    requires IsBreak(At(t, m.pos))
    ensures AfterMany(t, m, Break(t, m.pos)).pos == m.pos + Break(t, m.pos)
  {
  }

  lemma RunAddsMore(before: string, t: string, end: nat, n: nat, silent: bool)
    requires n > 0
    ensures before + "\n" + RunAdds(t, end, n, true) == before + RunAdds(t, end, n + 1, silent)
  {
    FlowFolding.NewlineInFront(n);
    FlowFolding.NewlineInFront(n - 1);
    assert before + "\n" + Newlines(n) == before + ("\n" + Newlines(n));
    assert before + "\n" + Newlines(n - 1) == before + ("\n" + Newlines(n - 1));
    assert before + "\n" + "" == before + "\n" && Newlines(1) == Newlines(0) + "\n" == "\n";
  }

  /** A break that ends an empty line. */
  lemma EmptyLineBreaks(t: string, m: Mark, p: Params, s: Scalar, f: Folding, indent: int, inFlow: bool, found: bool)
    requires ReadsPlain(p, indent, inFlow) && s.Ok() && s.lastNonWhitespaceChar == |s.text| && m.pos < |t| && IsBreak(t[m.pos])
    requires !EndsPlain(t, m.pos, inFlow)
    ensures ScalarFrom(t, m, p, s.text, s.lastEscapedChar, f, indent, found, true) == BehindBreak(t, m, p, s, f, indent, found)
  {
    EndsAre(t, m.pos, inFlow);
    hide EndsPlain, ScalarReading.EndMatches, FoldAt;
  }

  /** Everything between two lines. */
  lemma {:induction false} RunReads(t: string, m: Mark, p: Params, s: Scalar, f: Folding, indent: int, inFlow: bool, found: bool, n: nat)
    returns (m2: Mark, f2: Folding)
    requires ReadsPlain(p, indent, inFlow) && s.Ok() && m.pos < |t| && IsBreak(t[m.pos]) && !EndsPlain(t, m.pos, inFlow)
    ensures var run := RunFrom(t, m.pos, m.column, n, indent, inFlow); var r := BehindBreak(t, m, p, s, f, indent, found);
            match run
            case TabInIndentation(_) => r.NoReading?
            case Run(end, column, k) =>
              && k > n && m2.pos == end && m2.column == column && f2.emptyLine == IsBreak(At(t, end))
              && var text := Inked(s) + RunAdds(t, end, k - n, f.emptyLine);
                 r == if !IsBreak(At(t, end)) && column < indent then Reading(Scalar(text, s.lastEscapedChar, |text|), true, m2)
                      else ScalarFrom(t, m2, p, text, s.lastEscapedChar, f2, indent, found, true)
    decreases |t| - m.pos
  {
    hide EndsPlain, ScalarReading.EndMatches, FoldAt, ScalarFrom, RunFrom, ReadsPlain, Inked, Newlines;
    var m1, next := OneBreak(t, m, p, s, f, indent, inFlow, found, n);
    m2, f2 := next, f;
    var fold := FoldAt(t, m, p, s, f, indent, found, true, false);
    OneAdds(t, next.pos, f.emptyLine);
    hide RunAdds;
    if fold.FoldScanned? {
      f2 := fold.folding;
      if next.pos < |t| && IsBreak(t[next.pos]) {
        if !EndsPlain(t, next.pos, inFlow) {
          var s2 := fold.scalar;
          EmptyLineBreaks(t, next, p, s2, f2, indent, inFlow, found);
          InkedAll(s2);
          m2, f2 := RunReads(t, next, p, s2, f2, indent, inFlow, found, n + 1);
          var run := RunFrom(t, next.pos, next.column, n + 1, indent, inFlow);
          if run.Run? {
            RunAddsMore(Inked(s), t, run.end, run.breaks - n - 1, f.emptyLine);
          }
        } else {
          RunStops(t, next.pos, next.column, n + 1, indent, inFlow);
        }
      }
    }
  }

  lemma OneAdds(t: string, end: nat, silent: bool)
    ensures RunAdds(t, end, 1, silent) == if IsBreak(At(t, end)) then "\n" else if silent then "" else " "
  {
    assert Newlines(1) == Newlines(0) + "\n" == "\n";
  }

  lemma InkedAll(s: Scalar)
    requires s.Ok() && s.lastNonWhitespaceChar == |s.text|
    ensures Inked(s) == s.text
  {
  }

  lemma RunStops(t: string, i: nat, column: nat, n: nat, indent: int, inFlow: bool)
    requires i < |t| && IsBreak(t[i]) && EndsPlain(t, i, inFlow)
    ensures RunFrom(t, i, column, n, indent, inFlow) == Run(i, column, n)
  {
    hide EndsPlain;
  }

  // The characters of a line

  lemma LastOfMore(c: char, rest: string, blanks: string)
    ensures LastNotOf([c] + rest, blanks) ==
            if LastNotOf(rest, blanks) >= 0 then LastNotOf(rest, blanks) + 1 else if c in blanks then -1 else 0
  {
    hide LastNotOf;
    var w, r := [c] + rest, LastNotOf(rest, blanks);
    var q := LastNotOf(w, blanks);
    assert w[0] == c;
    assert forall k :: 0 < k < |w| ==> w[k] == rest[k - 1];
    assert forall k :: 0 <= k < |rest| ==> rest[k] == w[k + 1];
    assert r >= 0 ==> q >= r + 1;
  }

  /** How many characters of a line there are up to its last one that is no blank. */
  function InkIn(before: nat, ink: nat, raw: string): nat {
    if LastNotOf(raw, " \t") >= 0 then before + LastNotOf(raw, " \t") + 1 else ink
  }

  lemma {:induction false} LineReads(t: string, m: Mark, p: Params, s: Scalar, indent: int, inFlow: bool, found: bool)
    requires ReadsPlain(p, indent, inFlow) && s.Ok() && m.pos <= |t| && (m.pos < |t| ==> !AtIndicator(t, m))
    requires NoNul(t, m.pos, LineEnd(t, m.pos, inFlow))
    ensures var j := LineEnd(t, m.pos, inFlow); var raw, r := t[m.pos..j], LineFrom(t, m, p, s, found);
            && r.LineScanned? && !r.escapedNewline && r.mark == Mark(j, m.line, m.column + (j - m.pos))
            && r.scalar == Scalar(s.text + raw, s.lastEscapedChar, InkIn(|s.text|, s.lastNonWhitespaceChar, raw))
    decreases |t| - m.pos
  {
    hide EndsPlain, ScalarReading.EndMatches, DocIndicator, LastNotOf;
    EndsAre(t, m.pos, inFlow);
    var j := LineEnd(t, m.pos, inFlow);
    if m.pos < j {
      var c := t[m.pos];
      assert t[m.pos..j] == [c] + t[m.pos + 1..j];
      LastOfMore(c, t[m.pos + 1..j], " \t");
      LineReads(t, After(t, m), p, AddChar(s, c), indent, inFlow, true);
      assert s.text + [c] + t[m.pos + 1..j] == s.text + t[m.pos..j];
    } else {
      assert s.text + t[m.pos..j] == s.text;
      LastOfNothing(t[m.pos..j]);
    }
  }

  lemma LastOfNothing(raw: string)
    requires raw == ""
    ensures LastNotOf(raw, " \t") == -1
  {
  }

  // All lines

  /** The scalar's text, and white space that is cut off it in the end. */
  ghost predicate Padded(s: Scalar, text: string) {
    && s.Ok() && s.lastEscapedChar == -1 && text != "" && text[|text| - 1] !in WHITE && text <= s.text
    && ((forall k :: |text| <= k < |s.text| ==> s.text[k] in " \t") || (forall k :: |text| <= k < |s.text| ==> s.text[k] == '\n'))
  }

  lemma PaddingIsCut(s: Scalar, p: Params, indent: int, inFlow: bool, text: string)
    requires ReadsPlain(p, indent, inFlow) && Padded(s, text)
    ensures Finished(s, p) == text
  {
    var n := |text| - 1;
    assert s.text[n] == text[n];
    var cut := Trimmed(s.text, -1);
    if forall k :: |text| <= k < |s.text| ==> s.text[k] in " \t" {
      assert LastNotOf(s.text, " \t") == n;
      assert cut == s.text[..n + 1] == text;
      assert LastNotOf(text, "\n") == n;
      assert Chomped(text, -1, STRIP) == text;
    } else {
      assert s.text[|s.text| - 1] == '\n';
      assert LastNotOf(s.text, " \t") == |s.text| - 1;
      assert cut == s.text;
      assert LastNotOf(cut, "\n") == n;
    }
  }

  lemma {:induction false} NewlinesAre(n: nat)
    ensures |Newlines(n)| == n && forall k :: 0 <= k < n ==> Newlines(n)[k] == '\n'
  {
    if n > 0 {
      NewlinesAre(n - 1);
    }
  }

  lemma RunPads(before: string, t: string, end: nat, n: nat)
    requires n > 0 && before != "" && before[|before| - 1] !in WHITE
    ensures var text := before + RunAdds(t, end, n, false); Padded(Scalar(text, -1, |text|), before)
  {
    NewlinesAre(n);
    NewlinesAre(n - 1);
    hide Newlines;
  }

  /** A line up to its last character that is no blank. */
  lemma LineIsInked(before: string, raw: string)
    requires raw != "" && raw[0] !in WHITE && forall k :: 0 <= k < |raw| ==> raw[k] != '\n' && raw[k] != '\r'
    ensures var s := Scalar(before + raw, -1, InkIn(|before|, |before|, raw)); var line := before + Stripped(raw, " \t");
            s.Ok() && Inked(s) == line && Padded(s, line) && line != "" && line[|line| - 1] !in WHITE
  {
    StrippedIs(raw, " \t");
    hide Stripped;
    var last := LastNotOf(raw, " \t");
    assert last >= 0;
    var line := before + raw[..last + 1];
    assert (before + raw)[..|before| + last + 1] == line;
    assert line[|line| - 1] == raw[last];
    forall k | |line| <= k < |before + raw|
      ensures (before + raw)[k] in " \t"
    {
      assert (before + raw)[k] == raw[k - |before|];
    }
  }

  lemma {:induction false} NoBreakInLine(t: string, i: nat, inFlow: bool)
    requires i <= |t|
    ensures forall k :: i <= k < LineEnd(t, i, inFlow) ==> t[k] != '\n' && t[k] != '\r'
    decreases |t| - i
  {
    hide EndsPlain;
    if i < LineEnd(t, i, inFlow) {
      NoBreakInLine(t, i + 1, inFlow);
    }
  }

  /** A line that begins with a character of the scalar. */
  predicate BeginsLine(t: string, m: Mark, inFlow: bool) {
    m.pos < |t| && t[m.pos] !in WHITE && !EndsPlain(t, m.pos, inFlow) && !AtIndicator(t, m)
  }

  lemma LineHasInk(t: string, m: Mark, inFlow: bool)
    requires BeginsLine(t, m, inFlow)
    ensures LineEnd(t, m.pos, inFlow) > m.pos && t[m.pos..LineEnd(t, m.pos, inFlow)][0] !in WHITE
  {
    hide EndsPlain, DocIndicator;
  }

  /** A line of the scalar, and where it ends. */
  lemma LineScans(t: string, m: Mark, p: Params, before: string, f: Folding, indent: int, inFlow: bool, found: bool)
    returns (s: Scalar, foundNow: bool)
    requires ReadsPlain(p, indent, inFlow) && BeginsLine(t, m, inFlow) && NoNul(t, m.pos, LineEnd(t, m.pos, inFlow))
    ensures var j := LineEnd(t, m.pos, inFlow); var line := before + Stripped(t[m.pos..j], " \t");
            var here := Mark(j, m.line, m.column + (j - m.pos)); var read := ScalarFrom(t, m, p, before, -1, f, indent, found, true);
            && j > m.pos && s.Ok() && line != "" && line[|line| - 1] !in WHITE
            && Padded(s, line) && s.lastEscapedChar == -1 && Inked(s) == line
            && read == if j >= |t| || EndsPlain(t, j, inFlow) then Reading(s, false, here) else BehindBreak(t, here, p, s, f, indent, foundNow)
  {
    hide LineEnd, FoldAt, Stripped, Padded, NoNul, LastNotOf;
    var j := LineEnd(t, m.pos, inFlow);
    LineHasInk(t, m, inFlow);
    LineReads(t, m, p, Scalar(before, -1, |before|), indent, inFlow, false);
    NoBreakInLine(t, m.pos, inFlow);
    LineIsInked(before, t[m.pos..j]);
    var line := LineAt(t, m, p, before, -1);
    s, foundNow := line.scalar, found || line.foundNonEmptyLine;
    hide LineAt, Inked, InkIn;
    if j < |t| {
      EndsAre(t, j, inFlow);
      NotAtIndicator(t, j, m.column + (j - m.pos));
    }
    hide EndsPlain, ScalarReading.EndMatches, DocIndicator;
  }

  lemma NotAtIndicator(t: string, j: nat, column: nat)
    requires column > 0
    ensures forall line :: !AtIndicator(t, Mark(j, line, column))
  {
  }

  /** The rest of a plain scalar is read as said. */
  lemma {:induction false} LinesRead(t: string, m: Mark, p: Params, before: string, f: Folding, indent: int, inFlow: bool, found: bool)
    requires ReadsPlain(p, indent, inFlow) && BeginsLine(t, m, inFlow) && !f.emptyLine
    requires NoNul(t, m.pos, PlainFrom(t, m.pos, m.column, indent, inFlow).end)
    ensures var r := PlainFrom(t, m.pos, m.column, indent, inFlow); var read := ScalarFrom(t, m, p, before, -1, f, indent, found, true);
            match r
            case BadPlain(_) => read.NoReading?
            case PlainText(value, end, column, brokeOff) =>
              read.Reading? && read.mark.pos == end && read.mark.column == column && read.leadingSpaces == brokeOff && Padded(read.scalar, before + value)
    decreases |t| - m.pos
  {
    hide EndsPlain, ScalarReading.EndMatches, FoldAt, ScalarFrom, BehindBreak, RunFrom, ReadsPlain, Padded, Stripped, DocIndicator,
         Newlines, Inked;
    var j := LineEnd(t, m.pos, inFlow);
    EndIsAhead(t, m.pos, m.column, indent, inFlow);
    var line := Stripped(t[m.pos..j], " \t");
    var s, foundNow := LineScans(t, m, p, before, f, indent, inFlow, found);
    if j < |t| && !EndsPlain(t, j, inFlow) {
      var here := Mark(j, m.line, m.column + (j - m.pos));
      var m2, f2 := RunReads(t, here, p, s, f, indent, inFlow, foundNow, 0);
      var run := RunFrom(t, j, here.column, 0, indent, inFlow);
      if run.Run? {
        var text := before + line + RunAdds(t, run.end, run.breaks, false);
        RunPads(before + line, t, run.end, run.breaks);
        RunEnds(t, j, here.column, 0, indent, inFlow);
        if EndsBehind(t, run, indent, inFlow) && !(run.column < indent && !IsBreak(At(t, run.end))) {
          EndsHere(t, m2, p, text, f2, indent, inFlow, foundNow);
        } else if !EndsBehind(t, run, indent, inFlow) {
          NextBegins(t, m2, run, indent, inFlow);
          var rest := PlainFrom(t, run.end, run.column, indent, inFlow);
          LinesRead(t, m2, p, text, f2, indent, inFlow, foundNow);
          if rest.PlainText? {
            Regrouped(before, line, Between(run.breaks), rest.value);
          }
        }
      }
    }
  }

  lemma {:induction false} RunEnds(t: string, i: nat, column: nat, breaks: nat, indent: int, inFlow: bool)
    ensures var r := RunFrom(t, i, column, breaks, indent, inFlow);
            r.Run? ==> r.end >= |t| || t[r.end] !in WHITE || EndsPlain(t, r.end, inFlow)
    decreases |t| - i
  {
    hide EndsPlain;
    if i < |t| && t[i] in WHITE && !(t[i] == '\t' && column < indent) && !EndsPlain(t, i, inFlow) {
      if t[i] == '\r' && At(t, i + 1) == '\n' {
        RunEnds(t, i + 2, 0, breaks + 1, indent, inFlow);
      } else {
        RunEnds(t, i + 1, if t[i] == '\n' then 0 else column + 1, if IsBreak(t[i]) then breaks + 1 else breaks, indent, inFlow);
      }
    }
  }

  lemma NextBegins(t: string, m: Mark, run: Run, indent: int, inFlow: bool)
    requires run.Run? && m.pos == run.end && m.column == run.column && !EndsBehind(t, run, indent, inFlow)
    requires run.end < |t| && (t[run.end] !in WHITE || EndsPlain(t, run.end, inFlow))
    ensures BeginsLine(t, m, inFlow)
  {
    hide EndsPlain, DocIndicator;
  }

  lemma Regrouped(before: string, line: string, between: string, rest: string)
    ensures before + line + between + rest == before + (line + between + rest)
  {
  }

  /** Behind a line, where the scalar ends for another reason than the indentation. */
  lemma EndsHere(t: string, m: Mark, p: Params, text: string, f: Folding, indent: int, inFlow: bool, found: bool)
    requires ReadsPlain(p, indent, inFlow) && (m.pos >= |t| || EndsPlain(t, m.pos, inFlow) || AtIndicator(t, m))
    ensures ScalarFrom(t, m, p, text, -1, f, indent, found, true) == Reading(Scalar(text, -1, |text|), false, m)
  {
    EndsAre(t, m.pos, inFlow);
    hide EndsPlain, ScalarReading.EndMatches, FoldAt, DocIndicator;
  }

  lemma EndIsAhead(t: string, i: nat, column: nat, indent: int, inFlow: bool)
    requires i <= |t|
    ensures PlainFrom(t, i, column, indent, inFlow).end >= LineEnd(t, i, inFlow)
  {
    hide EndsPlain, RunFrom;
  }

  /** The scanner's plain scalars, in a flow or in a block at this column. */
  lemma PlainScalarReads(t: string, m: Mark, inFlow: bool, top: int)
    requires BeginsLine(t, m, inFlow) && NoNul(t, m.pos, PlainFrom(t, m.pos, m.column, if inFlow then 0 else top + 1, inFlow).end)
    ensures var r := ReadScalar(t, m, PlainParams(inFlow, top));
            match PlainFrom(t, m.pos, m.column, if inFlow then 0 else top + 1, inFlow)
            case BadPlain(_) => r.ScalarThrows?
            case PlainText(value, end, column, brokeOff) =>
              r.ScalarEnds? && r.value == value && r.mark.pos == end && r.mark.column == column && r.leadingSpaces == brokeOff
  {
    hide EndsPlain, ScalarFrom, Padded, DocIndicator, Finished, PlainFrom;
    var p, indent := PlainParams(inFlow, top), if inFlow then 0 else top + 1;
    LinesRead(t, m, p, "", Folding(false, false, 0, false), indent, inFlow, false);
    var r := PlainFrom(t, m.pos, m.column, indent, inFlow);
    if r.PlainText? {
      assert "" + r.value == r.value;
      PaddingIsCut(Lines(t, m, p).scalar, p, indent, inFlow, r.value);
    }
  }

  /** One that ends on its line. */
  lemma PlainLineReads(t: string, m: Mark, inFlow: bool, top: int)
    requires BeginsLine(t, m, inFlow) && NoNul(t, m.pos, LineEnd(t, m.pos, inFlow))
    requires var j := LineEnd(t, m.pos, inFlow); j >= |t| || EndsPlain(t, j, inFlow)
    ensures var j := LineEnd(t, m.pos, inFlow);
            ReadScalar(t, m, PlainParams(inFlow, top)) ==
            ScalarEnds(Stripped(t[m.pos..j], " \t"), false, Mark(j, m.line, m.column + (j - m.pos)))
  {
    hide EndsPlain, ScalarFrom, Padded, DocIndicator, Finished, Stripped;
    var p, indent := PlainParams(inFlow, top), if inFlow then 0 else top + 1;
    var s, _ := LineScans(t, m, p, "", Folding(false, false, 0, false), indent, inFlow, false);
    var line := Stripped(t[m.pos..LineEnd(t, m.pos, inFlow)], " \t");
    assert "" + line == line;
    PaddingIsCut(s, p, indent, inFlow, line);
  }
}
