/**
 * Literal block scalars (section 8.1.2 of YAML 1.2): the lines of a block come through as they stand, without their
 * indentation, whether that was given or is detected.
 */
module LiteralScalars {
  import opened Exp
  import opened Streaming
  import opened ScannerState
  import opened ScalarReading
  import opened ScalarLines
  import opened TokenText
  import opened FlowFolding

  /** A line of a block: its indentation and what follows it; an empty one has no text. */
  datatype BlockLine = BlockLine(spaces: nat, text: string)

  function Spaces(n: nat): (s: string)
    ensures |s| == n && forall i :: 0 <= i < n ==> s[i] == ' '
  {
    if n == 0 then "" else " " + Spaces(n - 1)
  }

  predicate IsLineFeed(brk: string) {
    brk == "\n" || brk == "\r\n"
  }

  function LayOutBlock(lines: seq<BlockLine>, brk: string): string {
    if lines == [] then "" else Spaces(lines[0].spaces) + (lines[0].text + brk) + LayOutBlock(lines[1..], brk)
  }

  /** What the lines stand for. */
  function Value(lines: seq<BlockLine>): string {
    if lines == [] then "" else lines[0].text + "\n" + Value(lines[1..])
  }

  /** Characters of one line. */
  predicate IsLineText(text: string) {
    forall i :: 0 <= i < |text| ==> !IsBreak(text[i]) && text[i] != EOF && text[i] != '\0'
  }

  predicate HasText(lines: seq<BlockLine>) {
    exists i :: 0 <= i < |lines| && lines[i].text != ""
  }

  /**
   * Lines of a block whose indentation is n. While it is to be detected, the first line with text may not begin with
   * one space more; `found` is whether it is known.
   */
  predicate LinesOk(lines: seq<BlockLine>, n: nat, found: bool) {
    if lines == [] then true
    else
      && IsLineText(lines[0].text)
      && (if lines[0].text == "" then lines[0].spaces <= n
          else lines[0].spaces == n && (found || lines[0].text[0] != ' '))
      && LinesOk(lines[1..], n, found || lines[0].text != "")
  }

  /** The parameters of a block scalar. */
  predicate IsBlock(p: Params) {
    && p.end == Empty && !p.eatEnd && p.escape == '\0' && p.fold != FOLD_FLOW && !p.eatLeadingWhitespace
    && !p.trimTrailingSpaces && p.onDocIndicator == Reaction.NONE && p.onTabInIndentation == THROW
  }

  predicate IsLiteral(p: Params) {
    IsBlock(p) && p.fold == DONT_FOLD
  }

  // A line

  lemma {:induction false} StopsAtBreak(t: string, i: nat, w: string, rest: string)
    requires Follows(t, i, w + rest) && IsLineText(w) && rest != "" && IsBreak(rest[0])
    ensures LineStop(t, i, Empty) == i + |w| && t[i..i + |w|] == w && Follows(t, i + |w|, rest)
    decreases |w|
  {
    FollowsOn(t, i, w, rest);
    if w == "" {
      assert t[i] == t[i..][0];
      assert "" + rest == rest;
    } else {
      var v := w[1..];
      assert w + rest == [w[0]] + (v + rest);
      FollowsOn(t, i, [w[0]], v + rest);
      StopsAtBreak(t, i + 1, v, rest);
      assert t[i..i + |w|] == [t[i]] + t[i + 1..i + |w|];
    }
  }

  lemma TextReads(t: string, m: Mark, p: Params, text: string, w: string, rest: string) returns (here: Mark, s: Scalar, found: bool)
    requires IsBlock(p) && Follows(t, m.pos, w + rest) && IsLineText(w) && rest != "" && IsBreak(rest[0])
    ensures LineAt(t, m, p, text, -1) == LineScanned(here, s, found, false)
    ensures s.Ok() && s.text == text + w && s.lastEscapedChar == -1 && found == (w != "")
    ensures here.pos == m.pos + |w| < |t| && Follows(t, here.pos, rest) && IsBreak(t[here.pos])
  {
    hide LineFrom, LineStop, DocIndicator;
    StopsAtBreak(t, m.pos, w, rest);
    NoZeroIn(w);
    var s0 := Scalar(text, -1, |text|);
    BlockLineReads(t, m, p, s0, false);
    var r := LineAt(t, m, p, text, -1);
    here, s, found := r.mark, r.scalar, r.foundNonEmptyLine;
    assert t[here.pos] == t[here.pos..][0];
  }

  lemma NoZeroIn(w: string)
    requires IsLineText(w)
    ensures '\0' !in w
  {
  }

  /** A line of a block is read as it stands, document markers included. */
  lemma {:induction false} BlockLineReads(t: string, m: Mark, p: Params, s: Scalar, found: bool)
    requires IsBlock(p) && s.Ok() && m.pos <= |t| && '\0' !in t[m.pos..LineStop(t, m.pos, p.end)]
    ensures var j := LineStop(t, m.pos, p.end); var r := LineFrom(t, m, p, s, found);
            && r.LineScanned? && !r.escapedNewline && r.mark.pos == j && r.scalar.text == s.text + t[m.pos..j]
            && r.scalar.lastEscapedChar == s.lastEscapedChar && r.foundNonEmptyLine == (found || m.pos < j)
    decreases |t| - m.pos
  {
    hide DocIndicator;
    var j := LineStop(t, m.pos, p.end);
    if m.pos < j {
      var c := t[m.pos];
      assert c == t[m.pos..j][0] && t[m.pos..j] == [c] + t[m.pos + 1..j];
      BlockLineReads(t, After(t, m), p, AddChar(s, c), true);
      assert s.text + [c] + t[m.pos + 1..j] == s.text + t[m.pos..j];
    } else {
      assert s.text + t[m.pos..j] == s.text;
    }
  }

  // A break and the indentation behind it

  /** As many spaces as there are, or as the indentation asks for. */
  lemma {:induction false} SpacesAreEaten(t: string, m: Mark, p: Params, indent: int, found: bool, k: nat, rest: string)
    requires IsBlock(p) && Follows(t, m.pos, Spaces(k) + rest)
    requires (p.detectIndent && !found) || m.column + k <= indent
    requires rest == "" || rest[0] != ' ' || (!(p.detectIndent && !found) && m.column + k == indent)
    ensures IndentationEnd(t, m, p, indent, found) == Past(m, k) && Follows(t, m.pos + k, rest)
    decreases k
  {
    FollowsOn(t, m.pos, Spaces(k), rest);
    if k == 0 {
      assert "" + rest == rest && Past(m, 0) == m;
      if rest != "" {
        assert t[m.pos] == t[m.pos..][0];
      }
    } else {
      assert Spaces(k) + rest == " " + (Spaces(k - 1) + rest);
      FollowsOn(t, m.pos, " ", Spaces(k - 1) + rest);
      SpacesAreEaten(t, After(t, m), p, indent, found, k - 1, rest);
    }
  }

  lemma FeedIs(t: string, m: Mark, brk: string, rest: string)
    requires IsLineFeed(brk) && Follows(t, m.pos, brk + rest)
    ensures IsBreak(At(t, m.pos)) && Break(t, m.pos) == |brk| && Follows(t, m.pos + |brk|, rest)
    ensures AfterMany(t, m, |brk|) == Mark(m.pos + |brk|, m.line + 1, 0)
  {
    FollowsOn(t, m.pos, brk, rest);
    if |brk| == 2 {
      assert t[m.pos + 1] == t[m.pos..][1];
      assert AfterMany(t, m, 2) == After(t, AfterMany(t, m, 1));
    }
    assert AfterMany(t, m, 1) == After(t, AfterMany(t, m, 0));
  }

  /** One break and the next line's indentation. */
  lemma BreakReads(t: string, m: Mark, p: Params, s: Scalar, f: Folding, indent: int, found: bool, past: bool, brk: string, k: nat, rest: string)
    returns (m2: Mark, f2: Folding)
    requires IsBlock(p) && s.Ok() && IsLineFeed(brk) && Follows(t, m.pos, brk + (Spaces(k) + rest)) && s.lastEscapedChar == -1
    requires (p.detectIndent && !found) || k <= indent
    requires rest == "" || rest[0] != ' ' || (!(p.detectIndent && !found) && k == indent)
    requires rest != "" && rest[0] == '\t' ==> k >= indent
    ensures IsBreak(At(t, m.pos)) && Follows(t, m2.pos, rest) && m2.column == k && m2.pos == m.pos + |brk| + k
    ensures var empty, more := rest != "" && IsBreak(rest[0]), rest != "" && IsBlank(rest[0]);
            var started := if p.fold == FOLD_BLOCK && f.newlines == 0 && empty then f.moreIndented else f.startedMoreIndented;
            var newIndent := if p.detectIndent && !found && k > indent then k else indent;
            var (added, newlines) := if past then FoldBreak(p, f.(startedMoreIndented := started), empty, more, k >= newIndent, found, false)
                                     else ("", f.newlines);
            && f2 == Folding(empty, more, newlines, started)
            && FoldAt(t, m, p, s, f, indent, found, past, false) ==
               FoldScanned(m2, Scalar(s.text + added, -1, |s.text + added|), f2, newIndent)
  {
    hide AfterMany, IndentationEnd, Break, FoldBreak;
    FeedIs(t, m, brk, Spaces(k) + rest);
    var m1 := AfterMany(t, m, |brk|);
    SpacesAreEaten(t, m1, p, indent, found, k, rest);
    m2 := Past(m1, k);
    if rest != "" {
      assert t[m2.pos] == t[m2.pos..][0];
    }
    var fold := FoldAt(t, m, p, s, f, indent, found, past, false);
    f2 := fold.folding;
  }

  /** In a literal each break is kept, but for the one behind the indicator. */
  lemma LiteralBreakReads(t: string, m: Mark, p: Params, s: Scalar, f: Folding, indent: int, found: bool, past: bool, brk: string, k: nat,
                          rest: string)
    returns (m2: Mark, f2: Folding)
    requires IsLiteral(p) && s.Ok() && IsLineFeed(brk) && Follows(t, m.pos, brk + (Spaces(k) + rest)) && s.lastEscapedChar == -1
    requires (p.detectIndent && !found) || k <= indent
    requires rest == "" || rest[0] != ' ' || (!(p.detectIndent && !found) && k == indent)
    requires rest != "" && rest[0] == '\t' ==> k >= indent
    ensures IsBreak(At(t, m.pos)) && Follows(t, m2.pos, rest) && m2.column == k && m2.pos == m.pos + |brk| + k
    ensures f2.emptyLine == (rest != "" && IsBreak(rest[0]))
    ensures var newIndent := if p.detectIndent && !found && k > indent then k else indent;
            var text := s.text + if past then "\n" else "";
            FoldAt(t, m, p, s, f, indent, found, past, false) == FoldScanned(m2, Scalar(text, -1, |text|), f2, newIndent)
  {
    hide FoldAt, Spaces;
    m2, f2 := BreakReads(t, m, p, s, f, indent, found, past, brk, k, rest);
  }

  // All lines

  /** What stands behind the block: less indented, or the end of the text. */
  predicate Ends(k: nat, rest: string, indent: int) {
    k < indent && (rest != "" ==> !IsBlank(rest[0]) && !IsBreak(rest[0]))
  }

  ghost function Behind(lines: seq<BlockLine>, brk: string, k: nat, rest: string): string {
    LayOutBlock(lines, brk) + (Spaces(k) + rest)
  }

  lemma BehindFirst(lines: seq<BlockLine>, brk: string, k: nat, rest: string)
    requires lines != []
    ensures var l := lines[0];
            && Behind(lines, brk, k, rest) == Spaces(l.spaces) + (l.text + (brk + Behind(lines[1..], brk, k, rest)))
            && |LayOutBlock(lines, brk)| == l.spaces + |l.text| + |brk| + |LayOutBlock(lines[1..], brk)|
  {
    var l, more := lines[0], LayOutBlock(lines[1..], brk);
    assert LayOutBlock(lines, brk) == Spaces(l.spaces) + (l.text + brk) + more;
    hide Spaces, LayOutBlock;
    Grouped(Spaces(l.spaces), l.text, brk, more, Spaces(k) + rest);
  }

  lemma Grouped(a: string, b: string, c: string, d: string, e: string)
    ensures a + (b + c) + d + e == a + (b + (c + (d + e)))
  {
  }

  /** What is known of the indentation: it is n, or nothing but empty lines has been read. */
  predicate Knows(p: Params, indent: int, n: nat, found: bool) {
    if p.detectIndent && !found then p.indent <= indent <= n else indent == n
  }

  /** One line more: the break in front of it, and its text. */
  lemma LineReads(t: string, m: Mark, p: Params, s: Scalar, f: Folding, indent: int, found: bool, past: bool, l: BlockLine, brk: string,
                  behind: string)
    returns (here: Mark, s2: Scalar, f2: Folding)
    requires IsLiteral(p) && s.Ok() && s.lastEscapedChar == -1 && IsLineFeed(brk)
    requires Follows(t, m.pos, brk + (Spaces(l.spaces) + (l.text + behind))) && behind != "" && IsBreak(behind[0])
    requires IsLineText(l.text) && ((p.detectIndent && !found) || l.spaces <= indent)
    requires l.text != "" ==> if p.detectIndent && !found then l.text[0] != ' ' && l.spaces >= indent else l.spaces == indent
    ensures IsBreak(At(t, m.pos)) && IsBreak(At(t, here.pos)) && s2.Ok() && s2.lastEscapedChar == -1
    ensures var empty := l.text == "";
            && s2.text == s.text + (if past then "\n" else "") + l.text
            && Follows(t, here.pos, behind) && here.pos == m.pos + |brk| + l.spaces + |l.text|
            && AfterBreak(t, m, p, s, f, indent, found, past) ==
               AfterBreak(t, here, p, s2, f2, if p.detectIndent && !found && l.spaces > indent then l.spaces else indent, found || !empty, true)
  {
    hide FoldAt, LineAt, ScalarFrom, Spaces, FoldBreak;
    FirstText(l.text, behind);
    var m2;
    m2, f2 := LiteralBreakReads(t, m, p, s, f, indent, found, past, brk, l.spaces, l.text + behind);
    hide IsLineText;
    var newIndent := if p.detectIndent && !found && l.spaces > indent then l.spaces else indent;
    var text := s.text + if past then "\n" else "";
    var foundHere;
    here, s2, foundHere := TextReads(t, m2, p, text, l.text, behind);
    OneMoreLine(t, m2, p, text, f2, newIndent, found, here, s2, foundHere);
  }

  lemma LastReads(t: string, m: Mark, p: Params, s: Scalar, f: Folding, indent: int, found: bool, past: bool, brk: string, k: nat, rest: string,
                  n: nat)
    requires IsLiteral(p) && s.Ok() && s.lastEscapedChar == -1 && IsLineFeed(brk) && p.indent > 0
    requires Follows(t, m.pos, brk + Behind([], brk, k, rest)) && IsBreak(At(t, m.pos)) && Knows(p, indent, n, found)
    requires Ends(k, rest, if p.detectIndent && !found then p.indent else n)
    ensures var r := AfterBreak(t, m, p, s, f, indent, found, past);
            && r.Reading? && r.scalar.text == s.text + (if past then "\n" else "") && r.scalar.lastEscapedChar == -1
            && r.leadingSpaces && r.mark.pos == m.pos + |brk| + k
  {
    hide FoldAt, LineAt, ScalarFrom, Spaces, HasText, LayOutBlock;
    NothingLaidOut(brk, k, rest);
    hide Behind;
    var m2, f2 := LiteralBreakReads(t, m, p, s, f, indent, found, past, brk, k, rest);
  }

  /** The lines behind a line that was read up to its break at m. */
  lemma {:induction false} LinesRead(t: string, m: Mark, p: Params, s: Scalar, f: Folding, indent: int, found: bool, past: bool, n: nat,
                                     lines: seq<BlockLine>, brk: string, k: nat, rest: string)
    requires IsLiteral(p) && s.Ok() && s.lastEscapedChar == -1 && IsLineFeed(brk) && p.indent > 0
    requires Follows(t, m.pos, brk + Behind(lines, brk, k, rest)) && IsBreak(At(t, m.pos)) && Knows(p, indent, n, found)
    requires LinesOk(lines, n, !p.detectIndent || found)
    requires Ends(k, rest, if p.detectIndent && !found && !HasText(lines) then p.indent else n)
    ensures var r := AfterBreak(t, m, p, s, f, indent, found, past);
            && r.Reading? && r.scalar.text == s.text + (if past then "\n" else "") + Value(lines) && r.scalar.lastEscapedChar == -1
            && r.leadingSpaces && r.mark.pos == m.pos + |brk| + |LayOutBlock(lines, brk)| + k
    decreases |lines|
  {
    hide FoldAt, ScalarFrom, IsLineText, Spaces, HasText, LayOutBlock, AfterBreak;
    var text := s.text + if past then "\n" else "";
    if lines == [] {
      NothingLaidOut(brk, k, rest);
      LastReads(t, m, p, s, f, indent, found, past, brk, k, rest, n);
      assert text + "" == text;
    } else {
      var l, others := lines[0], lines[1..];
      BehindFirst(lines, brk, k, rest);
      var behind := brk + Behind(others, brk, k, rest);
      FeedLeads(brk, Behind(others, brk, k, rest));
      var here, s2, f2 := LineReads(t, m, p, s, f, indent, found, past, l, brk, behind);
      FirstHasText(lines);
      var newIndent := if p.detectIndent && !found && l.spaces > indent then l.spaces else indent;
      LinesRead(t, here, p, s2, f2, newIndent, found || l.text != "", true, n, others, brk, k, rest);
      Joined(text, l.text, Value(others));
      hide Behind;
    }
  }

  /** What is read behind a line that was scanned up to the break at m. */
  ghost function AfterBreak(t: string, m: Mark, p: Params, s: Scalar, f: Folding, indent: int, found: bool, past: bool): Reading
    requires s.Ok() && IsBreak(At(t, m.pos))
  {
    var fold := FoldAt(t, m, p, s, f, indent, found, past, false);
    if fold.FoldThrew? then NoReading
    else if !fold.folding.emptyLine && fold.mark.column < fold.indent then Reading(fold.scalar, true, fold.mark)
    else ScalarFrom(t, fold.mark, p, fold.scalar.text, fold.scalar.lastEscapedChar, fold.folding, fold.indent, found, true)
  }

  lemma OneMoreLine(t: string, m: Mark, p: Params, text: string, f: Folding, indent: int, found: bool, here: Mark, s: Scalar, foundHere: bool)
    requires IsBlock(p) && m.pos < |t| && s.Ok() && here.pos < |t| && IsBreak(t[here.pos])
    requires LineAt(t, m, p, text, -1) == LineScanned(here, s, foundHere, false)
    ensures ScalarFrom(t, m, p, text, -1, f, indent, found, true) == AfterBreak(t, here, p, s, f, indent, found || foundHere, true)
  {
    hide LineAt, FoldAt, DocIndicator;
  }

  lemma NothingLaidOut(brk: string, k: nat, rest: string)
    ensures Behind([], brk, k, rest) == Spaces(k) + rest && LayOutBlock([], brk) == "" && !HasText([])
  {
    hide Spaces;
    assert "" + (Spaces(k) + rest) == Spaces(k) + rest;
  }

  lemma FeedLeads(brk: string, rest: string)
    requires IsLineFeed(brk)
    ensures brk + rest != "" && IsBreak((brk + rest)[0])
  {
  }

  lemma FirstText(text: string, more: string)
    requires IsLineText(text) && more != "" && IsBreak(more[0])
    ensures text + more != "" && (text + more)[0] == (if text == "" then more[0] else text[0])
    ensures IsBreak((text + more)[0]) <==> text == ""
    ensures text == "" ==> text + more == more
  {
  }

  lemma FirstHasText(lines: seq<BlockLine>)
    requires lines != []
    ensures HasText(lines) <==> lines[0].text != "" || HasText(lines[1..])
  {
    if HasText(lines) && lines[0].text == "" {
      var i :| 0 <= i < |lines| && lines[i].text != "";
      assert lines[1..][i - 1] == lines[i];
    } else if HasText(lines[1..]) {
      var i :| 0 <= i < |lines[1..]| && lines[1..][i].text != "";
      assert lines[i + 1] == lines[1..][i];
    }
  }

  lemma Joined(text: string, first: string, more: string)
    ensures text + first + "\n" + more == text + (first + "\n" + more)
  {
  }

  // The whole scalar

  /** What is left of line feeds at the end. */
  function ChompedEnd(s: string, chomp: Chomping): string {
    var body := s[..LastNotOf(s, "\n") + 1];
    match chomp
    case STRIP => body
    case CLIP => if body == "" then "" else body + "\n"
    case KEEP => s
  }

  lemma {:induction false} ValueEnds(lines: seq<BlockLine>)
    requires lines != []
    ensures Value(lines) != "" && Value(lines)[|Value(lines)| - 1] == '\n'
    decreases |lines|
  {
    if |lines| > 1 {
      ValueEnds(lines[1..]);
    } else {
      assert lines[1..] == [];
    }
  }

  lemma ChompedIs(s: string, chomp: Chomping)
    requires s == "" || s[|s| - 1] == '\n'
    ensures Chomped(s, -1, chomp) == ChompedEnd(s, chomp)
  {
    var pos := LastNotOf(s, "\n");
    if 0 <= pos {
      assert s[pos] != '\n' && pos + 1 < |s|;
      assert s[pos + 1] in "\n";
      assert s[..pos + 2] == s[..pos + 1] + [s[pos + 1]];
    }
  }

  lemma BlockBegins(t: string, m: Mark, p: Params, brk: string, after: string)
    requires IsBlock(p) && IsLineFeed(brk) && Follows(t, m.pos, brk + after) && IsBreak(At(t, m.pos))
    ensures Lines(t, m, p) == AfterBreak(t, m, p, Scalar("", -1, 0), Folding(false, false, 0, false), p.indent, false, false)
  {
    hide FoldAt;
    FollowsOn(t, m.pos, brk, after);
    assert LineAt(t, m, p, "", -1) == LineScanned(m, Scalar("", -1, 0), false, false);
  }

  /**
   * A literal block scalar behind the line of its indicator: each line's text and a line feed for each, chomped as
   * asked; the scan stops in front of the first line that is less indented, or at the end.
   */
  lemma LiteralScalar(t: string, m: Mark, top: int, n: nat, lines: seq<BlockLine>, brk: string, k: nat, rest: string)
    requires m.pos < |t| && t[m.pos] == '|' && HeaderAt(t, m.pos).Header?
    requires IsLineFeed(brk) && Follows(t, HeaderEnd(t, m).pos, brk + Behind(lines, brk, k, rest))
    requires var p := BlockParamsAt(t, m, top);
             && (if p.detectIndent then p.indent <= n else p.indent == n) && LinesOk(lines, n, !p.detectIndent)
             && Ends(k, rest, if p.detectIndent && !HasText(lines) then p.indent else n)
    ensures var r := BlockAt(t, m, top);
            && r.ScalarEnds? && r.value == ChompedEnd(Value(lines), BlockParamsAt(t, m, top).chomp)
            && r.leadingSpaces && r.mark.pos == HeaderEnd(t, m).pos + |brk| + |LayOutBlock(lines, brk)| + k
  {
    hide HeaderEnd, LinesOk, HasText, FoldAt, ScalarFrom, LayOutBlock, Behind, Chomped, ChompedEnd;
    var p, e := BlockParamsAt(t, m, top), HeaderEnd(t, m);
    IndicatedIsBlock(t, m, top);
    FeedIs(t, e, brk, Behind(lines, brk, k, rest));
    BlockBegins(t, e, p, brk, Behind(lines, brk, k, rest));
    LinesRead(t, e, p, Scalar("", -1, 0), Folding(false, false, 0, false), p.indent, false, false, n, lines, brk, k, rest);
    assert "" + "" + Value(lines) == Value(lines);
    if lines != [] {
      ValueEnds(lines);
    }
    ChompedIs(Value(lines), p.chomp);
  }

  /** The parameters that ScanBlockScalar passes on. */
  function BlockParamsAt(t: string, m: Mark, top: int): Params {
    var h := HeaderAt(t, m.pos);
    if h.BadHeader? then BlockParams(false)
    else if top >= 0 then h.params.(indent := h.params.indent + top)
    else h.params
  }

  lemma {:induction false} IndicatedKeeps(p: Params, t: string, i: nat, n: nat)
    requires IsBlock(p) && p.indent > 0 && Indicated(p, t, i, n).Header?
    ensures var q := Indicated(p, t, i, n).params; IsBlock(q) && q.indent > 0 && q.fold == p.fold
    decreases n
  {
    if n > 0 {
      var c := At(t, i);
      IndicatedKeeps(if c == '+' then p.(chomp := KEEP)
                     else if c == '-' then p.(chomp := STRIP)
                     else if IsDigit(c) then p.(indent := c as int - '0' as int, detectIndent := false)
                     else p, t, i + 1, n - 1);
    }
  }

  lemma IndicatedIsBlock(t: string, m: Mark, top: int)
    requires m.pos < |t| && HeaderAt(t, m.pos).Header?
    ensures IsBlock(BlockParamsAt(t, m, top)) && BlockParamsAt(t, m, top).indent > 0
    ensures BlockParamsAt(t, m, top).fold == if t[m.pos] == '>' then FOLD_BLOCK else DONT_FOLD
    ensures BlockAt(t, m, top) == ReadScalar(t, HeaderEnd(t, m), BlockParamsAt(t, m, top))
  {
    hide ReadScalar, Indicated, HeaderEnd;
    IndicatedKeeps(BlockParams(t[m.pos] == '>'), t, m.pos + 1, Chomp(t, m.pos + 1));
  }
}
