/**
 * Folded block scalars (section 8.1.3 of YAML 1.2): a break between two lines becomes a space, a run of k empty lines k
 * line feeds; next to a line that is indented more, every break is kept.
 */
module FoldedScalars {
  import opened Exp
  import opened Streaming
  import opened ScannerState
  import opened ScalarReading
  import opened TokenText
  import opened FlowFolding
  import opened LiteralScalars

  predicate MoreIndented(l: BlockLine) {
    l.text != "" && IsBlank(l.text[0])
  }

  /** The breaks between two lines with k empty ones in between. */
  function Gap(k: nat, more: bool): string {
    if more then Newlines(k + 1) else if k == 0 then " " else Newlines(k)
  }

  /**
   * What the lines stand for, behind k empty ones; `begun` is whether there was a line with text before them, `more`
   * whether it was indented more.
   */
  function Folded(lines: seq<BlockLine>, begun: bool, more: bool, k: nat): string {
    if lines == [] then Newlines(if !begun then k else if more then k + 1 else if k == 0 then 1 else k)
    else if lines[0].text == "" then Folded(lines[1..], begun, more, k + 1)
    else
      (if begun then Gap(k, more || MoreIndented(lines[0])) else Newlines(k)) + lines[0].text +
      Folded(lines[1..], true, MoreIndented(lines[0]), 0)
  }

  /** What the scanner remembers of the lines so far. */
  predicate Remembers(f: Folding, begun: bool, more: bool, k: nat, past: bool) {
    && past == (begun || k > 0) && f.emptyLine == (k > 0)
    && (if begun then f.newlines == k && (if k == 0 then f.moreIndented == more else f.startedMoreIndented == more && !f.moreIndented)
        else if k == 0 then f.newlines == 0 && !f.moreIndented
        else f.newlines == k - 1 && !f.moreIndented)
  }

  predicate IsFolded(p: Params) {
    IsBlock(p) && p.fold == FOLD_BLOCK
  }

  lemma OneNewline(n: nat)
    ensures "\n" + Newlines(n) == Newlines(n + 1) && Newlines(n) + "\n" == Newlines(n + 1) && "\n" + Newlines(n) + "\n" == Newlines(n + 2)
  {
    NewlineInFront(n);
    assert Newlines(n + 2) == Newlines(n + 1) + "\n";
  }

  /** What one break adds: nothing in front of an empty line, and else all that stands between the lines with text. */
  lemma BreakAdds(p: Params, f: Folding, begun: bool, more: bool, k: nat, past: bool, empty: bool, nextMore: bool, atIndent: bool)
    requires IsFolded(p) && Remembers(f, begun, more, k, past) && !(empty && nextMore)
    ensures var started := if f.newlines == 0 && empty then f.moreIndented else f.startedMoreIndented;
            var (added, newlines) := if past then FoldBreak(p, f.(startedMoreIndented := started), empty, nextMore, atIndent, begun, false)
                                     else ("", f.newlines);
            if empty then added == "" && Remembers(Folding(empty, nextMore, newlines, started), begun, more, k + 1, true)
            else
              && newlines == 0
              && added == (if !begun then Newlines(k)
                           else if k == 0 && !more && !nextMore && !atIndent then "\n"
                           else Gap(k, more || nextMore))
  {
    if k > 0 {
      OneNewline(k - 1);
      if k > 1 {
        OneNewline(k - 2);
      }
    }
    assert Newlines(1) == Newlines(0) + "\n" == "\n";
    assert "\n" + Newlines(0) + "" == "\n" && "\n" + "" + "\n" == Newlines(2);
    hide Newlines;
  }

  /** One line more: the breaks in front of it, and its text. */
  lemma LineFolds(t: string, m: Mark, p: Params, s: Scalar, f: Folding, indent: int, begun: bool, more: bool, e: nat, past: bool,
                  l: BlockLine, brk: string, behind: string)
    returns (here: Mark, s2: Scalar, f2: Folding)
    requires IsFolded(p) && s.Ok() && s.lastEscapedChar == -1 && IsLineFeed(brk) && Remembers(f, begun, more, e, past)
    requires Follows(t, m.pos, brk + (LiteralScalars.Spaces(l.spaces) + (l.text + behind))) && behind != "" && IsBreak(behind[0])
    requires IsLineText(l.text) && ((p.detectIndent && !begun) || l.spaces <= indent)
    requires l.text != "" ==> if p.detectIndent && !begun then l.text[0] != ' ' && l.spaces >= indent else l.spaces == indent
    ensures IsBreak(At(t, m.pos)) && IsBreak(At(t, here.pos)) && s2.Ok() && s2.lastEscapedChar == -1
    ensures var empty := l.text == "";
            && s2.text == s.text + (if empty then "" else if begun then Gap(e, more || MoreIndented(l)) else Newlines(e)) + l.text
            && Remembers(f2, begun || !empty, if empty then more else MoreIndented(l), if empty then e + 1 else 0, true)
            && Follows(t, here.pos, behind) && here.pos == m.pos + |brk| + l.spaces + |l.text|
            && AfterBreak(t, m, p, s, f, indent, begun, past) ==
               AfterBreak(t, here, p, s2, f2, if p.detectIndent && !begun && l.spaces > indent then l.spaces else indent, begun || !empty, true)
  {
    hide FoldAt, LineAt, ScalarFrom, LiteralScalars.Spaces, FoldBreak, Remembers, Newlines, Gap, Follows;
    FirstText(l.text, behind);
    var m2;
    m2, f2 := BreakReads(t, m, p, s, f, indent, begun, past, brk, l.spaces, l.text + behind);
    hide IsLineText;
    var newIndent := if p.detectIndent && !begun && l.spaces > indent then l.spaces else indent;
    var empty := l.text == "";
    BreakAdds(p, f, begun, more, e, past, empty, MoreIndented(l), l.spaces >= newIndent);
    var text := s.text + (if empty then "" else if begun then Gap(e, more || MoreIndented(l)) else Newlines(e));
    var foundHere;
    here, s2, foundHere := TextReads(t, m2, p, text, l.text, behind);
    OneMoreLine(t, m2, p, text, f2, newIndent, begun, here, s2, foundHere);
    if !empty {
      TextRemembered(f2, MoreIndented(l));
    }
  }

  lemma LastFolds(t: string, m: Mark, p: Params, s: Scalar, f: Folding, indent: int, begun: bool, more: bool, e: nat, past: bool,
                  brk: string, k: nat, rest: string, n: nat)
    requires IsFolded(p) && s.Ok() && s.lastEscapedChar == -1 && IsLineFeed(brk) && p.indent > 0 && Remembers(f, begun, more, e, past)
    requires Follows(t, m.pos, brk + Behind([], brk, k, rest)) && IsBreak(At(t, m.pos)) && Knows(p, indent, n, begun)
    requires Ends(k, rest, if p.detectIndent && !begun then p.indent else n)
    ensures var r := AfterBreak(t, m, p, s, f, indent, begun, past);
            && r.Reading? && r.scalar.text == s.text + Folded([], begun, more, e) && r.scalar.lastEscapedChar == -1
            && r.leadingSpaces && r.mark.pos == m.pos + |brk| + k
  {
    hide FoldAt, LineAt, ScalarFrom, LiteralScalars.Spaces, HasText, LayOutBlock, FoldBreak, Remembers, Newlines, Gap;
    NothingLaidOut(brk, k, rest);
    hide Behind, Folded;
    var m2, f2 := BreakReads(t, m, p, s, f, indent, begun, past, brk, k, rest);
    BreakAdds(p, f, begun, more, e, past, false, false, k >= (if p.detectIndent && !begun && k > indent then k else indent));
    EndAdds(begun, more, e);
  }

  /** The lines behind a line that was read up to its break at m. */
  lemma {:induction false} LinesRead(t: string, m: Mark, p: Params, s: Scalar, f: Folding, indent: int, begun: bool, more: bool, e: nat, past: bool,
                                     n: nat, lines: seq<BlockLine>, brk: string, k: nat, rest: string)
    requires IsFolded(p) && s.Ok() && s.lastEscapedChar == -1 && IsLineFeed(brk) && p.indent > 0 && Remembers(f, begun, more, e, past)
    requires Follows(t, m.pos, brk + Behind(lines, brk, k, rest)) && IsBreak(At(t, m.pos)) && Knows(p, indent, n, begun)
    requires LinesOk(lines, n, !p.detectIndent || begun)
    requires Ends(k, rest, if p.detectIndent && !begun && !HasText(lines) then p.indent else n)
    ensures var r := AfterBreak(t, m, p, s, f, indent, begun, past);
            && r.Reading? && r.scalar.text == s.text + Folded(lines, begun, more, e) && r.scalar.lastEscapedChar == -1
            && r.leadingSpaces && r.mark.pos == m.pos + |brk| + |LayOutBlock(lines, brk)| + k
    decreases |lines|
  {
    hide FoldAt, ScalarFrom, IsLineText, LiteralScalars.Spaces, HasText, LayOutBlock, Remembers, Newlines, Gap, Folded, AfterBreak;
    if lines == [] {
      NothingLaidOut(brk, k, rest);
      LastFolds(t, m, p, s, f, indent, begun, more, e, past, brk, k, rest, n);
    } else {
      var l, others := lines[0], lines[1..];
      BehindFirst(lines, brk, k, rest);
      var behind := brk + Behind(others, brk, k, rest);
      FeedLeads(brk, Behind(others, brk, k, rest));
      var here, s2, f2 := LineFolds(t, m, p, s, f, indent, begun, more, e, past, l, brk, behind);
      FirstHasText(lines);
      var empty := l.text == "";
      var newIndent := if p.detectIndent && !begun && l.spaces > indent then l.spaces else indent;
      LinesRead(t, here, p, s2, f2, newIndent, begun || !empty, if empty then more else MoreIndented(l), if empty then e + 1 else 0, true, n,
                others, brk, k, rest);
      FoldedFirst(s.text, lines, begun, more, e);
      hide Behind;
    }
  }

  lemma EndAdds(begun: bool, more: bool, e: nat)
    ensures Folded([], begun, more, e) ==
            if !begun then Newlines(e) else if e == 0 && !more then "\n" else Gap(e, more)
  {
    assert Newlines(1) == Newlines(0) + "\n" == "\n";
  }

  lemma TextRemembered(f: Folding, more: bool)
    requires f.newlines == 0 && !f.emptyLine && f.moreIndented == more
    ensures Remembers(f, true, more, 0, true)
  {
  }

  lemma FoldedFirst(before: string, lines: seq<BlockLine>, begun: bool, more: bool, e: nat)
    requires lines != []
    ensures var l, others := lines[0], lines[1..];
            before + Folded(lines, begun, more, e) ==
            if l.text == "" then before + "" + l.text + Folded(others, begun, more, e + 1)
            else before + (if begun then Gap(e, more || MoreIndented(l)) else Newlines(e)) + l.text + Folded(others, true, MoreIndented(l), 0)
  {
    var l, others := lines[0], lines[1..];
    var gap := if begun then Gap(e, more || MoreIndented(l)) else Newlines(e);
    assert before + "" + "" + Folded(others, begun, more, e + 1) == before + Folded(others, begun, more, e + 1);
    assert before + (gap + l.text + Folded(others, true, MoreIndented(l), 0)) == before + gap + l.text + Folded(others, true, MoreIndented(l), 0);
  }

  lemma {:induction false} FoldedEnds(lines: seq<BlockLine>, begun: bool, more: bool, e: nat)
    ensures var s := Folded(lines, begun, more, e); s == "" || s[|s| - 1] == '\n'
    decreases |lines|
  {
    if lines == [] {
      hide Gap;
    } else {
      FoldedEnds(lines[1..], begun, more, e + 1);
      FoldedEnds(lines[1..], true, MoreIndented(lines[0]), 0);
      NotNothing(lines[1..], MoreIndented(lines[0]));
    }
  }

  lemma {:induction false} NotNothing(lines: seq<BlockLine>, more: bool)
    ensures forall e: nat :: Folded(lines, true, more, e) != ""
    decreases |lines|
  {
    forall e: nat
      ensures Folded(lines, true, more, e) != ""
    {
      if lines == [] {
        OneNewline(e);
        if e > 0 {
          OneNewline(e - 1);
        } else {
          assert Newlines(1) == Newlines(0) + "\n";
        }
      } else if lines[0].text == "" {
        NotNothing(lines[1..], more);
      }
    }
  }

  lemma {:induction false} NewlinesDiffer(a: nat, b: nat)
    ensures |Newlines(a)| == a && |Newlines(b)| == b
    decreases a + b
  {
    if a > 0 {
      NewlinesDiffer(a - 1, 0);
    }
    if b > 0 {
      NewlinesDiffer(0, b - 1);
    }
  }

  /** All breaks at the end are there to be kept exactly if the last line is indented more or no empty line follows it. */
  lemma EndIsWhole(more: bool, k: nat)
    ensures Folded([], true, more, k) == Newlines(k + 1) <==> more || k == 0
  {
    NewlinesDiffer(k, k + 1);
    NewlinesDiffer(1, k + 1);
  }

  /**
   * A folded block scalar behind the line of its indicator. Of k empty lines at its end, a scalar that keeps its end
   * keeps one line feed less than there are breaks, unless its last line is indented more.
   */
  lemma FoldedScalar(t: string, m: Mark, top: int, n: nat, lines: seq<BlockLine>, brk: string, k: nat, rest: string)
    requires m.pos < |t| && t[m.pos] == '>' && HeaderAt(t, m.pos).Header?
    requires IsLineFeed(brk) && Follows(t, HeaderEnd(t, m).pos, brk + Behind(lines, brk, k, rest))
    requires var p := BlockParamsAt(t, m, top);
             && (if p.detectIndent then p.indent <= n else p.indent == n) && LinesOk(lines, n, !p.detectIndent)
             && Ends(k, rest, if p.detectIndent && !HasText(lines) then p.indent else n)
    ensures var r := BlockAt(t, m, top);
            && r.ScalarEnds? && r.value == ChompedEnd(Folded(lines, false, false, 0), BlockParamsAt(t, m, top).chomp)
            && r.leadingSpaces && r.mark.pos == HeaderEnd(t, m).pos + |brk| + |LayOutBlock(lines, brk)| + k
  {
    hide HeaderEnd, LinesOk, HasText, FoldAt, ScalarFrom, LayOutBlock, Behind, Chomped, ChompedEnd, Folded;
    var p, e := BlockParamsAt(t, m, top), HeaderEnd(t, m);
    IndicatedIsBlock(t, m, top);
    FeedIs(t, e, brk, Behind(lines, brk, k, rest));
    BlockBegins(t, e, p, brk, Behind(lines, brk, k, rest));
    LinesRead(t, e, p, Scalar("", -1, 0), Folding(false, false, 0, false), p.indent, false, false, 0, false, n, lines, brk, k, rest);
    assert "" + Folded(lines, false, false, 0) == Folded(lines, false, false, 0);
    FoldedEnds(lines, false, false, 0);
    ChompedIs(Folded(lines, false, false, 0), p.chomp);
  }
}
