/** Scanning the text of a tree gives the tokens of the tree. */
module TreeScanning {
  import opened Exp
  import opened Streaming
  import opened Tokens
  import opened ScannerState
  import opened ScannerSteps
  import opened ScannerInvariant
  import opened ScannerSound
  import ScannerRuns
  import opened ScannerBranches
  import opened ScannerText
  import opened ScalarReading
  import opened FlowFolding
  import opened TokenText
  import opened PlainFolding
  import opened TextPrinting
  import opened TextSteps
  import opened AtomScanning
  import opened InlineScanning
  import opened BlockScanning
  import TokenSpelling
  import TextLoading
  import Parsing

  // Words at the end of a line

  predicate BeginsToken(more: string) {
    more != "" && more[0] !in " \t\n\r#"
  }

  /** What may stand behind a node in these blocks: nothing deeper, and below the keys of a map no dash. */
  ghost predicate NextOk(stack: seq<Level>, d: int, more: string) {
    && -1 <= d <= TopColumn(stack) && (d >= 0 ==> BeginsToken(more))
    && (d >= 0 && d == TopColumn(stack) && stack[|stack| - 1].kind == MAP ==> more[0] != '-')
  }

  lemma NextIsOk(stack: seq<Level>, d: int, more: string)
    requires NextOk(stack, d, more)
    ensures -1 <= d <= TopColumn(stack) && (d >= 0 ==> BeginsToken(more))
  {
  }

  /** Behind the last line of a node: the next line, in this column, or with -1 the end of the text. */
  function NextText(column: int, more: string, feed: bool): string {
    if column >= 0 then NewLine(column) + more else if feed then "\n" else ""
  }

  lemma {:induction false} SpacesRun(t: string, i: nat, column: nat, n: nat, indent: int, k: nat, more: string)
    requires Follows(t, i, SpaceText(k) + more) && (more == "" || BeginsToken(more))
    ensures RunFrom(t, i, column, n, indent, false) == Run(i + k, column + k, n)
    ensures forall j :: i <= j < i + k ==> j < |t| && t[j] == ' '
    ensures Follows(t, i + k, more)
    decreases k
  {
    hide EndsPlain;
    FollowsOn(t, i, SpaceText(k), more);
    if k == 0 {
      assert SpaceText(0) + more == more;
      if more != "" {
        assert t[i] == t[i..][0];
      }
    } else {
      assert SpaceText(k) + more == " " + (SpaceText(k - 1) + more);
      FollowsOn(t, i, " ", SpaceText(k - 1) + more);
      SpaceGoesOn(t, i, SpaceText(k - 1) + more);
      SpacesRun(t, i + 1, column + 1, n, indent, k - 1, more);
    }
  }

  lemma SpaceGoesOn(t: string, i: nat, rest: string)
    requires i < |t| && (t[i] == ' ' || t[i] == '\n') && Follows(t, i + 1, rest) && (rest == "" || rest[0] != '#')
    ensures !EndsPlain(t, i, false)
  {
    if rest != "" {
      assert t[i + 1] == t[i + 1..][0];
    }
  }

  /** What is read of a word whose line ends, where the next line is not indented deeper than the block around it. */
  lemma WordIsAll(t: string, i: nat, column: nat, w: string, top: int, d: int, more: string)
    requires WordOk(w) && Follows(t, i, w + NextText(d, more, true)) && top >= -1 && d <= top && (d >= 0 ==> BeginsToken(more))
    ensures var r := PlainFrom(t, i, column, top + 1, false);
            && r.PlainText? && r.value == w && (if d >= 0 then r.column == d && r.brokeOff && Follows(t, r.end, more) else r.end == |t|)
            && NoNul(t, i, r.end)
  {
    hide EndsPlain, Stripped, RunFrom, WordOk, Follows, NextText, DocIndicator;
    WordLine(t, i, w, d, more);
    WordIsStripped(w);
    var j := i + |w|;
    RunBehind(t, j, column + |w|, top + 1, d, more);
    var run := RunFrom(t, j, column + |w|, 0, top + 1, false);
    NoNulBehind(t, i, j, run.end);
  }

  lemma WordLine(t: string, i: nat, w: string, d: int, more: string)
    requires WordOk(w) && Follows(t, i, w + NextText(d, more, true)) && (d >= 0 ==> BeginsToken(more))
    ensures var j := i + |w|;
            && LineEnd(t, i, false) == j < |t| && t[i..j] == w && NoNul(t, i, j) && t[j] == '\n' && !EndsPlain(t, j, false)
            && Follows(t, j, NextText(d, more, true))
  {
    hide EndsPlain, WordOk;
    var blanks := if d >= 0 then SpaceText(d) + more else "";
    NextIsBreak(d, more);
    WordEnds(t, i, w, NextText(d, more, true), false);
    FollowsOn(t, i + |w|, "\n", blanks);
    BlanksNoComment(d, more);
    SpaceGoesOn(t, i + |w|, blanks);
  }

  lemma NextIsBreak(d: int, more: string)
    ensures NextText(d, more, true) == "\n" + (if d >= 0 then SpaceText(d) + more else "")
  {
    assert d >= 0 ==> "\n" + SpaceText(d) + more == "\n" + (SpaceText(d) + more);
  }

  lemma BlanksNoComment(d: int, more: string)
    requires d >= 0 ==> BeginsToken(more)
    ensures d >= 0 ==> (SpaceText(d) + more)[0] != '#'
  {
  }

  lemma RunBehind(t: string, j: nat, column: nat, indent: int, d: int, more: string)
    requires Follows(t, j, NextText(d, more, true)) && !EndsPlain(t, j, false) && (d >= 0 ==> BeginsToken(more))
    ensures var r := RunFrom(t, j, column, 0, indent, false);
            && r == Run(j + 1 + (if d >= 0 then d else 0), if d >= 0 then d else 0, 1)
            && (forall k :: j <= k < r.end ==> k < |t| && t[k] != '\0')
            && (if d >= 0 then Follows(t, r.end, more) && r.end < |t| && t[r.end] !in WHITE else r.end == |t|)
  {
    hide EndsPlain, NextText, SpaceText;
    var k, behind := if d >= 0 then d else 0, if d >= 0 then more else "";
    NextIsSpaces(d, more);
    BreakThenSpaces(t, j, column, indent, k, behind);
  }

  lemma NextIsSpaces(d: int, more: string)
    ensures NextText(d, more, true) == "\n" + (SpaceText(if d >= 0 then d else 0) + if d >= 0 then more else "")
  {
    NextIsBreak(d, more);
  }

  lemma BreakThenSpaces(t: string, j: nat, column: nat, indent: int, k: nat, more: string)
    requires Follows(t, j, "\n" + (SpaceText(k) + more)) && !EndsPlain(t, j, false) && (more == "" || BeginsToken(more))
    ensures RunFrom(t, j, column, 0, indent, false) == Run(j + 1 + k, k, 1)
    ensures (forall i :: j <= i < j + 1 + k ==> i < |t| && t[i] != '\0') && Follows(t, j + 1 + k, more)
    ensures if more == "" then j + 1 + k == |t| else j + 1 + k < |t| && t[j + 1 + k] !in WHITE
  {
    hide EndsPlain, SpaceText;
    FollowsOn(t, j, "\n", SpaceText(k) + more);
    SpacesRun(t, j + 1, 0, 1, indent, k, more);
    if more != "" {
      assert t[j + 1 + k] == t[j + 1 + k..][0];
    }
  }

  lemma NoNulBehind(t: string, i: nat, j: nat, end: nat)
    requires NoNul(t, i, j) && forall k :: j <= k < end ==> k < |t| && t[k] != '\0'
    ensures NoNul(t, i, end)
  {
  }

  lemma WordEndsLine(t: string, p: Place, w: string, d: int, more: string) returns (q: Place)
    requires Rests(p.scan, p.mark.column) && p.scan.flows == [] && WordOk(w) && -1 <= d <= TopIndent(p.scan) && (d >= 0 ==> BeginsToken(more))
    requires Follows(t, p.mark.pos, w + NextText(d, more, true))
    ensures q.scan == DoneWith(p.scan, p.mark, [Item(PLAIN_SCALAR, VALID, w)], false).(simpleKeyAllowed := q.scan.simpleKeyAllowed) && Live(q.scan)
    ensures Alike(ScanOn(t, p), ScanOn(t, q)) && Ahead(t, q.mark, d)
    ensures d >= 0 ==> q.scan.simpleKeyAllowed && Follows(t, q.mark.pos, more)
  {
    hide Sound, PointersOk, EndsPlain, InsertPotentialSimpleKey, PopIndentToHere, ReadScalar, ScanOn, BranchAt, PlainFrom, NoNul,
         NextText, Top, TopIndent;
    RestsIsIdle(p.scan, p.mark.column);
    WordStarts(t, p.mark.pos, w, NextText(d, more, true));
    WordBranch(t, p.mark, false, p.scan.canBeJSONFlow);
    WordIsAll(t, p.mark.pos, p.mark.column, w, TopIndent(p.scan), d, more);
    PlainScalarReads(t, p.mark, false, TopIndent(p.scan));
    var r := ReadScalar(t, p.mark, PlainParams(false, TopIndent(p.scan)));
    q := Place(ScanPlainScalar(p.scan, p.mark, r.leadingSpaces, w), r.mark);
    TokenHere(t, p, Plain(r.leadingSpaces, w), q);
    InsertGoesOn(p.scan, p.mark);
    LivesOn(q.scan);
    if d >= 0 {
      assert t[q.mark.pos] == t[q.mark.pos..][0];
    }
  }

  lemma WordStarts(t: string, i: nat, w: string, rest: string)
    requires WordOk(w) && Follows(t, i, w + rest)
    ensures i < |t| && IsWordChar(t[i])
  {
    FollowsOn(t, i, w, rest);
  }

  // The last line of a node

  /** The state behind a node that turned out to be no key. */
  function Passed(s: Scan, m: Mark, n: Inline, allowed: bool): Scan {
    if s.simpleKeyAllowed then DeepKey(s, m.column, n, INVALID, Invalid).(indents := s.indents, simpleKeyAllowed := allowed)
    else s.(all := s.all + Raw(n), simpleKeyAllowed := allowed, canBeJSONFlow := Json(n))
  }

  lemma PassedStands(s: Scan, stack: seq<Level>, m: Mark, n: Inline, allowed: bool)
    requires Stands(s, stack) && Live(Passed(s, m, n, allowed))
    ensures Stands(Passed(s, m, n, allowed), stack)
  {
    StandsAlike(s, Passed(s, m, n, allowed), stack);
    hide Sound, Raw;
  }

  lemma PassedIsShown(s: Scan, m: Mark, n: Inline, allowed: bool)
    requires InlineOk(n)
    ensures Shown(Passed(s, m, n, allowed).all) == Shown(s.all) + TokenSpelling.NodeTokens(InlineNode(n))
  {
    hide Shown, Raw, InlineNode, TokenSpelling.NodeTokens;
    RawIsShown(n);
    ShownSum(s.all, Raw(n));
    var start, key := [Item(BLOCK_MAP_START, INVALID, "")], [KeyItem(INVALID)];
    ShownMark(BLOCK_MAP_START, INVALID);
    ShownMark(KEY, INVALID);
    ShownThree(s.all, start, key);
    ShownSum(s.all + start + key, Raw(n));
    ShownNothing();
  }

  /** A node with nothing behind it on its line. */
  ghost predicate Behind(s: Scan, s': Scan, m: Mark, n: Inline)
    requires Live(s)
  {
    && Live(s')
    && (s' == Done(s, m, n).(simpleKeyAllowed := s'.simpleKeyAllowed) || (Live(Done(s, m, n)) && s' == EatBreak(Done(s, m, n))))
  }

  lemma PendingPops(s: Scan, stack: seq<Level>, m: Mark, n: Inline, s': Scan)
    requires Stands(s, stack) && s.simpleKeyAllowed && m.column > TopColumn(stack) && Live(s')
    requires s' == Done(s, m, n).(simpleKeyAllowed := s'.simpleKeyAllowed)
    ensures !InFlow(s') && Top(s').column == m.column && Top(s').kind == MAP && PopIndent(s') == Passed(s, m, n, s'.simpleKeyAllowed)
  {
    DeepDone(s, stack, m, n);
    BothDecided(s.all, Raw(n), INVALID);
    IndentDecided(s.refs, Indent(m.column, MAP, Unknown, To(|s.all|)), Invalid);
    hide Done, Raw, MarkToken, MarkIndent, Sound, PointersOk;
    assert [DeepPending(s, m)][..0] == [];
    assert (s.indents + [|s.refs|])[..|s.indents|] == s.indents;
  }

  lemma BrokenPops(s: Scan, stack: seq<Level>, m: Mark, n: Inline, s': Scan)
    requires Stands(s, stack) && s.simpleKeyAllowed && m.column > TopColumn(stack) && Live(s')
    requires Live(Done(s, m, n)) && s' == EatBreak(Done(s, m, n))
    ensures !InFlow(s') && Top(s').column == m.column && Top(s').kind == MAP && PopIndent(s') == Passed(s, m, n, s'.simpleKeyAllowed)
  {
    DeepDecided(s, stack, m, n, m);
    DoneKeepsFlows(s, m, n);
    hide Done, Raw, Sound, PointersOk, VerifySimpleKey;
    assert s' == DeepKey(s, m.column, n, INVALID, Invalid).(simpleKeyAllowed := true) by {
      hide DeepKey;
    }
    hide InvalidateSimpleKey;
    assert (s.indents + [|s.refs|])[..|s.indents|] == s.indents;
    NoKeyToInvalidate(s'.(indents := s.indents));
  }

  lemma NoKeyToInvalidate(s: Scan)
    requires s.simpleKeys == []
    ensures PointersOk(s) ==> InvalidateSimpleKey(s) == s
  {
  }

  lemma UnpendingIs(s: Scan, stack: seq<Level>, m: Mark, n: Inline, s': Scan)
    requires Stands(s, stack) && !s.simpleKeyAllowed && Behind(s, s', m, n)
    ensures s' == Passed(s, m, n, s'.simpleKeyAllowed)
  {
    hide Sound, Raw;
  }

  lemma TailSettles(t: string, p: Place, s: Scan, stack: seq<Level>, m: Mark, n: Inline, d: int)
    requires Stands(s, stack) && m.column > TopColumn(stack) && d <= TopColumn(stack) && Behind(s, p.scan, m, n) && Ahead(t, p.mark, d)
    ensures var q := Place(Passed(s, m, n, p.scan.simpleKeyAllowed), p.mark); Stands(q.scan, stack) && Alike(ScanOn(t, p), ScanOn(t, q))
  {
    hide Sound, PointersOk, ScanOn, Done, EatBreak, Top, PopIndent, Passed;
    if s.simpleKeyAllowed {
      if p.scan == Done(s, m, n).(simpleKeyAllowed := p.scan.simpleKeyAllowed) {
        PendingPops(s, stack, m, n, p.scan);
      } else {
        BrokenPops(s, stack, m, n, p.scan);
      }
      Settles(t, p, d);
    } else {
      UnpendingIs(s, stack, m, n, p.scan);
    }
    PassedStands(s, stack, m, n, p.scan.simpleKeyAllowed);
  }

  /** The rest of the text behind a line. */
  lemma LineBreakSkipped(t: string, p: Place, d: int, more: string) returns (q: Place)
    requires Live(p.scan) && p.scan.flows == [] && Follows(t, p.mark.pos, NextText(d, more, true)) && (d >= 0 ==> BeginsToken(more))
    ensures PointersOk(p.scan) && q.scan == EatBreak(p.scan) && Live(q.scan) && q.scan.simpleKeyAllowed
    ensures Alike(ScanOn(t, p), ScanOn(t, q)) && Ahead(t, q.mark, d) && (d >= 0 ==> Follows(t, q.mark.pos, more))
  {
    hide Sound, ScanOn;
    var blanks := if d >= 0 then SpaceText(d) + more else "";
    assert NextText(d, more, true) == "\n" + blanks;
    FollowsOn(t, p.mark.pos, "\n", blanks);
    BreakSkipped(t, p);
    q := Place(EatBreak(p.scan), Mark(p.mark.pos + 1, p.mark.line + 1, 0));
    BreakAllows(p.scan);
    hide EatBreak;
    if d >= 0 {
      SpacesSkipped(t, q, d, more);
      q := Place(q.scan, Past(q.mark, d));
      assert t[q.mark.pos] == t[q.mark.pos..][0];
    }
  }

  lemma BreakAllows(s: Scan)
    requires PointersOk(s) && s.flows == []
    ensures EatBreak(s).simpleKeyAllowed
  {
  }

  /** A node on the last line of an entry or a value. */
  lemma TailScans(t: string, p: Place, stack: seq<Level>, n: Inline, d: int, more: string, feed: bool) returns (q: Place)
    requires Stands(p.scan, stack) && p.mark.column > TopColumn(stack) && InlineOk(n) && -1 <= d <= TopColumn(stack) && (d >= 0 ==> BeginsToken(more))
    requires Follows(t, p.mark.pos, InlineText(n) + NextText(d, more, feed))
    ensures Stands(q.scan, stack) && Alike(ScanOn(t, p), ScanOn(t, q)) && Ahead(t, q.mark, d)
    ensures Shown(q.scan.all) == Shown(p.scan.all) + TokenSpelling.NodeTokens(InlineNode(n))
    ensures d >= 0 ==> q.scan.simpleKeyAllowed && Follows(t, q.mark.pos, more)
  {
    hide Sound, PointersOk, ScanOn, Done, EatBreak, Passed, Shown, NextText, Rests, InlineOk, Raw, TokenSpelling.NodeTokens,
         InlineNode, StopsNode;
    var q1;
    RestsHere(p.scan, stack, p.mark.column);
    if n.Inline? && n.body.Word? && (d >= 0 || feed) {
      NextTextFed(d, more, feed);
      q1 := LastWordScans(t, p, stack, n, d, more);
    } else {
      NodeStopsHere(n, d, more, feed);
      InlineScans(t, p, n, NextText(d, more, feed));
      q1 := Place(Done(p.scan, p.mark, n), Past(p.mark, |InlineText(n)|));
      if d >= 0 || feed {
        NextTextFed(d, more, feed);
        DoneKeepsFlows(p.scan, p.mark, n);
        q1 := LineBreakSkipped(t, q1, d, more);
      }
    }
    TailSettles(t, q1, p.scan, stack, p.mark, n, d);
    PassedIsShown(p.scan, p.mark, n, q1.scan.simpleKeyAllowed);
    PassedAllows(p.scan, p.mark, n, q1.scan.simpleKeyAllowed);
    q := Place(Passed(p.scan, p.mark, n, q1.scan.simpleKeyAllowed), q1.mark);
  }

  lemma PassedAllows(s: Scan, m: Mark, n: Inline, allowed: bool)
    ensures Passed(s, m, n, allowed).simpleKeyAllowed == allowed
  {
  }

  lemma NextTextFed(d: int, more: string, feed: bool)
    requires d >= 0 || feed
    ensures NextText(d, more, feed) == NextText(d, more, true)
  {
  }

  lemma NodeStopsHere(n: Inline, d: int, more: string, feed: bool)
    requires n.Inline? && n.body.Word? ==> d < 0 && !feed
    ensures StopsNode(n, NextText(d, more, feed), false) && (d < 0 && !feed ==> NextText(d, more, feed) == "")
  {
    var rest := NextText(d, more, feed);
    assert rest == "" || rest[0] == '\n';
    hide EndsPlain;
  }

  /** A word at the end of its line, behind its properties. */
  lemma LastWordScans(t: string, p: Place, stack: seq<Level>, n: Inline, d: int, more: string) returns (q: Place)
    requires Stands(p.scan, stack) && p.mark.column > TopColumn(stack) && InlineOk(n) && n.Inline? && n.body.Word?
    requires -1 <= d <= TopColumn(stack) && (d >= 0 ==> BeginsToken(more)) && Follows(t, p.mark.pos, InlineText(n) + NextText(d, more, true))
    ensures q.scan == Done(p.scan, p.mark, n).(simpleKeyAllowed := q.scan.simpleKeyAllowed) && Live(q.scan)
    ensures Alike(ScanOn(t, p), ScanOn(t, q)) && Ahead(t, q.mark, d)
    ensures d >= 0 ==> q.scan.simpleKeyAllowed && Follows(t, q.mark.pos, more)
  {
    hide Sound, PointersOk, ScanOn, DoneWith, Follows, PropsText, Rests, PropItems, PropList, NextText, TopIndent, WordOk, Stands;
    var w := n.body.text;
    RestsHere(p.scan, stack, p.mark.column);
    PropsAreOk(n);
    var ps := PropList(n.props);
    assert InlineText(n) + NextText(d, more, true) == PropsText(ps) + (w + NextText(d, more, true));
    var p1 := PropsScan(t, p, ps, w + NextText(d, more, true));
    RestsLives(p.scan, p.mark.column);
    RestsLives(p1.scan, p1.mark.column);
    NoPropsText(p.mark);
    TopGoesDeeper(p.scan, stack, p.mark, PropItems(ps));
    q := WordEndsLine(t, p1, w, d, more);
    PropsThenBody(p.scan, p.mark, ps, p1.scan, p1.mark, n.body);
  }

  lemma TopGoesDeeper(s: Scan, stack: seq<Level>, m: Mark, items: seq<Item>)
    requires Stands(s, stack) && m.column > TopColumn(stack)
    ensures TopIndent(s) >= TopColumn(stack) && s.flows == []
    ensures var s' := DoneWith(s, m, items, false); TopIndent(s') >= TopColumn(stack) && s'.flows == []
  {
    TopIs(s, stack);
    hide Sound;
  }

  // Blocks

  /** From p to q these tokens were scanned, and q is where what follows begins. */
  ghost predicate Scanned(t: string, p: Place, q: Place, stack: seq<Level>, tokens: seq<Parsing.Token>, d: int, more: string)
    requires Sound(p.scan)
  {
    && Stands(q.scan, stack) && Alike(ScanOn(t, p), ScanOn(t, q)) && Ahead(t, q.mark, d)
    && Shown(q.scan.all) == Shown(p.scan.all) + tokens && (d >= 0 ==> q.scan.simpleKeyAllowed && Follows(t, q.mark.pos, more))
  }

  lemma ScannedOn(t: string, p: Place, p1: Place, q: Place, stack: seq<Level>, a: seq<Parsing.Token>, b: seq<Parsing.Token>, d: int, more: string)
    requires Sound(p.scan) && Sound(p1.scan) && Alike(ScanOn(t, p), ScanOn(t, p1)) && Shown(p1.scan.all) == Shown(p.scan.all) + a
    requires Scanned(t, p1, q, stack, b, d, more)
    ensures Scanned(t, p, q, stack, a + b, d, more)
  {
    hide Sound, ScanOn, Shown, Stands, Ahead, Follows;
    assert Shown(p.scan.all) + a + b == Shown(p.scan.all) + (a + b);
  }

  /** The innermost block ends in front of what follows. */
  lemma BlockEnds(t: string, p: Place, stack: seq<Level>, level: Level, d: int, more: string) returns (q: Place)
    requires Stands(p.scan, stack + [level]) && level.kind != IndentType.NONE && Ahead(t, p.mark, d)
    requires d < level.column || (d == level.column && level.kind == SEQ && more != "" && more[0] != '-')
    requires d >= 0 ==> p.scan.simpleKeyAllowed && Follows(t, p.mark.pos, more)
    ensures Scanned(t, p, q, stack, [TokenSpelling.Tok(if level.kind == SEQ then BLOCK_SEQ_END else BLOCK_MAP_END)], d, more)
  {
    hide Sound, PointersOk, ScanOn, Shown;
    TopIs(p.scan, stack + [level]);
    if d == level.column {
      assert t[p.mark.pos] == t[p.mark.pos..][0];
    }
    Settles(t, p, d);
    var end := if level.kind == SEQ then BLOCK_SEQ_END else BLOCK_MAP_END;
    q := Place(PopIndent(p.scan), p.mark);
    EndPushed(p.scan, stack, level);
    ShownSum(p.scan.all, [Item(end, VALID, "")]);
    ShownMark(end, VALID);
  }

  lemma EndPushed(s: Scan, stack: seq<Level>, level: Level)
    requires Stands(s, stack + [level]) && level.kind != IndentType.NONE && Live(PopIndent(s))
    ensures PopIndent(s) == s.(indents := s.indents[..|s.indents| - 1],
                               all := s.all + [Item(if level.kind == SEQ then BLOCK_SEQ_END else BLOCK_MAP_END, VALID, "")])
    ensures Stands(PopIndent(s), stack)
  {
    TopIs(s, stack + [level]);
    hide Sound, PointersOk, Top, InvalidateSimpleKey;
    var s' := PopIndent(s);
    forall i | 0 <= i < |stack|
      ensures IsLevel(s'.refs[s'.indents[i + 1]], stack[i])
    {
      assert IsLevel(s.refs[s.indents[i + 1]], (stack + [level])[i]);
    }
  }

  lemma EntriesFirst(ns: seq<Block>, c: nat, step: nat, d: int, more: string, feed: bool)
    requires ns != []
    ensures var behind := if |ns| == 1 then NextText(d, more, feed)
                          else NextText(c, EntriesText(ns[1..], c, step) + NextText(d, more, feed), feed);
            EntriesText(ns, c, step) + NextText(d, more, feed) ==
            "-" + (SpaceText(step) + (BlockText(ns[0], c + 1 + step, step) + behind))
  {
    hide BlockText, NextText, SpaceText;
    var first, next := BlockText(ns[0], c + 1 + step, step), NextText(d, more, feed);
    if |ns| == 1 {
      assert "-" + SpaceText(step) + first + "" + next == "-" + (SpaceText(step) + (first + next));
    } else {
      var others := EntriesText(ns[1..], c, step);
      NextIs(c, others + next, feed);
      hide EntriesText, NewLine;
      assert "-" + SpaceText(step) + first + (NewLine(c) + others) + next == "-" + (SpaceText(step) + (first + (NewLine(c) + (others + next))));
    }
  }

  lemma NextIs(c: nat, more: string, feed: bool)
    ensures NextText(c, more, feed) == NewLine(c) + more
  {
  }

  lemma EntriesBegin(ns: seq<Block>, c: nat, step: nat, rest: string)
    requires ns != []
    ensures EntriesText(ns, c, step) != "" && BeginsToken(EntriesText(ns, c, step) + rest)
  {
    hide BlockText;
  }

  lemma AllEntriesOk(n: Block)
    requires n.Entries? && BlockOk(n)
    ensures n.items != [] && forall i :: 0 <= i < |n.items| ==> BlockOk(n.items[i])
  {
  }

  lemma EntryTokensFirst(ns: seq<Block>, deep: bool)
    requires ns != []
    ensures var begun := Started(BLOCK_SEQ_START, deep) + [TokenSpelling.Tok(BLOCK_ENTRY)]; var end := [TokenSpelling.Tok(BLOCK_SEQ_END)];
            Started(BLOCK_SEQ_START, deep) + TokenSpelling.BlockEntryTokens(EntryNodes(ns)) + end ==
            begun + (TokenSpelling.NodeTokens(BlockNode(ns[0])) +
                     (if |ns| == 1 then end else Started(BLOCK_SEQ_START, false) + TokenSpelling.BlockEntryTokens(EntryNodes(ns[1..])) + end))
  {
    hide TokenSpelling.NodeTokens, BlockNode;
    assert EntryNodes(ns)[1..] == EntryNodes(ns[1..]);
    OneOfMany(Started(BLOCK_SEQ_START, deep), [TokenSpelling.Tok(BLOCK_ENTRY)], TokenSpelling.NodeTokens(BlockNode(ns[0])),
              TokenSpelling.BlockEntryTokens(EntryNodes(ns[1..])), [TokenSpelling.Tok(BLOCK_SEQ_END)]);
  }

  lemma OneOfMany(start: seq<Parsing.Token>, mark: seq<Parsing.Token>, first: seq<Parsing.Token>, others: seq<Parsing.Token>, end: seq<Parsing.Token>)
    ensures start + (mark + first + others) + end == start + mark + (first + (others + end))
    ensures [] + others + end == others + end && (others == [] ==> others + end == end)
  {
  }

  lemma {:induction false} BlockScans(t: string, p: Place, stack: seq<Level>, n: Block, step: nat, d: int, more: string, feed: bool)
    returns (q: Place)
    requires Stands(p.scan, stack) && p.scan.simpleKeyAllowed && p.mark.column > TopColumn(stack) && BlockOk(n) && step > 0
    requires NextOk(stack, d, more)
    requires Follows(t, p.mark.pos, BlockText(n, p.mark.column, step) + NextText(d, more, feed))
    ensures Scanned(t, p, q, stack, TokenSpelling.NodeTokens(BlockNode(n)), d, more)
    decreases n, 1
  {
    hide Sound, PointersOk, ScanOn, Stands, Shown, NextText, EntriesText, BlockPairsText, Ahead, TokenSpelling.NodeTokens,
         EntryNodes, PairNodes;
    hide TokenSpelling.BlockEntryTokens, TokenSpelling.BlockPairTokens, NextOk;
    match n
    case Missing => q := MissingScans(t, p, stack, d, more, feed);
    case Leaf(line) =>
      NextIsOk(stack, d, more);
      q := LeafScans(t, p, stack, line, d, more, feed);
    case Entries(_, items) =>
      AllEntriesOk(n);
      q := EntriesScan(t, p, stack, items, step, d, more, feed, true);
      BareTokens(TokenSpelling.Content.Sequence(true, EntryNodes(items)));
    case Pairs(pairs) =>
      AllBlockPairsOk(n);
      q := BlockPairsScan(t, p, stack, pairs, step, d, more, feed, true);
      BareTokens(TokenSpelling.Mapping(true, PairNodes(pairs)));
  }

  lemma {:induction false} EntriesScan(t: string, p: Place, stack: seq<Level>, ns: seq<Block>, step: nat, d: int, more: string, feed: bool,
                                       deep: bool) returns (q: Place)
    requires Stands(p.scan, Around(stack, p.mark.column, SEQ, !deep)) && p.scan.simpleKeyAllowed && Fits(stack, p.mark.column, SEQ, true)
    requires ns != [] && (forall i :: 0 <= i < |ns| ==> BlockOk(ns[i])) && step > 0 && NextOk(stack, d, more)
    requires Follows(t, p.mark.pos, EntriesText(ns, p.mark.column, step) + NextText(d, more, feed))
    ensures Scanned(t, p, q, stack,
                    Started(BLOCK_SEQ_START, deep) + TokenSpelling.BlockEntryTokens(EntryNodes(ns)) + [TokenSpelling.Tok(BLOCK_SEQ_END)], d, more)
    decreases ns, 0
  {
    hide Sound, PointersOk, ScanOn, Stands, Shown, NextText, EntriesText, BlockText, SpaceText, Ahead, TokenSpelling.NodeTokens,
         EntryNodes, BlockNode;
    hide TokenSpelling.BlockEntryTokens, Dashed, BlockOk, BeginsToken, Started, Scanned;
    var c := p.mark.column;
    StandsLives(p.scan, Around(stack, c, SEQ, !deep));
    var inner := stack + [Level(c, SEQ)];
    var d', more' := if |ns| == 1 then d else c, if |ns| == 1 then more else EntriesText(ns[1..], c, step) + NextText(d, more, feed);
    EntriesFirst(ns, c, step, d, more, feed);
    var rest := BlockText(ns[0], c + 1 + step, step) + NextText(d', more', feed);
    SpacesBegin(step, rest);
    DashScans(t, p, Around(stack, c, SEQ, !deep), SpaceText(step) + rest, deep);
    var p1 := Place(Dashed(p.scan, c, deep), Past(p.mark, 1));
    DashedIsShown(p.scan, c, deep);
    DashedAllows(p.scan, c, deep);
    StandsLives(p1.scan, inner);
    SpacesSkipped(t, p1, step, rest);
    var p2 := Place(p1.scan, Past(p1.mark, step));
    if |ns| > 1 {
      EntriesBegin(ns[1..], c, step, NextText(d, more, feed));
    }
    EntryNextOk(stack, c, d', more', d, more);
    var q1 := BlockScans(t, p2, inner, ns[0], step, d', more', feed);
    ScannedAt(t, p2, q1, inner, TokenSpelling.NodeTokens(BlockNode(ns[0])), d', more');
    EntryTokensFirst(ns, deep);
    var end := [TokenSpelling.Tok(BLOCK_SEQ_END)];
    if |ns| == 1 {
      q := BlockEnds(t, q1, stack, Level(c, SEQ), d, more);
    } else {
      q := EntriesScan(t, q1, stack, ns[1..], step, d, more, feed, false);
      end := Started(BLOCK_SEQ_START, false) + TokenSpelling.BlockEntryTokens(EntryNodes(ns[1..])) + end;
    }
    ScannedOn(t, p2, q1, q, stack, TokenSpelling.NodeTokens(BlockNode(ns[0])), end, d, more);
    ScannedOn(t, p, p2, q, stack, Started(BLOCK_SEQ_START, deep) + [TokenSpelling.Tok(BLOCK_ENTRY)],
              TokenSpelling.NodeTokens(BlockNode(ns[0])) + end, d, more);
  }

  /** What follows an entry. */
  lemma EntryNextOk(stack: seq<Level>, c: nat, d': int, more': string, d: int, more: string)
    requires Fits(stack, c, SEQ, true) && NextOk(stack, d, more) && ((d' == d && more' == more) || (d' == c && BeginsToken(more')))
    ensures NextOk(stack + [Level(c, SEQ)], d', more')
    ensures d < c || (d == c && more != "" && more[0] != '-')
  {
  }

  /** A node that is left out. */
  lemma MissingScans(t: string, p: Place, stack: seq<Level>, d: int, more: string, feed: bool) returns (q: Place)
    requires Stands(p.scan, stack) && NextOk(stack, d, more) && Follows(t, p.mark.pos, "" + NextText(d, more, feed))
    ensures Scanned(t, p, q, stack, TokenSpelling.NodeTokens(BlockNode(Missing)), d, more)
  {
    hide Sound, ScanOn, Shown, EatBreak, TokenSpelling.NodeTokens;
    BareTokens(TokenSpelling.Nothing);
    NothingScanned(p.scan);
    NextIsOk(stack, d, more);
    hide NextOk;
    assert "" + NextText(d, more, feed) == NextText(d, more, feed);
    if d >= 0 || feed {
      NextTextFed(d, more, feed);
      hide NextText;
      q := LineBreakSkipped(t, p, d, more);
      BreakKeeps(p.scan, stack);
      StandsAllowed(p.scan, stack);
    } else {
      q := p;
    }
  }

  lemma LeafScans(t: string, p: Place, stack: seq<Level>, n: Inline, d: int, more: string, feed: bool) returns (q: Place)
    requires Stands(p.scan, stack) && p.mark.column > TopColumn(stack) && InlineOk(n) && -1 <= d <= TopColumn(stack) && (d >= 0 ==> BeginsToken(more))
    requires Follows(t, p.mark.pos, InlineText(n) + NextText(d, more, feed))
    ensures Scanned(t, p, q, stack, TokenSpelling.NodeTokens(InlineNode(n)), d, more)
  {
    hide Sound, ScanOn, Shown, NextText, InlineNode, TokenSpelling.NodeTokens;
    q := TailScans(t, p, stack, n, d, more, feed);
  }

  // Block maps

  lemma AllBlockPairsOk(n: Block)
    requires n.Pairs? && BlockOk(n)
    ensures n.pairs != [] && forall i :: 0 <= i < |n.pairs| ==> BlockPairOk(n.pairs[i])
  {
  }

  lemma BlockBegins(n: Block, column: nat, step: nat, rest: string)
    requires BlockOk(n) && !n.Missing?
    ensures BeginsToken(BlockText(n, column, step) + rest)
  {
    match n
    case Leaf(line) => InlineIsNotEmpty(line);
    case Entries(_, items) => EntriesBegin(items, column, step, "");
    case Pairs(pairs) => PairsBegin(pairs, column, step, "");
  }

  lemma PairsBegin(ps: seq<BlockPair>, c: nat, step: nat, rest: string)
    requires ps != [] && BlockPairOk(ps[0])
    ensures var text := BlockPairsText(ps, c, step); text != "" && BeginsToken(text + rest) && text[0] != '-'
  {
    hide InlineText, ValueText, BlockText;
    if ps[0].BlockPair? {
      InlineIsNotEmpty(ps[0].key);
    }
  }

  lemma BreakKeeps(s: Scan, stack: seq<Level>)
    requires Stands(s, stack)
    ensures PointersOk(s) && EatBreak(s) == s.(simpleKeyAllowed := true)
  {
    hide Sound, PointersOk;
  }

  /** The value of a block map, on the line of its key or below. */
  lemma {:induction false} ValueScans(t: string, p: Place, stack: seq<Level>, n: Block, column: nat, step: nat, d: int, more: string, feed: bool)
    returns (q: Place)
    requires Stands(p.scan, stack + [Level(column, MAP)]) && column > TopColumn(stack) && p.mark.column > column && BlockOk(n) && step > 0
    requires NextOk(stack + [Level(column, MAP)], d, more)
    requires Follows(t, p.mark.pos, ValueText(n, column, step) + NextText(d, more, feed))
    ensures Scanned(t, p, q, stack + [Level(column, MAP)], TokenSpelling.NodeTokens(BlockNode(n)), d, more)
    decreases n, 3
  {
    hide Sound, PointersOk, ScanOn, Stands, Shown, NextText, BlockText, InlineText, SpaceText, Ahead, TokenSpelling.NodeTokens,
         BlockNode, BlockOk;
    hide BeginsToken, Scanned, InlineNode, InlineOk, EatBreak, NextOk;
    var inner := stack + [Level(column, MAP)];
    StandsLives(p.scan, inner);
    NextIsOk(inner, d, more);
    ValueFirst(n, column, step, NextText(d, more, feed));
    var p1;
    if n.Missing? || n.Leaf? {
      SpacesSkipped(t, p, step, BlockText(n, column, step) + NextText(d, more, feed));
      p1 := Place(p.scan, Past(p.mark, step));
      LeafNode(n, column, step);
      if n.Leaf? {
        q := LeafScans(t, p1, inner, n.line, d, more, feed);
      } else {
        q := MissingScans(t, p1, inner, d, more, feed);
      }
    } else {
      var c := ValueColumn(n, column, step);
      var text := BlockText(n, c, step) + NextText(d, more, feed);
      BlockBegins(n, c, step, NextText(d, more, feed));
      NextIs(c, text, true);
      NoFlow(p.scan, inner);
      p1 := LineBreakSkipped(t, p, c, text);
      BreakKeeps(p.scan, inner);
      StandsAllowed(p.scan, inner);
      AheadIs(t, p1.mark, c);
      q := BlockValueScans(t, p1, stack, n, column, step, d, more, feed);
    }
    NothingScanned(p.scan);
    ScannedOn(t, p, p1, q, inner, [], TokenSpelling.NodeTokens(BlockNode(n)), d, more);
  }

  /** A collection below its key. */
  lemma {:induction false} BlockValueScans(t: string, p: Place, stack: seq<Level>, n: Block, column: nat, step: nat, d: int, more: string, feed: bool)
    returns (q: Place)
    requires Stands(p.scan, stack + [Level(column, MAP)]) && p.scan.simpleKeyAllowed && BlockOk(n) && (n.Entries? || n.Pairs?) && step > 0
    requires p.mark.column == ValueColumn(n, column, step) && NextOk(stack + [Level(column, MAP)], d, more)
    requires Follows(t, p.mark.pos, BlockText(n, p.mark.column, step) + NextText(d, more, feed))
    ensures Scanned(t, p, q, stack + [Level(column, MAP)], TokenSpelling.NodeTokens(BlockNode(n)), d, more)
    decreases n, 2
  {
    hide Sound, PointersOk, ScanOn, Stands, Shown, NextText, Ahead, TokenSpelling.NodeTokens, EntryNodes, EntriesText, BlockPairsText;
    hide Scanned, NextOk, TokenSpelling.BlockEntryTokens, PairNodes;
    var inner := stack + [Level(column, MAP)];
    if p.mark.column > column {
      q := BlockScans(t, p, inner, n, step, d, more, feed);
    } else {
      AllEntriesOk(n);
      q := EntriesScan(t, p, inner, n.items, step, d, more, feed, true);
      BareTokens(TokenSpelling.Content.Sequence(true, EntryNodes(n.items)));
    }
  }

  lemma AheadIs(t: string, m: Mark, column: nat)
    requires Ahead(t, m, column)
    ensures m.column == column
  {
  }

  lemma NoFlow(s: Scan, stack: seq<Level>)
    requires Stands(s, stack)
    ensures s.flows == []
  {
  }

  lemma StandsAllowed(s: Scan, stack: seq<Level>)
    requires Stands(s, stack) && Live(s.(simpleKeyAllowed := true))
    ensures Stands(s.(simpleKeyAllowed := true), stack)
  {
    hide Sound, PointersOk;
  }

  lemma NothingScanned(s: Scan)
    ensures Shown(s.all) == Shown(s.all) + [] && forall x: seq<Parsing.Token> :: [] + x == x
  {
    hide Shown;
  }

  lemma LeafNode(n: Block, column: nat, step: nat)
    requires n.Leaf? || n.Missing?
    ensures n.Leaf? ==> BlockNode(n) == InlineNode(n.line) && (BlockOk(n) ==> InlineOk(n.line)) && BlockText(n, column, step) == InlineText(n.line)
    ensures n.Missing? ==> n == Missing && BlockText(n, column, step) == ""
  {
  }

  lemma ValueFirst(n: Block, column: nat, step: nat, rest: string)
    ensures var c := ValueColumn(n, column, step);
            ValueText(n, column, step) + rest ==
            if n.Missing? || n.Leaf? then SpaceText(step) + (BlockText(n, column, step) + rest) else NewLine(c) + (BlockText(n, c, step) + rest)
  {
    hide BlockText, SpaceText, NewLine;
    if n.Missing? || n.Leaf? {
      assert SpaceText(step) + BlockText(n, column, step) + rest == SpaceText(step) + (BlockText(n, column, step) + rest);
    } else {
      var c := ValueColumn(n, column, step);
      assert NewLine(c) + BlockText(n, c, step) + rest == NewLine(c) + (BlockText(n, c, step) + rest);
    }
  }

  lemma ValueBegins(n: Block, column: nat, step: nat, rest: string)
    requires step > 0
    ensures var text := ValueText(n, column, step) + rest; text != "" && (text[0] == ' ' || text[0] == '\n')
  {
    hide BlockText, InlineText;
  }

  lemma PairsFirstLine(ps: seq<BlockPair>, c: nat, step: nat, d: int, more: string, feed: bool)
    requires ps != []
    ensures var behind := if |ps| == 1 then NextText(d, more, feed)
                          else NextText(c, BlockPairsText(ps[1..], c, step) + NextText(d, more, feed), feed);
            BlockPairsText(ps, c, step) + NextText(d, more, feed) == BlockPairText(ps[0], c, step) + behind
  {
    hide BlockPairText, NextText;
    var first, next := BlockPairText(ps[0], c, step), NextText(d, more, feed);
    if |ps| == 1 {
      assert first + "" + next == first + next;
    } else {
      var others := BlockPairsText(ps[1..], c, step);
      NextIs(c, others + next, feed);
      hide BlockPairsText, NewLine;
      assert first + (NewLine(c) + others) + next == first + (NewLine(c) + (others + next));
    }
  }

  lemma PairFirst(p: BlockPair, c: nat, step: nat, rest: string)
    ensures match p
            case BlockPair(key, value) => BlockPairText(p, c, step) + rest == KeyText(key) + (":" + (ValueText(value, c, step) + rest))
            case LongPair(node, value) =>
              var answer := ":" + (SpaceText(step) + (BlockText(value, c + 1 + step, step) + rest));
              BlockPairText(p, c, step) + rest == "?" + (SpaceText(step) + (BlockText(node, c + 1 + step, step) + (NewLine(c) + answer)))
  {
    hide InlineText, KeyText, ValueText, BlockText, SpaceText, NewLine;
    match p
    case BlockPair(key, value) =>
      assert KeyText(key) + ":" + ValueText(value, c, step) + rest == KeyText(key) + (":" + (ValueText(value, c, step) + rest));
    case LongPair(node, value) =>
      LongRegrouped(SpaceText(step), BlockText(node, c + 1 + step, step), NewLine(c), BlockText(value, c + 1 + step, step), rest);
  }

  lemma LongRegrouped(gap: string, node: string, line: string, value: string, rest: string)
    ensures "?" + gap + node + line + (":" + gap + value) + rest == "?" + (gap + (node + (line + (":" + (gap + (value + rest))))))
  {
  }

  lemma PairTokensFirst(ps: seq<BlockPair>, deep: bool)
    requires ps != []
    ensures var end := [TokenSpelling.Tok(BLOCK_MAP_END)];
            Started(BLOCK_MAP_START, deep) + TokenSpelling.BlockPairTokens(PairNodes(ps)) + end ==
            BlockPairTokens(ps[0], deep) +
            (if |ps| == 1 then end else Started(BLOCK_MAP_START, false) + TokenSpelling.BlockPairTokens(PairNodes(ps[1..])) + end)
  {
    hide TokenSpelling.PairTokens, BlockPairNode;
    assert PairNodes(ps)[1..] == PairNodes(ps[1..]);
    OneOfMany(Started(BLOCK_MAP_START, deep), TokenSpelling.PairTokens(BlockPairNode(ps[0])), [],
              TokenSpelling.BlockPairTokens(PairNodes(ps[1..])), [TokenSpelling.Tok(BLOCK_MAP_END)]);
    Nothing(TokenSpelling.PairTokens(BlockPairNode(ps[0])));
  }

  lemma Nothing(a: seq<Parsing.Token>)
    ensures a + [] == a && forall x: seq<Parsing.Token> :: [] + x == x
  {
  }

  function BlockPairTokens(p: BlockPair, deep: bool): seq<Parsing.Token> {
    Started(BLOCK_MAP_START, deep) + TokenSpelling.PairTokens(BlockPairNode(p))
  }

  lemma NoKeyTokens(p: BlockPair)
    requires p.LongPair? && p.node.Missing?
    ensures var v := TokenSpelling.NodeTokens(BlockNode(p.value));
            && TokenSpelling.NodeTokens(KeyNode(p)) == []
            && TokenSpelling.PairTokens(BlockPairNode(p)) == [TokenSpelling.Tok(KEY)] + [] + ([TokenSpelling.Tok(VALUE)] + v)
  {
    BareTokens(TokenSpelling.Nothing);
    var v := TokenSpelling.NodeTokens(BlockNode(p.value));
    assert TokenSpelling.NodeTokens(TokenSpelling.NoKey(BlockNode(p.value))) == [TokenSpelling.Tok(VALUE)] + v;
    hide TokenSpelling.NodeTokens;
    assert [TokenSpelling.Tok(KEY)] + ([TokenSpelling.Tok(VALUE)] + v) + [] == [TokenSpelling.Tok(KEY)] + [] + ([TokenSpelling.Tok(VALUE)] + v);
  }

  lemma PairTokensAre(p: BlockPair, deep: bool)
    ensures BlockPairTokens(p, deep) ==
            Started(BLOCK_MAP_START, deep) +
            ([TokenSpelling.Tok(KEY)] + TokenSpelling.NodeTokens(KeyNode(p)) + [TokenSpelling.Tok(VALUE)]) +
            TokenSpelling.NodeTokens(BlockNode(p.value))
  {
    hide TokenSpelling.NodeTokens, BlockNode, KeyNode;
    var k, v := TokenSpelling.NodeTokens(KeyNode(p)), TokenSpelling.NodeTokens(BlockNode(p.value));
    KeyAndValue(k, v);
    if p.LongPair? && p.node.Missing? {
      NoKeyTokens(p);
    }
    assert TokenSpelling.PairTokens(BlockPairNode(p)) == [TokenSpelling.Tok(KEY)] + k + ([TokenSpelling.Tok(VALUE)] + v);
    AtTheFront(Started(BLOCK_MAP_START, deep), [TokenSpelling.Tok(KEY)] + k + [TokenSpelling.Tok(VALUE)], v);
  }

  lemma AtTheFront(a: seq<Parsing.Token>, b: seq<Parsing.Token>, c: seq<Parsing.Token>)
    ensures a + (b + c) == a + b + c
  {
  }

  lemma KeyAndValue(k: seq<Parsing.Token>, v: seq<Parsing.Token>)
    ensures [TokenSpelling.Tok(KEY)] + k + ([TokenSpelling.Tok(VALUE)] + v) == [TokenSpelling.Tok(KEY)] + k + [TokenSpelling.Tok(VALUE)] + v
  {
  }

  lemma KeyedAt(s: Scan, column: nat, n: Inline, deep: bool, tokens: seq<Parsing.Token>)
    requires InlineOk(n)
    requires tokens == Started(BLOCK_MAP_START, deep) + ([TokenSpelling.Tok(KEY)] + TokenSpelling.NodeTokens(InlineNode(n)) + [TokenSpelling.Tok(VALUE)])
    ensures Shown(KeyedAs(s, column, n, deep).all) == Shown(s.all) + tokens
  {
    hide Shown, KeyedAs, InlineNode, TokenSpelling.NodeTokens;
    ValuedIsShown(s, column, n, deep);
  }

  /** A key and its value in a block map. */
  lemma {:induction false} BlockPairScans(t: string, p: Place, stack: seq<Level>, pair: BlockPair, step: nat, d: int, more: string, feed: bool,
                                          deep: bool) returns (q: Place)
    requires Stands(p.scan, Around(stack, p.mark.column, MAP, !deep)) && p.scan.simpleKeyAllowed && p.mark.column > TopColumn(stack)
    requires BlockPairOk(pair) && step > 0 && NextOk(stack + [Level(p.mark.column, MAP)], d, more)
    requires Follows(t, p.mark.pos, BlockPairText(pair, p.mark.column, step) + NextText(d, more, feed))
    ensures Sound(p.scan) && Scanned(t, p, q, stack + [Level(p.mark.column, MAP)], BlockPairTokens(pair, deep), d, more)
    decreases pair, 1
  {
    hide Sound, PointersOk, ScanOn, Stands, Shown, NextText, ValueText, KeyText, Ahead, TokenSpelling.NodeTokens, BlockPairTokens;
    hide BlockNode, InlineNode, BlockOk, InlineOk, BeginsToken, Started, Scanned, NextOk, BlockText, SpaceText, BlockPairText;
    var c := p.mark.column;
    StandsLives(p.scan, Around(stack, c, MAP, !deep));
    PairFirst(pair, c, step, NextText(d, more, feed));
    match pair
    case BlockPair(key, value) => q := ShortPairScans(t, p, stack, key, value, step, d, more, feed, deep);
    case LongPair(node, value) => q := LongPairScans(t, p, stack, node, value, step, d, more, feed, deep);
  }

  lemma {:induction false} ShortPairScans(t: string, p: Place, stack: seq<Level>, key: Inline, value: Block, step: nat, d: int, more: string,
                                          feed: bool, deep: bool) returns (q: Place)
    requires Stands(p.scan, Around(stack, p.mark.column, MAP, !deep)) && p.scan.simpleKeyAllowed && p.mark.column > TopColumn(stack) && Sound(p.scan)
    requires InlineOk(key) && |KeyText(key)| <= 1024 && BlockOk(value) && step > 0 && NextOk(stack + [Level(p.mark.column, MAP)], d, more)
    requires Follows(t, p.mark.pos, KeyText(key) + (":" + (ValueText(value, p.mark.column, step) + NextText(d, more, feed))))
    ensures Scanned(t, p, q, stack + [Level(p.mark.column, MAP)], BlockPairTokens(BlockPair.BlockPair(key, value), deep), d, more)
    decreases value, 4
  {
    hide Sound, PointersOk, ScanOn, Stands, Shown, NextText, ValueText, KeyText, Ahead, TokenSpelling.NodeTokens, BlockPairTokens;
    hide BlockNode, InlineNode, KeyedAs, BlockOk, InlineOk, BeginsToken, Started, Scanned, NextOk;
    var c := p.mark.column;
    var inner := stack + [Level(c, MAP)];
    var rest := ValueText(value, c, step) + NextText(d, more, feed);
    ValueBegins(value, c, step, NextText(d, more, feed));
    KeyScans(t, p, Around(stack, c, MAP, !deep), key, rest, deep);
    var p1 := Place(KeyedAs(p.scan, c, key, deep), Past(p.mark, |KeyText(key)| + 1));
    var begun := Started(BLOCK_MAP_START, deep) + ([TokenSpelling.Tok(KEY)] + TokenSpelling.NodeTokens(InlineNode(key)) + [TokenSpelling.Tok(VALUE)]);
    KeyedAt(p.scan, c, key, deep, begun);
    StandsLives(p1.scan, inner);
    q := ValueScans(t, p1, stack, value, c, step, d, more, feed);
    ScannedOn(t, p, p1, q, inner, begun, TokenSpelling.NodeTokens(BlockNode(value)), d, more);
    PairTokensAre(BlockPair.BlockPair(key, value), deep);
  }

  /** Each on its own line, behind a question mark and a colon. */
  lemma {:induction false} LongPairScans(t: string, p: Place, stack: seq<Level>, node: Block, value: Block, step: nat, d: int, more: string,
                                         feed: bool, deep: bool) returns (q: Place)
    requires Stands(p.scan, Around(stack, p.mark.column, MAP, !deep)) && p.scan.simpleKeyAllowed && p.mark.column > TopColumn(stack) && Sound(p.scan)
    requires BlockOk(node) && BlockOk(value) && step > 0 && NextOk(stack + [Level(p.mark.column, MAP)], d, more)
    requires var c := p.mark.column;
             var answer := ":" + (SpaceText(step) + (BlockText(value, c + 1 + step, step) + NextText(d, more, feed)));
             Follows(t, p.mark.pos, "?" + (SpaceText(step) + (BlockText(node, c + 1 + step, step) + (NewLine(c) + answer))))
    ensures Scanned(t, p, q, stack + [Level(p.mark.column, MAP)], BlockPairTokens(LongPair(node, value), deep), d, more)
    decreases LongPair(node, value), 0
  {
    hide Sound, PointersOk, ScanOn, Stands, Shown, NextText, BlockText, SpaceText, Ahead, TokenSpelling.NodeTokens, BlockPairTokens;
    hide BlockNode, Asked, Answered, BlockOk, Started, Scanned, NextOk, NewLine;
    var c := p.mark.column;
    var inner := stack + [Level(c, MAP)];
    var behind := BlockText(value, c + 1 + step, step) + NextText(d, more, feed);
    var answer := ":" + (SpaceText(step) + behind);
    NextIs(c, answer, feed);
    var p2 := AskedScans(t, p, stack, step, BlockText(node, c + 1 + step, step) + NextText(c, answer, feed), deep);
    AnswerIsNext(stack, c, answer);
    var q1 := BlockScans(t, p2, inner, node, step, c, answer, feed);
    ScannedAt(t, p2, q1, inner, TokenSpelling.NodeTokens(BlockNode(node)), c, answer);
    var p4 := AnsweredScans(t, q1, stack, c, step, behind);
    q := BlockScans(t, p4, inner, value, step, d, more, feed);
    ScannedOn(t, q1, p4, q, inner, [TokenSpelling.Tok(VALUE)], TokenSpelling.NodeTokens(BlockNode(value)), d, more);
    var asked := Started(BLOCK_MAP_START, deep) + [TokenSpelling.Tok(KEY)];
    var k, v := TokenSpelling.NodeTokens(BlockNode(node)), TokenSpelling.NodeTokens(BlockNode(value));
    ScannedOn(t, p2, q1, q, inner, k, [TokenSpelling.Tok(VALUE)] + v, d, more);
    ScannedOn(t, p, p2, q, inner, asked, k + ([TokenSpelling.Tok(VALUE)] + v), d, more);
    PairTokensAre(LongPair(node, value), deep);
    LongTokens(Started(BLOCK_MAP_START, deep), [TokenSpelling.Tok(KEY)], k, [TokenSpelling.Tok(VALUE)], v);
  }

  lemma LongTokens(a: seq<Parsing.Token>, b: seq<Parsing.Token>, k: seq<Parsing.Token>, c: seq<Parsing.Token>, v: seq<Parsing.Token>)
    ensures a + b + (k + (c + v)) == a + (b + k + c) + v
  {
  }

  lemma AnswerIsNext(stack: seq<Level>, c: nat, answer: string)
    requires answer != "" && answer[0] == ':'
    ensures NextOk(stack + [Level(c, MAP)], c, answer)
  {
  }

  lemma AskedScans(t: string, p: Place, stack: seq<Level>, step: nat, rest: string, deep: bool) returns (q: Place)
    requires Stands(p.scan, Around(stack, p.mark.column, MAP, !deep)) && p.scan.simpleKeyAllowed && p.mark.column > TopColumn(stack) && step > 0
    requires Sound(p.scan) && Follows(t, p.mark.pos, "?" + (SpaceText(step) + rest))
    ensures Stands(q.scan, stack + [Level(p.mark.column, MAP)]) && q.scan.simpleKeyAllowed && q.mark == Past(p.mark, 1 + step)
    ensures Sound(q.scan) && Alike(ScanOn(t, p), ScanOn(t, q)) && Follows(t, q.mark.pos, rest)
    ensures Shown(q.scan.all) == Shown(p.scan.all) + (Started(BLOCK_MAP_START, deep) + [TokenSpelling.Tok(KEY)])
  {
    hide Sound, PointersOk, ScanOn, Stands, Shown, SpaceText, Started;
    var c := p.mark.column;
    SpacesBegin(step, rest);
    QuestionScans(t, p, Around(stack, c, MAP, !deep), SpaceText(step) + rest, deep);
    AskedIsShown(p.scan, c, deep);
    var p1 := Place(Asked(p.scan, c, deep), Past(p.mark, 1));
    StandsLives(p1.scan, stack + [Level(c, MAP)]);
    SpacesSkipped(t, p1, step, rest);
    q := Place(p1.scan, Past(p1.mark, step));
  }

  lemma AnsweredScans(t: string, p: Place, stack: seq<Level>, c: nat, step: nat, rest: string) returns (q: Place)
    requires Stands(p.scan, stack + [Level(c, MAP)]) && p.scan.simpleKeyAllowed && p.mark.column == c && step > 0
    requires Sound(p.scan) && Follows(t, p.mark.pos, ":" + (SpaceText(step) + rest))
    ensures Stands(q.scan, stack + [Level(c, MAP)]) && q.scan.simpleKeyAllowed && q.mark == Past(p.mark, 1 + step)
    ensures Sound(q.scan) && Alike(ScanOn(t, p), ScanOn(t, q)) && Follows(t, q.mark.pos, rest)
    ensures Shown(q.scan.all) == Shown(p.scan.all) + [TokenSpelling.Tok(VALUE)]
  {
    hide Sound, PointersOk, ScanOn, Stands, Shown, SpaceText;
    SpacesBegin(step, rest);
    AnswerScans(t, p, stack + [Level(c, MAP)], SpaceText(step) + rest);
    ShownSum(p.scan.all, [Sure(VALUE)]);
    ShownMark(VALUE, VALID);
    var p1 := Place(Answered(p.scan), Past(p.mark, 1));
    StandsLives(p1.scan, stack + [Level(c, MAP)]);
    SpacesSkipped(t, p1, step, rest);
    q := Place(p1.scan, Past(p1.mark, step));
  }

  lemma {:induction false} BlockPairsScan(t: string, p: Place, stack: seq<Level>, ps: seq<BlockPair>, step: nat, d: int, more: string, feed: bool,
                                          deep: bool) returns (q: Place)
    requires Stands(p.scan, Around(stack, p.mark.column, MAP, !deep)) && p.scan.simpleKeyAllowed && p.mark.column > TopColumn(stack)
    requires ps != [] && (forall i :: 0 <= i < |ps| ==> BlockPairOk(ps[i])) && step > 0 && NextOk(stack, d, more)
    requires Follows(t, p.mark.pos, BlockPairsText(ps, p.mark.column, step) + NextText(d, more, feed))
    ensures Scanned(t, p, q, stack,
                    Started(BLOCK_MAP_START, deep) + TokenSpelling.BlockPairTokens(PairNodes(ps)) + [TokenSpelling.Tok(BLOCK_MAP_END)], d, more)
    decreases ps, 0
  {
    hide Sound, PointersOk, ScanOn, Stands, Shown, NextText, BlockPairsText, ValueText, InlineText, Ahead, PairNodes;
    hide TokenSpelling.BlockPairTokens, BeginsToken, Started, Scanned, BlockPairTokens;
    var c := p.mark.column;
    StandsLives(p.scan, Around(stack, c, MAP, !deep));
    var inner := stack + [Level(c, MAP)];
    var d', more' := if |ps| == 1 then d else c, if |ps| == 1 then more else BlockPairsText(ps[1..], c, step) + NextText(d, more, feed);
    PairsFirstLine(ps, c, step, d, more, feed);
    if |ps| > 1 {
      assert BlockPairOk(ps[1]);
      PairsBegin(ps[1..], c, step, NextText(d, more, feed));
    }
    assert BlockPairOk(ps[0]);
    hide BlockPairOk, BlockPairText;
    PairNextOk(stack, c, d', more', d, more);
    hide NextOk;
    var q1 := BlockPairScans(t, p, stack, ps[0], step, d', more', feed, deep);
    ScannedAt(t, p, q1, inner, BlockPairTokens(ps[0], deep), d', more');
    PairTokensFirst(ps, deep);
    var end := [TokenSpelling.Tok(BLOCK_MAP_END)];
    if |ps| == 1 {
      q := BlockEnds(t, q1, stack, Level(c, MAP), d, more);
    } else {
      q := BlockPairsScan(t, q1, stack, ps[1..], step, d, more, feed, false);
      end := Started(BLOCK_MAP_START, false) + TokenSpelling.BlockPairTokens(PairNodes(ps[1..])) + end;
    }
    ScannedOn(t, p, q1, q, stack, BlockPairTokens(ps[0], deep), end, d, more);
  }

  /** What follows a pair. */
  lemma PairNextOk(stack: seq<Level>, c: nat, d': int, more': string, d: int, more: string)
    requires c > TopColumn(stack) && NextOk(stack, d, more)
    requires (d' == d && more' == more) || (d' == c && BeginsToken(more') && more'[0] != '-')
    ensures NextOk(stack + [Level(c, MAP)], d', more') && d < c
  {
  }

  lemma StandsLives(s: Scan, stack: seq<Level>)
    requires Stands(s, stack)
    ensures Live(s)
  {
  }

  lemma DashedAllows(s: Scan, column: nat, deep: bool)
    ensures Dashed(s, column, deep).simpleKeyAllowed
  {
  }

  lemma SpacesBegin(step: nat, rest: string)
    requires step > 0
    ensures SpaceText(step) + rest != "" && (SpaceText(step) + rest)[0] == ' '
  {
  }

  lemma ScannedAt(t: string, p: Place, q: Place, stack: seq<Level>, tokens: seq<Parsing.Token>, d: int, more: string)
    requires Sound(p.scan) && Scanned(t, p, q, stack, tokens, d, more)
    ensures Stands(q.scan, stack) && Live(q.scan) && Alike(ScanOn(t, p), ScanOn(t, q)) && Ahead(t, q.mark, d)
    ensures Shown(q.scan.all) == Shown(p.scan.all) + tokens
    ensures d >= 0 ==> q.scan.simpleKeyAllowed && Follows(t, q.mark.pos, more) && q.mark.column == d
  {
    hide Sound, ScanOn, Shown;
  }

  // The whole text

  lemma AtTheStart()
    ensures Stands(StartStream(INITIAL), []) && StartStream(INITIAL).simpleKeyAllowed && Shown([]) == [] && StartStream(INITIAL).all == []
  {
    StartSound();
  }

  /** At the end, outside all blocks. */
  lemma NothingIsLeft(t: string, p: Place)
    requires Stands(p.scan, []) && p.mark.pos >= |t|
    ensures !ScanOn(t, p).threw && ScanOn(t, p).place.scan.all == p.scan.all
  {
    EndToken(t, p);
    TopIs(p.scan, []);
    hide TokenFrom, Sound, PointersOk;
    assert EndStream(p.scan).all == p.scan.all && EndStream(p.scan).ended by {
      hide Top;
    }
    TokenLeads(t, p);
  }

  /**
   * Every tree that can be written, whatever the indentation and whether or not a line feed ends the text: scanning
   * its text gives its tokens.
   */
  lemma PrintedIsScanned(n: Block, step: nat, feed: bool)
    requires BlockOk(n) && step > 0
    ensures var scanned := ScannerText.TokensOf(BlockText(n, 0, step) + (if feed then "\n" else ""));
            !scanned.threw && TextLoading.TokensOf(scanned.items) == TokenSpelling.NodeTokens(BlockNode(n))
  {
    hide Sound, PointersOk, ScanOn, Stands, Shown, BlockText, BlockOk, TokenSpelling.NodeTokens, BlockNode;
    var t := BlockText(n, 0, step) + (if feed then "\n" else "");
    AtTheStart();
    var p := Place(StartStream(INITIAL), Mark(0, 0, 0));
    StandsLives(p.scan, []);
    var q := BlockScans(t, p, [], n, step, -1, "", feed);
    NothingIsLeft(t, q);
    Nothing(TokenSpelling.NodeTokens(BlockNode(n)));
    ShownIs(ScanOn(t, p));
  }

  lemma ShownIs(r: Remainder)
    requires !r.threw
    ensures TextLoading.TokensOf(HandedOutOf(r)) == Shown(r.place.scan.all)
  {
  }

  // One pair

  lemma TextFollows(t: string)
    ensures Follows(t, 0, t)
  {
    assert t[0..] == t;
  }

  /** A key that is too long is refused at its colon. */
  lemma LongKeyThrows(key: Inline, rest: string)
    requires InlineOk(key) && |KeyText(key)| > 1024 && rest != "" && (rest[0] == ' ' || rest[0] == '\n')
    ensures ScannerText.TokensOf(KeyText(key) + (":" + rest)).threw
  {
    hide Sound, PointersOk, ScanOn, KeyText, InlineOk, Done, EndsPlain, ScanValue, Rests, Stands, StartStream;
    var t := KeyText(key) + (":" + rest);
    AtTheStart();
    TextFollows(t);
    var p := Place(StartStream(INITIAL), Mark(0, 0, 0));
    RestsHere(p.scan, [], 0);
    RestsLives(p.scan, 0);
    NoFlow(p.scan, []);
    ColonEnds(rest);
    KeyTextScans(t, p, key, ":" + rest);
    var q := Place(Done(p.scan, p.mark, key), Past(p.mark, |KeyText(key)|));
    KeyRests(p.scan, p.mark, key, q.mark.column);
    ColonThrows(t, q, p.scan, p.mark, key, rest);
  }

  /** And where it is a word, nothing is handed out. */
  lemma LongWordThrows(w: string, rest: string)
    requires WordOk(w) && |w| > 1024 && rest != "" && (rest[0] == ' ' || rest[0] == '\n')
    ensures var scanned := ScannerText.TokensOf(w + (":" + rest)); scanned.threw && scanned.items == []
  {
    hide Sound, PointersOk, ScanOn, Done, DoneWith, EndsPlain, ScanValue, Rests, Stands, StartStream, WordOk;
    var t, key := w + (":" + rest), WordNode(w);
    AtTheStart();
    TextFollows(t);
    var p := Place(StartStream(INITIAL), Mark(0, 0, 0));
    RestsHere(p.scan, [], 0);
    RestsLives(p.scan, 0);
    NoFlow(p.scan, []);
    ColonEnds(rest);
    WordScans(t, p, w, ":" + rest);
    WordIsDone(p.scan, p.mark, w);
    var q := Place(Done(p.scan, p.mark, key), Past(p.mark, |w|));
    KeyRests(p.scan, p.mark, key, q.mark.column);
    ColonThrows(t, q, p.scan, p.mark, key, rest);
    FirstIsUndecided(p.scan, p.mark, key);
  }

  lemma WordNodeIs(w: string)
    ensures InlineText(WordNode(w)) == w && KeyText(WordNode(w)) == w && (InlineOk(WordNode(w)) <==> WordOk(w))
    ensures Raw(WordNode(w)) == [Item(PLAIN_SCALAR, VALID, w)] && !Json(WordNode(w))
  {
    hide WordOk;
    assert PropList(NO_PROPS) == [];
    assert "" + w == w && w + "" == w && [] + [Item(PLAIN_SCALAR, VALID, w)] == [Item(PLAIN_SCALAR, VALID, w)];
  }

  lemma WordIsDone(s: Scan, m: Mark, w: string)
    requires Live(s)
    ensures Done(s, m, WordNode(w)) == DoneWith(s, m, [Item(PLAIN_SCALAR, VALID, w)], false)
  {
    WordNodeIs(w);
    hide Sound, PointersOk, DoneWith, Raw, Json;
  }

  lemma ColonThrows(t: string, q: Place, s: Scan, m: Mark, key: Inline, rest: string)
    requires Stands(s, []) && s.simpleKeyAllowed && m.pos + 1024 < q.mark.pos && q.scan == Done(s, m, key) && Live(q.scan)
    requires Rests(q.scan, q.mark.column) && Follows(t, q.mark.pos, ":" + rest) && rest != "" && (rest[0] == ' ' || rest[0] == '\n')
    ensures ScanOn(t, q) == Remainder(q, true)
  {
    hide Sound, PointersOk, ScanOn, AfterMany, PopIndentToHere, Rests, Stands, Done, ScanValue;
    RestsIsIdle(q.scan, q.mark.column);
    FollowsOn(t, q.mark.pos, ":", rest);
    assert t[q.mark.pos + 1] == t[q.mark.pos + 1..][0];
    OneRead(t, q.mark);
    ColonBranch(t, q.mark, q.scan);
    TooLong(s, m, key, q.mark);
    hide BranchAt;
    TokenThrows(t, q, Value, Past(q.mark, 1));
  }

  lemma TooLong(s: Scan, m: Mark, key: Inline, m2: Mark)
    requires Stands(s, []) && s.simpleKeyAllowed && m.pos + 1024 < m2.pos && Live(Done(s, m, key))
    ensures ScanValue(Done(s, m, key), m2).Threw?
  {
    DeepDecided(s, [], m, key, m2);
    DoneKeepsFlows(s, m, key);
    hide Done, VerifySimpleKey, InvalidateSimpleKey, Sound, PointersOk;
  }

  lemma FirstIsUndecided(s: Scan, m: Mark, key: Inline)
    requires Stands(s, []) && s.simpleKeyAllowed && s.all == []
    ensures var all := Done(s, m, key).all; all[..ScannerRuns.Decided(all)] == []
  {
    DeepDone(s, [], m, key);
    hide Done, Raw;
    assert Done(s, m, key).all[0] == Item(BLOCK_MAP_START, UNVERIFIED, "");
  }

  /** The state behind "k: v". */
  lemma PairStands(t: string, k: string, v: string) returns (q: Place)
    requires WordOk(k) && WordOk(v) && |k| <= 1024 && t == k + ": " + v
    ensures Stands(q.scan, [Level(0, MAP)]) && q.mark.pos == |t| && Sound(StartStream(INITIAL))
    ensures Alike(ScanOn(t, Place(StartStream(INITIAL), Mark(0, 0, 0))), ScanOn(t, q))
    ensures q.scan.all == [Sure(BLOCK_MAP_START), Sure(KEY), Item(PLAIN_SCALAR, VALID, k), Sure(VALUE), Item(PLAIN_SCALAR, VALID, v)]
  {
    hide Sound, PointersOk, ScanOn, EndsPlain, DoneWith, KeyedAs, Stands, StartStream, InlineOk, KeyText, WordOk, Rests;
    AtTheStart();
    TextFollows(t);
    Colon(k, v);
    WordNodeIs(k);
    var p := Place(StartStream(INITIAL), Mark(0, 0, 0));
    StandsLives(p.scan, []);
    KeyScans(t, p, [], WordNode(k), " " + v, true);
    var p1 := Place(KeyedAs(p.scan, 0, WordNode(k), true), Past(p.mark, |k| + 1));
    FollowsOn(t, p1.mark.pos, " ", v);
    StandsLives(p1.scan, Around([], 0, MAP, true));
    SpaceSkipped(t, p1);
    var p2 := Place(p1.scan, Past(p1.mark, 1));
    KeyedPair(k);
    RestsHere(p2.scan, [Level(0, MAP)], p2.mark.column);
    WordScans(t, p2, v, "");
    q := Place(DoneWith(p2.scan, p2.mark, [Item(PLAIN_SCALAR, VALID, v)], false), Past(p2.mark, |v|));
    ValueIsDone(p2.scan, p2.mark, v);
    ValueStands(p2.scan, q.scan, v);
  }

  lemma Colon(k: string, v: string)
    ensures k + ": " + v == k + (":" + (" " + v)) && v + "" == v && " " + v != ""
  {
  }

  lemma ValueStands(s: Scan, s': Scan, v: string)
    requires Stands(s, [Level(0, MAP)]) && Live(s') && s' == s.(all := s'.all, canBeJSONFlow := false)
    ensures Stands(s', [Level(0, MAP)])
  {
    StandsAlike(s, s', [Level(0, MAP)]);
    hide Sound;
  }

  lemma KeyedPair(k: string)
    ensures var s := KeyedAs(StartStream(INITIAL), 0, WordNode(k), true);
            && !s.simpleKeyAllowed && s.all == [Sure(BLOCK_MAP_START), Sure(KEY), Item(PLAIN_SCALAR, VALID, k), Sure(VALUE)]
    ensures Around([], 0, MAP, true) == [Level(0, MAP)]
  {
    WordNodeIs(k);
  }

  lemma ValueIsDone(s: Scan, m: Mark, v: string)
    requires Live(s) && !s.simpleKeyAllowed
    ensures DoneWith(s, m, [Item(PLAIN_SCALAR, VALID, v)], false) == s.(all := s.all + [Item(PLAIN_SCALAR, VALID, v)], canBeJSONFlow := false)
  {
    hide Sound, PointersOk;
  }

  lemma {:induction false} AllKept(items: seq<Item>)
    requires forall i :: 0 <= i < |items| ==> items[i].status == VALID
    ensures ScannerRuns.Kept(items) == items
    decreases |items|
  {
    if items != [] {
      AllKept(items[..|items| - 1]);
    }
  }

  /** A pair of words is scanned if and only if its key is not longer than 1024 characters, and then to these tokens. */
  lemma PairIsScanned(k: string, v: string)
    requires WordOk(k) && WordOk(v)
    ensures var scanned := ScannerText.TokensOf(k + ": " + v);
            && (!scanned.threw <==> |k| <= 1024)
            && scanned.items ==
               if |k| <= 1024 then
                 [Item(BLOCK_MAP_START, VALID, ""), Item(KEY, VALID, ""), Item(PLAIN_SCALAR, VALID, k), Item(VALUE, VALID, ""),
                  Item(PLAIN_SCALAR, VALID, v), Item(BLOCK_MAP_END, VALID, "")]
               else []
  {
    hide Sound, PointersOk, ScanOn, Stands, EndsPlain, ScannerRuns.Kept, ScannerRuns.Decided;
    var t := k + ": " + v;
    if |k| <= 1024 {
      var q := PairStands(t, k, v);
      assert [] + [Level(0, MAP)] == [Level(0, MAP)];
      TopIs(q.scan, [Level(0, MAP)]);
      StandsLives(q.scan, [Level(0, MAP)]);
      NoFlow(q.scan, [Level(0, MAP)]);
      Settles(t, q, -1);
      EndPushed(q.scan, [], Level(0, MAP));
      var r := Place(PopIndent(q.scan), q.mark);
      NothingIsLeft(t, r);
      AllKept(r.scan.all);
    } else {
      assert t == k + (":" + (" " + v));
      LongWordThrows(k, " " + v);
    }
  }
}
