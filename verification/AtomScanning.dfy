/** Scanning what is one token: a word, a quoted scalar, an alias, an anchor or a tag. */
module AtomScanning {
  import opened Exp
  import opened Streaming
  import opened Tokens
  import opened ScannerState
  import opened ScannerSteps
  import opened ScannerInvariant
  import opened ScannerSound
  import opened ScalarReading
  import opened ScannerBranches
  import opened ScannerText
  import opened QuotedScalars
  import opened FlowFolding
  import opened TokenText
  import opened PlainFolding
  import opened TextPrinting
  import opened TextSteps
  import TokenSpelling
  import ScalarLines
  import PlainTokens
  import TokenShapes

  // What is put in the queue

  function KeyItem(status: Status): Item {
    Item(KEY, status, "")
  }

  function Sure(kind: TokenType): Item {
    Item(kind, VALID, "")
  }

  /** The state behind these tokens of a node that began at m: it may have been remembered as a key. */
  function DoneWith(s: Scan, m: Mark, items: seq<Item>, json: bool): Scan
    requires s.indents != [] && PointersOk(s)
  {
    var s1 := InsertPotentialSimpleKey(s, m);
    s1.(all := s1.all + items, simpleKeyAllowed := false, canBeJSONFlow := json)
  }

  lemma DoneGoesOn(s: Scan, m: Mark, items: seq<Item>, json: bool)
    requires s.indents != [] && PointersOk(s)
    ensures var s' := DoneWith(s, m, items, json); s'.ended == s.ended && s'.flows == s.flows && s'.indents != []
  {
  }

  /** A node is remembered where it began. */
  lemma DoneTwice(s: Scan, m: Mark, a: seq<Item>, j: bool, m2: Mark, b: seq<Item>, json: bool)
    requires s.indents != [] && PointersOk(s) && PointersOk(DoneWith(s, m, a, j))
    ensures DoneWith(s, m, a, j).indents != [] && DoneWith(DoneWith(s, m, a, j), m2, b, json) == DoneWith(s, m, a + b, json)
  {
    DoneGoesOn(s, m, a, j);
    var s1 := InsertPotentialSimpleKey(s, m);
    assert s1.all + a + b == s1.all + (a + b);
    hide PointersOk;
  }

  /** No block ends in front of a node in this column. */
  ghost predicate Rests(s: Scan, column: nat) {
    && Live(s)
    && (InFlow(s) || (Top(s).status != Invalid && (Top(s).column < column || (Top(s).column == column && Top(s).kind != SEQ))))
  }

  lemma RestsIsIdle(s: Scan, column: nat)
    requires Rests(s, column)
    ensures Idle(s, column, false)
  {
    hide Sound, PointersOk, Top;
  }

  /** Nor behind the beginning of the node. */
  lemma DoneRests(s: Scan, m: Mark, items: seq<Item>, json: bool, column: nat)
    requires Rests(s, m.column) && Live(DoneWith(s, m, items, json)) && column > m.column
    ensures Rests(DoneWith(s, m, items, json), column)
  {
    hide Sound;
  }

  // Words

  /** A word ends in front of this. */
  predicate StopsWord(rest: string, inFlow: bool) {
    rest == "" || EndsPlain(rest, 0, inFlow)
  }

  lemma EndsAhead(t: string, i: nat, rest: string, inFlow: bool)
    requires Follows(t, i, rest)
    ensures EndsPlain(t, i, inFlow) <==> EndsPlain(rest, 0, inFlow)
  {
    forall k: nat
      ensures At(t, i + k) == At(rest, k)
    {
      if k < |rest| {
        assert t[i..][k] == t[i + k];
      }
    }
    assert At(t, i + 0) == At(rest, 0) && At(t, i + 1) == At(rest, 1) && At(t, i + 2) == At(rest, 2);
  }

  lemma WordGoesOn(t: string, i: nat, inFlow: bool)
    requires i < |t| && (IsWordChar(t[i]) || (t[i] == ' ' && i + 1 < |t| && (IsWordChar(t[i + 1]) || t[i + 1] == ' ')))
    ensures !EndsPlain(t, i, inFlow) && t[i] !in "\n\r\0"
  {
  }

  lemma WordBranch(t: string, m: Mark, inFlow: bool, canBeJSONFlow: bool)
    requires m.pos < |t| && IsWordChar(t[m.pos])
    ensures BranchAt(t, m, inFlow, canBeJSONFlow) == AtPlain && !Exp.BlockEntry(t, m.pos) && HasInk(t, m.pos)
    ensures BeginsLine(t, m, inFlow)
  {
    WordGoesOn(t, m.pos, inFlow);
    hide EndsPlain;
  }

  lemma WordEnds(t: string, i: nat, w: string, rest: string, inFlow: bool)
    requires WordOk(w) && Follows(t, i, w + rest) && (StopsWord(rest, inFlow) || rest[0] == '\n')
    ensures LineEnd(t, i, inFlow) == i + |w| <= |t| && t[i..i + |w|] == w && IsWordChar(t[i]) && NoNul(t, i, i + |w|)
    ensures StopsWord(rest, inFlow) ==> i + |w| == |t| || EndsPlain(t, i + |w|, inFlow)
    ensures Follows(t, i + |w|, rest)
  {
    hide EndsPlain;
    SameAhead(t, i, w, rest);
    FollowsOn(t, i, w, rest);
    EndsAhead(t, i + |w|, rest, inFlow);
    var end := i + |w|;
    assert end < |t| ==> t[end] == t[end..][0];
    forall k | i <= k < end
      ensures !EndsPlain(t, k, inFlow) && t[k] !in "\n\r\0"
    {
      assert t[i + (k - i)] == w[k - i];
      if k + 1 < end {
        assert t[i + (k + 1 - i)] == w[k + 1 - i];
      }
      WordGoesOn(t, k, inFlow);
    }
    assert t[i + 0] == w[0];
    PlainTokens.EndOfLine(t, i, end, inFlow);
  }

  lemma WordIsStripped(w: string)
    requires WordOk(w)
    ensures Stripped(w, " \t") == w
  {
  }

  lemma WordScans(t: string, p: Place, w: string, rest: string)
    requires Rests(p.scan, p.mark.column)
    requires WordOk(w) && Follows(t, p.mark.pos, w + rest) && StopsWord(rest, InFlow(p.scan))
    ensures var q := Place(DoneWith(p.scan, p.mark, [Item(PLAIN_SCALAR, VALID, w)], false), Past(p.mark, |w|));
            Live(q.scan) && ScanOn(t, p) == ScanOn(t, q) && Follows(t, q.mark.pos, rest)
  {
    hide Sound, PointersOk, EndsPlain, InsertPotentialSimpleKey, PopIndentToHere, ReadScalar, TopIndent, ScanOn, BranchAt,
         Stripped, LineEnd, NoNul;
    RestsIsIdle(p.scan, p.mark.column);
    var inFlow := InFlow(p.scan);
    var q := Place(DoneWith(p.scan, p.mark, [Item(PLAIN_SCALAR, VALID, w)], false), Past(p.mark, |w|));
    WordEnds(t, p.mark.pos, w, rest, inFlow);
    WordBranch(t, p.mark, inFlow, p.scan.canBeJSONFlow);
    PlainLineReads(t, p.mark, inFlow, TopIndent(p.scan));
    WordIsStripped(w);
    TokenHere(t, p, Plain(false, w), q);
    DoneGoesOn(p.scan, p.mark, [Item(PLAIN_SCALAR, VALID, w)], false);
    LivesOn(q.scan);
  }

  // Quoted scalars

  /** On one line. */
  lemma QuoteReads(t: string, m: Mark, q: Quote, w: seq<Piece>, rest: string)
    requires PiecesOk(w, q) && ClosesText([QuoteChar(q)] + rest, q) && Follows(t, m.pos, [QuoteChar(q)] + (Spelling(w) + ([QuoteChar(q)] + rest)))
    ensures QuotedAt(t, m) == ScalarEnds(Meaning(w), false, Past(m, |Spelling(w)| + 2))
    ensures m.pos < |t| && t[m.pos] in "'\"" && Follows(t, m.pos + |Spelling(w)| + 2, rest)
  {
    hide ScalarFrom, Spelling, Meaning, Spoken, PiecesOk, ClosesText, Chomped, Follows;
    QuotesAround(t, m, q, Spelling(w), rest);
    QuotedIsFlow(q);
    var p, inside, s := QuotedParams(q), After(t, m), Scalar("", -1, 0);
    LastLine(t, inside, p, s, Folding(false, false, 0, false), false, w, [QuoteChar(q)] + rest);
    NoBreaks(w, q);
    StaysRaw(s, w);
    SpokenIs(s, w);
    ScalarLines.RawTailIsKept(Spoken(s, w));
    assert "" + Meaning(w) == Meaning(w);
  }

  lemma QuotesAround(t: string, m: Mark, q: Quote, w: string, rest: string)
    requires Follows(t, m.pos, [QuoteChar(q)] + (w + ([QuoteChar(q)] + rest)))
    ensures m.pos + 1 < |t| && t[m.pos] == QuoteChar(q) && After(t, m) == Past(m, 1)
    ensures Follows(t, m.pos + 1, w + ([QuoteChar(q)] + rest)) && Follows(t, m.pos + |w| + 2, rest)
  {
    FollowsOn(t, m.pos, [QuoteChar(q)], w + ([QuoteChar(q)] + rest));
    FollowsOn(t, m.pos + 1, w, [QuoteChar(q)] + rest);
    FollowsOn(t, m.pos + 1 + |w|, [QuoteChar(q)], rest);
  }

  lemma NoBreaks(w: seq<Piece>, q: Quote)
    requires PiecesOk(w, q)
    ensures forall i :: 0 <= i < |w| ==> w[i].Char? ==> !IsBreak(w[i].c)
  {
    forall i | 0 <= i < |w|
      ensures w[i].Char? ==> !IsBreak(w[i].c)
    {
      assert PieceOk(w[i], q);
    }
  }

  lemma {:induction false} StaysRaw(s: Scalar, w: seq<Piece>)
    requires s.Ok() && ScalarLines.RawTail(s) && forall i :: 0 <= i < |w| ==> w[i].Char? ==> !IsBreak(w[i].c)
    ensures ScalarLines.RawTail(Spoken(s, w))
    decreases |w|
  {
    hide MeaningOf;
    if w != [] {
      StaysRaw(SpokenOne(s, w[0]), w[1..]);
    }
  }

  lemma QuoteScans(t: string, p: Place, q: Quote, w: seq<Piece>, rest: string)
    requires Rests(p.scan, p.mark.column) && PiecesOk(w, q) && ClosesText([QuoteChar(q)] + rest, q)
    requires Follows(t, p.mark.pos, [QuoteChar(q)] + (Spelling(w) + ([QuoteChar(q)] + rest)))
    ensures var end := Place(DoneWith(p.scan, p.mark, [Item(NON_PLAIN_SCALAR, VALID, Meaning(w))], true), Past(p.mark, |Spelling(w)| + 2));
            Live(end.scan) && ScanOn(t, p) == ScanOn(t, end) && Follows(t, end.mark.pos, rest)
  {
    hide Sound, PointersOk, InsertPotentialSimpleKey, PopIndentToHere, QuotedAt, ScanOn, PiecesOk, ClosesText, Spelling, Meaning, Follows;
    RestsIsIdle(p.scan, p.mark.column);
    QuoteReads(t, p.mark, q, w, rest);
    var item := Item(NON_PLAIN_SCALAR, VALID, Meaning(w));
    var end := Place(DoneWith(p.scan, p.mark, [item], true), Past(p.mark, |Spelling(w)| + 2));
    TokenShapes.QuoteBranch(t, p.mark, InFlow(p.scan), p.scan.canBeJSONFlow);
    QuoteIsInk(t, p.mark.pos);
    hide BranchAt;
    TokenHere(t, p, Action.Quoted(Meaning(w)), end);
    DoneGoesOn(p.scan, p.mark, [item], true);
    LivesOn(end.scan);
  }

  lemma QuoteIsInk(t: string, i: nat)
    requires i < |t| && t[i] in "'\"&*!"
    ensures HasInk(t, i) && !Exp.BlockEntry(t, i)
  {
  }

  // Aliases, anchors and tags

  function PropItem(p: Prop): Item {
    match p
    case AnchorProp(name) => Item(ANCHOR, VALID, name)
    case TagProp(NoTag) => Item(TAG, VALID, "")
    case TagProp(Tag(kind, value, suffix)) => Item(TAG, VALID, value, kind, if kind == NAMED_HANDLE then [suffix] else [])
  }

  /** What ends the name of an alias. */
  predicate StopsName(rest: string) {
    rest == "" || rest[0] in " \n,]}"
  }

  lemma NameIsCalled(t: string, m: Mark, s: Scan, c: char, name: string, rest: string)
    requires c in "&*" && Follows(t, m.pos, [c] + (name + rest)) && name != "" && NameOk(name) && StopsName(rest)
    ensures m.pos < |t| && t[m.pos] == c && Follows(t, m.pos + 1 + |name|, rest)
    ensures CalledFor(AtAnchor, t, m, s) == Called(Property(Item(if c == '*' then ALIAS else ANCHOR, VALID, name)), Past(m, 1 + |name|))
  {
    hide AnchorRun, EndsAnchor, Follows, NameOk, OneLineText;
    FollowsOn(t, m.pos, [c], name + rest);
    NameIsHere(t, m.pos + 1, name, rest);
    NameStays(c, name);
    PropertyStays(t, m, [c], name, rest);
  }

  lemma NameIsHere(t: string, i: nat, name: string, rest: string)
    requires Follows(t, i, name + rest) && NameOk(name) && StopsName(rest)
    ensures i + |name| <= |t| && t[i..i + |name|] == name && Follows(t, i + |name|, rest)
    ensures AnchorRun(t, i) == i + |name| && EndsAnchor(t, i + |name|)
  {
    hide AnchorRun, EndsAnchor;
    SameAhead(t, i, name, rest);
    FollowsOn(t, i, name, rest);
    var end := i + |name|;
    assert end < |t| ==> t[end] == t[end..][0];
    forall k | i <= k < end
      ensures t[k] !in "[]{}, \t\n\r"
    {
      assert t[i + (k - i)] == name[k - i];
    }
    TokenShapes.NameRuns(t, i, end);
  }

  lemma NameStays(c: char, name: string)
    requires c in "&*" && NameOk(name)
    ensures OneLineText([c] + name)
  {
  }

  /** No character of a name or a tag breaks the line. */
  lemma PropertyStays(t: string, m: Mark, w: string, v: string, rest: string)
    requires Follows(t, m.pos, w + (v + rest)) && OneLineText(w + v)
    ensures AfterMany(t, m, |w| + |v|) == Past(m, |w| + |v|)
  {
    assert w + (v + rest) == (w + v) + rest;
    EscapeStaysHere(t, m, w + v, rest);
  }

  lemma NameScans(t: string, p: Place, c: char, name: string, rest: string)
    requires Rests(p.scan, p.mark.column)
    requires c in "&*" && Follows(t, p.mark.pos, [c] + (name + rest)) && name != "" && NameOk(name) && StopsName(rest)
    ensures var q := Place(DoneWith(p.scan, p.mark, [Item(if c == '*' then ALIAS else ANCHOR, VALID, name)], false), Past(p.mark, 1 + |name|));
            Live(q.scan) && ScanOn(t, p) == ScanOn(t, q) && Follows(t, q.mark.pos, rest)
  {
    hide Sound, PointersOk, InsertPotentialSimpleKey, PopIndentToHere, ScanOn, CalledFor, BranchAt, NameOk, Follows;
    RestsIsIdle(p.scan, p.mark.column);
    NameIsCalled(t, p.mark, p.scan, c, name, rest);
    TokenShapes.AnchorBranch(t, p.mark, InFlow(p.scan), p.scan.canBeJSONFlow);
    QuoteIsInk(t, p.mark.pos);
    var item := Item(if c == '*' then ALIAS else ANCHOR, VALID, name);
    TokenHere(t, p, Property(item), Place(DoneWith(p.scan, p.mark, [item], false), Past(p.mark, 1 + |name|)));
    DoneGoesOn(p.scan, p.mark, [item], false);
    LivesOn(DoneWith(p.scan, p.mark, [item], false));
  }

  lemma PartsMove(t: string, i: nat, w: string, rest: string)
    requires Follows(t, i, w + rest)
    ensures i + |w| <= |t| && t[i..i + |w|] == w && Follows(t, i + |w|, rest)
    ensures forall k :: 0 <= k < |w| ==> t[i + k] == w[k]
    ensures forall k :: 0 <= k < |w| && TokenShapes.TagPart(w, k) ==> TokenShapes.TagPart(t, i + k)
    ensures forall k :: 0 <= k < |w| && TokenShapes.UriPart(w, k) ==> TokenShapes.UriPart(t, i + k)
  {
    SameAhead(t, i, w, rest);
    FollowsOn(t, i, w, rest);
    forall k | 0 <= k < |w| && TokenShapes.TagPart(w, k)
      ensures TokenShapes.TagPart(t, i + k)
    {
      assert t[i + k] == w[k];
      assert k + 1 < |w| ==> t[i + (k + 1)] == w[k + 1];
      assert k + 2 < |w| ==> t[i + (k + 2)] == w[k + 2];
    }
  }

  /** A run of tag characters in front of a space. */
  lemma SuffixIs(t: string, i: nat, w: string, rest: string)
    requires Follows(t, i, w + (" " + rest)) && forall k :: 0 <= k < |w| ==> TokenShapes.TagPart(w, k)
    ensures TokenShapes.TagParts(t, i, i + |w|) && i + |w| < |t| && t[i + |w|] == ' ' && t[i..i + |w|] == w
    ensures forall k :: i <= k < i + |w| ==> t[k] != '!' && t[k] != '<'
  {
    PartsMove(t, i, w, " " + rest);
    FollowsOn(t, i + |w|, " ", rest);
    forall k | i <= k < i + |w|
      ensures TokenShapes.TagPart(t, k) && t[k] != '!' && t[k] != '<'
    {
      assert TokenShapes.TagPart(w, k - i);
    }
  }

  lemma VerbatimMatches(t: string, i: nat, value: string, rest: string)
    requires Follows(t, i, "<" + (value + (">" + rest))) && forall k :: 0 <= k < |value| ==> TokenShapes.UriPart(value, k)
    ensures TokenShapes.IsTag(t, i, Item(TAG, VALID, value, VERBATIM), i + |value| + 2) && i <= |t|
  {
    FollowsOn(t, i, "<", value + (">" + rest));
    PartsMove(t, i + 1, value, ">" + rest);
    FollowsOn(t, i + 1 + |value|, ">", rest);
    hide TokenShapes.UriPart;
    forall k | i + 1 <= k < i + 1 + |value|
      ensures TokenShapes.UriPart(t, k)
    {
      assert TokenShapes.UriPart(value, k - (i + 1));
    }
  }

  lemma PrimaryMatches(t: string, i: nat, value: string, rest: string)
    requires Follows(t, i, value + (" " + rest)) && forall k :: 0 <= k < |value| ==> TokenShapes.TagPart(value, k)
    ensures TokenShapes.IsTag(t, i, Item(TAG, VALID, value, if value == "" then NON_SPECIFIC else PRIMARY_HANDLE), i + |value|) && i <= |t|
  {
    SuffixIs(t, i, value, rest);
    hide TokenShapes.TagPart;
    assert forall h: nat :: !TokenShapes.IsHandle(t, i, h);
  }

  lemma NamedMatches(t: string, i: nat, value: string, suffix: string, rest: string)
    requires Follows(t, i, value + ("!" + (suffix + (" " + rest)))) && SuffixOk(suffix)
    requires forall k :: 0 <= k < |value| ==> TokenShapes.IsWordChar(value[k])
    ensures TokenShapes.IsTag(t, i, Item(TAG, VALID, value, NAMED_HANDLE, [suffix]), i + |value| + 1 + |suffix|) && i <= |t|
  {
    var h := i + |value|;
    PartsMove(t, i, value, "!" + (suffix + (" " + rest)));
    FollowsOn(t, h, "!", suffix + (" " + rest));
    SuffixIs(t, h + 1, suffix, rest);
    hide TokenShapes.TagPart;
    forall k | i <= k < h
      ensures TokenShapes.IsWordChar(t[k])
    {
      assert t[i + (k - i)] == value[k - i];
    }
    assert TokenShapes.IsHandle(t, i, h);
    assert TokenShapes.HasHandle(t, i);
  }

  /** What is written behind the exclamation mark of a tag. */
  function BehindMark(tag: TokenSpelling.TagSpelling): string {
    match tag
    case NoTag => ""
    case Tag(kind, value, suffix) =>
      match kind
      case VERBATIM => "<" + (value + ">")
      case NAMED_HANDLE => value + ("!" + suffix)
      case _ => value
  }

  lemma TagTextIs(tag: TokenSpelling.TagSpelling)
    requires tag.Tag? && TagOk(tag)
    ensures PropText(TagProp(tag)) == "!" + BehindMark(tag)
  {
    assert tag.kind == VERBATIM ==> "!<" + tag.value + ">" == "!" + ("<" + (tag.value + ">"));
    assert tag.kind == NAMED_HANDLE ==> "!" + tag.value + "!" + tag.suffix == "!" + (tag.value + ("!" + tag.suffix));
    hide TokenShapes.TagPart, TokenShapes.UriPart;
  }

  predicate OneLineText(w: string) {
    forall k :: 0 <= k < |w| ==> !IsBreak(w[k])
  }

  lemma PartsStay(w: string)
    requires forall k :: 0 <= k < |w| ==> TokenShapes.UriPart(w, k)
    ensures OneLineText(w)
  {
    forall k | 0 <= k < |w|
      ensures !IsBreak(w[k])
    {
      assert TokenShapes.UriPart(w, k);
    }
  }

  lemma BothStay(a: string, b: string)
    requires OneLineText(a) && OneLineText(b)
    ensures OneLineText(a + b)
  {
  }

  lemma TagStays(tag: TokenSpelling.TagSpelling)
    requires tag.Tag? && TagOk(tag)
    ensures OneLineText("!" + BehindMark(tag))
  {
    var value, suffix := tag.value, tag.suffix;
    assert forall k :: 0 <= k < |value| ==> TokenShapes.UriPart(value, k);
    PartsStay(value);
    assert OneLineText("!") && OneLineText("<") && OneLineText(">");
    match tag.kind
    case VERBATIM =>
      BothStay(value, ">");
      BothStay("<", value + ">");
      BothStay("!", "<" + (value + ">"));
    case NAMED_HANDLE =>
      assert forall k :: 0 <= k < |suffix| ==> TokenShapes.UriPart(suffix, k);
      PartsStay(suffix);
      BothStay("!", suffix);
      BothStay(value, "!" + suffix);
      BothStay("!", value + ("!" + suffix));
    case _ =>
      BothStay("!", value);
  }

  lemma TagMatches(t: string, i: nat, tag: TokenSpelling.TagSpelling, rest: string)
    requires tag.Tag? && TagOk(tag) && Follows(t, i, BehindMark(tag) + (" " + rest))
    ensures TokenShapes.IsTag(t, i, PropItem(TagProp(tag)), i + |BehindMark(tag)|) && i <= |t|
  {
    var value, suffix := tag.value, tag.suffix;
    hide TokenShapes.IsTag;
    match tag.kind
    case VERBATIM =>
      assert BehindMark(tag) + (" " + rest) == "<" + (value + (">" + (" " + rest)));
      VerbatimMatches(t, i, value, " " + rest);
    case NAMED_HANDLE =>
      assert BehindMark(tag) + (" " + rest) == value + ("!" + (suffix + (" " + rest)));
      NamedMatches(t, i, value, suffix, rest);
    case _ =>
      PrimaryMatches(t, i, value, rest);
  }

  lemma TagScans(t: string, p: Place, tag: TokenSpelling.TagSpelling, rest: string)
    requires Rests(p.scan, p.mark.column) && tag.Tag? && TagOk(tag)
    requires Follows(t, p.mark.pos, "!" + (BehindMark(tag) + (" " + rest)))
    ensures var q := Place(DoneWith(p.scan, p.mark, [PropItem(TagProp(tag))], false), Past(p.mark, 1 + |BehindMark(tag)|));
            Live(q.scan) && ScanOn(t, p) == ScanOn(t, q) && Follows(t, q.mark.pos, " " + rest)
  {
    hide Sound, PointersOk, InsertPotentialSimpleKey, PopIndentToHere, ScanOn, BranchAt, TagOk, Follows, BehindMark, TagAt,
         TokenShapes.IsTag, OneLineText;
    RestsIsIdle(p.scan, p.mark.column);
    var w, i, item := BehindMark(tag), p.mark.pos + 1, PropItem(TagProp(tag));
    FollowsOn(t, p.mark.pos, "!", w + (" " + rest));
    FollowsOn(t, i, w, " " + rest);
    TagStays(tag);
    PropertyStays(t, p.mark, "!", w, " " + rest);
    TagMatches(t, i, tag, rest);
    TokenShapes.TagIs(t, i, item, i + |w|);
    TokenShapes.AnchorBranch(t, p.mark, InFlow(p.scan), p.scan.canBeJSONFlow);
    QuoteIsInk(t, p.mark.pos);
    TokenHere(t, p, Property(item), Place(DoneWith(p.scan, p.mark, [item], false), Past(p.mark, 1 + |w|)));
    DoneGoesOn(p.scan, p.mark, [item], false);
    LivesOn(DoneWith(p.scan, p.mark, [item], false));
  }
}
