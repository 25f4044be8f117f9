/** Scanning block collections that are printed line by line. */
module BlockScanning {
  import opened Exp
  import opened Streaming
  import opened Tokens
  import opened ScannerState
  import opened ScannerSteps
  import opened ScannerInvariant
  import opened ScannerSound
  import opened ScannerRuns
  import opened ScannerBranches
  import opened ScannerText
  import opened ScalarReading
  import opened FlowFolding
  import opened TokenText
  import opened PlainFolding
  import opened TextPrinting
  import opened TextSteps
  import opened AtomScanning
  import opened InlineScanning
  import TokenSpelling
  import TextLoading
  import Parsing

  // The tokens that count

  function Shown(items: seq<Item>): seq<Parsing.Token> {
    TextLoading.TokensOf(ScannerRuns.Kept(items))
  }

  lemma {:induction false} KeptSum(a: seq<Item>, b: seq<Item>)
    ensures ScannerRuns.Kept(a + b) == ScannerRuns.Kept(a) + ScannerRuns.Kept(b)
    decreases |b|
  {
    if b == [] {
      assert a + b == a;
    } else {
      var last := |b| - 1;
      assert (a + b)[..|a + b| - 1] == a + b[..last];
      KeptSum(a, b[..last]);
    }
  }

  lemma ShownSum(a: seq<Item>, b: seq<Item>)
    ensures Shown(a + b) == Shown(a) + Shown(b)
  {
    KeptSum(a, b);
    hide ScannerRuns.Kept;
  }

  lemma ShownOne(i: Item)
    ensures Shown([i]) == if i.status == INVALID then [] else [TextLoading.TokenOf(i)]
  {
    assert [i][..0] == [];
    assert ScannerRuns.Kept([]) == [];
    assert ScannerRuns.Kept([i]) == if i.status == INVALID then [] else [i];
  }

  lemma ShownMark(kind: TokenType, status: Status)
    ensures Shown([Item(kind, status, "")]) == if status == INVALID then [] else [TokenSpelling.Tok(kind)]
  {
    ShownOne(Item(kind, status, ""));
    hide Shown;
  }

  lemma ShownThree(a: seq<Item>, b: seq<Item>, c: seq<Item>)
    ensures Shown(a + b + c) == Shown(a) + Shown(b) + Shown(c)
  {
    ShownSum(a + b, c);
    ShownSum(a, b);
    hide Shown;
  }

  /** A node without properties. */
  lemma BareTokens(c: TokenSpelling.Content)
    ensures TokenSpelling.NodeTokens(TokenSpelling.Node.Node(NO_PROPS, c)) == TokenSpelling.ContentTokens(c)
  {
    hide TokenSpelling.ContentTokens;
    assert TokenSpelling.PropTokens(NO_PROPS) == [];
    assert [] + TokenSpelling.ContentTokens(c) == TokenSpelling.ContentTokens(c);
  }

  lemma {:induction false} RawIsShown(n: Inline)
    requires InlineOk(n)
    ensures Shown(Raw(n)) == TokenSpelling.NodeTokens(InlineNode(n))
    decreases n, 1
  {
    hide Shown, RawBody, BodyContent, PropItems, PropList, TokenSpelling.ContentTokens, TokenSpelling.PropTokens;
    match n
    case Ref(name) => ShownOne(Item(ALIAS, VALID, name));
    case Inline(props, body) =>
      PropsAreShown(props);
      BodyIsShown(body);
      ShownSum(PropItems(PropList(props)), RawBody(body));
  }

  lemma PropIsShown(p: Prop)
    requires p.TagProp? ==> p.tag.Tag? && (p.tag.kind != NAMED_HANDLE ==> p.tag.suffix == "")
    ensures Shown([PropItem(p)]) ==
            match p
            case AnchorProp(name) => [Parsing.Token(ANCHOR, name, VERBATIM, "")]
            case TagProp(tag) => TokenSpelling.TagTokens(tag)
  {
    ShownOne(PropItem(p));
    hide Shown;
  }

  lemma PropsAreShown(props: TokenSpelling.Props)
    requires TagOk(props.tag)
    ensures Shown(PropItems(PropList(props))) == TokenSpelling.PropTokens(props)
  {
    hide Shown, PropItem, TokenSpelling.TagTokens;
    var anchor, tag := AnchorProp(props.anchor), TagProp(props.tag);
    ShownNothing();
    OneProp(anchor);
    OneProp(tag);
    if props.anchor != "" {
      PropIsShown(anchor);
    }
    if props.tag.Tag? {
      PropIsShown(tag);
    }
    TwoProps(anchor, tag);
    TwoProps(tag, anchor);
    ShownSum([PropItem(anchor)], [PropItem(tag)]);
    ShownSum([PropItem(tag)], [PropItem(anchor)]);
    NoTagTokens();
  }

  lemma NoTagTokens()
    ensures TokenSpelling.TagTokens(TokenSpelling.NoTag) == []
  {
  }

  lemma TwoProps(a: Prop, b: Prop)
    ensures PropItems([a] + [b]) == [PropItem(a)] + [PropItem(b)]
    ensures PropItems([] + [a]) == PropItems([a] + []) == [PropItem(a)] && PropItems([] + []) == []
  {
    hide PropItem;
    assert ([a] + [b])[1..] == [b] && [a] + [] == [a] == [] + [a];
    OneProp(a);
    OneProp(b);
  }

  lemma {:induction false} BodyIsShown(b: Body)
    requires CanBeWritten(b)
    ensures Shown(RawBody(b)) == TokenSpelling.ContentTokens(BodyContent(b))
    decreases b, 1
  {
    hide Shown, RawEntries, ItemsOf, PairsOf, TokenSpelling.FlowEntryTokens, TokenSpelling.FlowPairTokens;
    match b
    case Word(text) => ShownOne(Item(PLAIN_SCALAR, VALID, text));
    case InQuotes(_, pieces) => ShownOne(Item(NON_PLAIN_SCALAR, VALID, FlowFolding.Meaning(pieces)));
    case Bracketed(isMap, entries) =>
      ShownSum([Sure(InlineScanning.StartOf(isMap))], RawEntries(isMap, entries) + [Sure(InlineScanning.EndOf(isMap))]);
      ShownSum(RawEntries(isMap, entries), [Sure(InlineScanning.EndOf(isMap))]);
      ShownMark(InlineScanning.StartOf(isMap), VALID);
      ShownMark(InlineScanning.EndOf(isMap), VALID);
      EntriesAreShown(isMap, entries);
      var inside := Shown(RawEntries(isMap, entries));
      AroundIs([TokenSpelling.Tok(InlineScanning.StartOf(isMap))], inside, [TokenSpelling.Tok(InlineScanning.EndOf(isMap))]);
  }

  lemma AroundIs(a: seq<Parsing.Token>, b: seq<Parsing.Token>, c: seq<Parsing.Token>)
    ensures a + (b + c) == a + b + c
  {
  }

  lemma ShownNothing()
    ensures Shown([]) == [] && forall s: seq<Parsing.Token> :: [] + s == s && s + [] == s
  {
  }

  lemma {:induction false} EntriesAreShown(isMap: bool, es: seq<Entry>)
    requires forall i :: 0 <= i < |es| ==> EntryOk(isMap, es[i])
    ensures Shown(RawEntries(isMap, es)) ==
            if isMap then TokenSpelling.FlowPairTokens(PairsOf(es)) else TokenSpelling.FlowEntryTokens(ItemsOf(es))
    decreases es, 0
  {
    hide Shown, RawEntry, PairOf, ItemOf, EntryOk, TokenSpelling.NodeTokens, TokenSpelling.PairTokens;
    ShownNothing();
    if es != [] {
      EntryIsShown(isMap, es[0]);
      EntriesAreShown(isMap, es[1..]);
      ShownMark(FLOW_ENTRY, VALID);
      var more := if |es| == 1 then [] else [Sure(FLOW_ENTRY)] + RawEntries(isMap, es[1..]);
      ShownSum(RawEntry(isMap, es[0]), more);
      ShownSum([Sure(FLOW_ENTRY)], RawEntries(isMap, es[1..]));
      assert PairsOf(es)[1..] == PairsOf(es[1..]) && ItemsOf(es)[1..] == ItemsOf(es[1..]);
    }
  }

  lemma {:induction false} EntryIsShown(isMap: bool, e: Entry)
    requires EntryOk(isMap, e)
    ensures Shown(RawEntry(isMap, e)) == if isMap then TokenSpelling.PairTokens(PairOf(e)) else TokenSpelling.NodeTokens(ItemOf(e))
    decreases e, 1
  {
    hide Shown, Raw, InlineNode, TokenSpelling.NodeTokens;
    ShownMark(KEY, VALID);
    ShownMark(KEY, INVALID);
    ShownMark(VALUE, VALID);
    ShownNothing();
    var key, value := [TokenSpelling.Tok(KEY)], [TokenSpelling.Tok(VALUE)];
    match e
    case Lone(node) =>
      RawIsShown(node);
      ShownThree([KeyItem(VALID)], Raw(node), [Sure(VALUE)]);
      ShownSum([KeyItem(INVALID)], Raw(node));
      BareTokens(TokenSpelling.Nothing);
      NothingTokens();
      AroundIs(key, TokenSpelling.NodeTokens(InlineNode(node)), value);
    case Both(k, v) =>
      RawIsShown(k);
      RawIsShown(v);
      ShownThree([KeyItem(VALID)] + Raw(k), [Sure(VALUE)], Raw(v));
      ShownSum([KeyItem(VALID)], Raw(k));
      CompactTokens(PairOf(e));
      assert ItemOf(e) == TokenSpelling.Node.Node(NO_PROPS, TokenSpelling.Compact(PairOf(e)));
      BothTokens(key, TokenSpelling.NodeTokens(InlineNode(k)), value, TokenSpelling.NodeTokens(InlineNode(v)));
  }

  lemma CompactTokens(p: TokenSpelling.Pair)
    ensures TokenSpelling.NodeTokens(TokenSpelling.Node.Node(NO_PROPS, TokenSpelling.Compact(p))) == TokenSpelling.PairTokens(p)
  {
    BareTokens(TokenSpelling.Compact(p));
    hide TokenSpelling.PairTokens;
  }

  lemma NothingTokens()
    ensures TokenSpelling.ContentTokens(TokenSpelling.Nothing) == []
  {
  }

  lemma BothTokens(a: seq<Parsing.Token>, b: seq<Parsing.Token>, c: seq<Parsing.Token>, d: seq<Parsing.Token>)
    ensures a + b + c + d == a + b + (c + d)
  {
  }

  // Between tokens of a block

  datatype Level = Level(column: nat, kind: IndentType)

  function TopColumn(stack: seq<Level>): int {
    if stack == [] then -1 else stack[|stack| - 1].column
  }

  /** In these blocks, outside all flows, with nothing undecided. */
  ghost predicate Stands(s: Scan, stack: seq<Level>) {
    && Live(s) && s.flows == [] && s.simpleKeys == [] && |s.indents| == |stack| + 1
    && forall i :: 0 <= i < |stack| ==> IsLevel(s.refs[s.indents[i + 1]], stack[i])
  }

  predicate IsLevel(indent: Indent, level: Level) {
    indent.column == level.column && indent.kind == level.kind && indent.status == Valid
  }

  lemma TopIs(s: Scan, stack: seq<Level>)
    requires Stands(s, stack)
    ensures Top(s).column == TopColumn(stack) == TopIndent(s) && Top(s).status == Valid
    ensures Top(s).kind == if stack == [] then IndentType.NONE else stack[|stack| - 1].kind
  {
  }

  lemma IdleHere(s: Scan, stack: seq<Level>, column: nat, atEntry: bool)
    requires Stands(s, stack)
    requires TopColumn(stack) < column || (TopColumn(stack) == column && (atEntry || stack[|stack| - 1].kind == MAP))
    ensures Idle(s, column, atEntry)
  {
    TopIs(s, stack);
    hide Sound, PointersOk, Top;
  }

  lemma RestsHere(s: Scan, stack: seq<Level>, column: nat)
    requires Stands(s, stack)
    requires TopColumn(stack) < column || (TopColumn(stack) == column && stack[|stack| - 1].kind == MAP)
    ensures Rests(s, column)
  {
    TopIs(s, stack);
    hide Sound, PointersOk, Top;
  }

  lemma {:induction false} SpacesSkipped(t: string, p: Place, n: nat, rest: string)
    requires Live(p.scan) && Follows(t, p.mark.pos, SpaceText(n) + rest)
    ensures Alike(ScanOn(t, p), ScanOn(t, Place(p.scan, Past(p.mark, n)))) && Follows(t, p.mark.pos + n, rest)
    decreases n
  {
    hide Live, ScanOn, PointersOk, Sound;
    if n == 0 {
      assert SpaceText(0) + rest == rest && Past(p.mark, 0) == p.mark;
    } else {
      assert SpaceText(n) + rest == " " + (SpaceText(n - 1) + rest);
      FollowsOn(t, p.mark.pos, " ", SpaceText(n - 1) + rest);
      SpaceSkipped(t, p);
      SpacesSkipped(t, Place(p.scan, Past(p.mark, 1)), n - 1, rest);
    }
  }

  // Leaving a block

  lemma SameToken(t: string, p: Place, q: Place)
    requires Live(p.scan) && Live(q.scan) && TokenFrom(t, p) == TokenFrom(t, q)
    ensures Alike(ScanOn(t, p), ScanOn(t, q))
  {
    hide TokenFrom, Sound, PointersOk;
  }

  /** What comes next: a token in this column, or with -1 the end of the text. */
  predicate Ahead(t: string, m: Mark, column: int) {
    if column >= 0 then m.column == column && HasInk(t, m.pos) else m.pos >= |t|
  }

  lemma PopGoesOn(s: Scan)
    requires Live(s) && !InFlow(s) && Top(s).kind != IndentType.NONE
    ensures Live(PopIndent(s)) && !InFlow(PopIndent(s))
  {
    PopIndentSound(s);
    hide Sound, PopIndent;
    LivesOn(PopIndent(s));
  }

  /** A block lies deeper, or its dashes stand here and no further one does. */
  predicate IsOver(indent: Indent, column: int, atEntry: bool) {
    indent.column > column || (indent.column == column && indent.kind == SEQ && !atEntry)
  }

  lemma PopsFirst(s: Scan, column: nat, atEntry: bool)
    requires Live(s) && !InFlow(s) && IsOver(Top(s), column, atEntry) && Top(s).kind != IndentType.NONE
    ensures Live(PopIndent(s)) && PopIndentToHere(s, column, atEntry) == PopIndentToHere(PopIndent(s), column, atEntry)
  {
    PopGoesOn(s);
    hide Sound, PopIndent, PopInvalid, PointersOk;
  }

  lemma {:induction false} NoneAnyway(s: Scan, column: nat, atEntry: bool)
    requires Live(s) && !InFlow(s)
    ensures PointersOk(PopToColumn(s, column, atEntry)) && PopToNone(PopToColumn(s, column, atEntry)) == PopToNone(s)
    ensures Sound(PopToColumn(s, column, atEntry)) && Live(PopToColumn(s, column, atEntry)) && !InFlow(PopToColumn(s, column, atEntry))
    decreases |s.indents|
  {
    hide PopIndent, PointersOk, Sound;
    SoundTopIs(s);
    if Top(s).column >= column && !(Top(s).column == column && !(Top(s).kind == SEQ && !atEntry)) {
      PopGoesOn(s);
      PopIndentKeepsPointers(s);
      NoneAnyway(PopIndent(s), column, atEntry);
    }
  }

  lemma SoundTopIs(s: Scan)
    requires Live(s)
    ensures Top(s).kind == IndentType.NONE <==> |s.indents| == 1
    ensures (Top(s).kind == IndentType.NONE ==> Top(s).column == -1 && Top(s).status == Valid)
  {
    if |s.indents| > 1 {
      assert s.indents[|s.indents| - 1] != 0;
    }
  }

  lemma {:induction false} InvalidAnyway(s: Scan)
    requires Live(s) && !InFlow(s)
    ensures PointersOk(PopInvalid(s)) && PopToNone(PopInvalid(s)) == PopToNone(s) && !InFlow(PopInvalid(s))
    decreases |s.indents|
  {
    hide PopIndent, PointersOk, Sound;
    SoundTopIs(s);
    if Top(s).status == Invalid {
      PopGoesOn(s);
      PopIndentKeepsPointers(s);
      InvalidAnyway(PopIndent(s));
    }
  }

  /** At the end of the text all blocks are left, wherever the last line ended. */
  lemma EndAnyway(s: Scan, column: nat, atEntry: bool)
    requires Live(s) && !InFlow(s)
    ensures PointersOk(PopIndentToHere(s, column, atEntry)) && EndStream(PopIndentToHere(s, column, atEntry)) == EndStream(s)
  {
    NoneAnyway(s, column, atEntry);
    InvalidAnyway(PopToColumn(s, column, atEntry));
    hide PopToColumn, PopInvalid, PopToNone, PointersOk, Sound;
  }

  lemma EndToken(t: string, p: Place)
    requires Live(p.scan) && !InFlow(p.scan) && p.mark.pos >= |t|
    ensures TokenFrom(t, p) == Leads(Place(EndStream(p.scan), p.mark.(column := 0)))
  {
    assert Gap(t, p) == p;
    EndAnyway(p.scan, p.mark.column, Exp.BlockEntry(t, p.mark.pos));
    hide Gap, EndStream, PopIndentToHere, PointersOk, Sound;
  }

  lemma EndPopsFirst(s: Scan)
    requires Live(s) && !InFlow(s) && Top(s).kind != IndentType.NONE
    ensures Live(PopIndent(s)) && !InFlow(PopIndent(s)) && EndStream(s) == EndStream(PopIndent(s))
  {
    PopGoesOn(s);
    hide Sound, PopIndent, PointersOk;
  }

  /** The innermost block is left first. */
  lemma Settles(t: string, p: Place, column: int)
    requires Live(p.scan) && !InFlow(p.scan) && IsOver(Top(p.scan), column, Exp.BlockEntry(t, p.mark.pos)) && Top(p.scan).kind != IndentType.NONE
    requires Ahead(t, p.mark, column)
    ensures Live(PopIndent(p.scan)) && Alike(ScanOn(t, p), ScanOn(t, Place(PopIndent(p.scan), p.mark)))
  {
    hide Sound, PopIndent, PointersOk, EndStream, ScanOn, PopIndentToHere, Gap, CalledFor, Obey;
    PopGoesOn(p.scan);
    var q := Place(PopIndent(p.scan), p.mark);
    if column >= 0 {
      PopsFirst(p.scan, column, Exp.BlockEntry(t, p.mark.pos));
      NoGap(t, p);
      NoGap(t, q);
      assert TokenFrom(t, p) == TokenFrom(t, q);
    } else {
      EndToken(t, p);
      EndToken(t, q);
      EndPopsFirst(p.scan);
    }
    SameToken(t, p, q);
  }

  // Keys in a block

  /** With the tokens of a key deeper than the innermost block, and its indent. */
  function DeepKey(s: Scan, column: nat, n: Inline, status: Status, indent: IndentStatus): Scan {
    s.(all := s.all + [Item(BLOCK_MAP_START, status, "")] + [KeyItem(status)] + Raw(n),
       refs := s.refs + [Indent(column, MAP, indent, To(|s.all|))], indents := s.indents + [|s.refs|],
       simpleKeyAllowed := false, canBeJSONFlow := Json(n))
  }

  function DeepPending(s: Scan, m: Mark): SimpleKey {
    SimpleKey(m, 0, To(|s.refs|), To(|s.all|), |s.all| + 1)
  }

  lemma DeepDone(s: Scan, stack: seq<Level>, m: Mark, n: Inline)
    requires Stands(s, stack) && s.simpleKeyAllowed && m.column > TopColumn(stack)
    ensures Done(s, m, n) == DeepKey(s, m.column, n, UNVERIFIED, Unknown).(simpleKeys := [DeepPending(s, m)])
  {
    TopIs(s, stack);
    hide Sound, PointersOk, Raw, Top;
    assert s.all + [Item(BLOCK_MAP_START, UNVERIFIED, "")] + [KeyItem(UNVERIFIED)] + Raw(n) ==
           s.all + [Item(BLOCK_MAP_START, UNVERIFIED, "")] + ([KeyItem(UNVERIFIED)]) + Raw(n);
    assert [] + [DeepPending(s, m)] == [DeepPending(s, m)];
  }

  lemma BothDecided(before: seq<Item>, after: seq<Item>, status: Status)
    ensures var all := before + [Item(BLOCK_MAP_START, UNVERIFIED, "")] + [KeyItem(UNVERIFIED)] + after;
            && |all| == |before| + 2 + |after|
            && MarkToken(MarkToken(all, To(|before|), status), To(|before| + 1), status) ==
               before + [Item(BLOCK_MAP_START, status, "")] + [KeyItem(status)] + after
  {
    var all := before + [Item(BLOCK_MAP_START, UNVERIFIED, "")] + [KeyItem(UNVERIFIED)] + after;
    assert all[|before|] == Item(BLOCK_MAP_START, UNVERIFIED, "") && all[|before| + 1] == KeyItem(UNVERIFIED);
    assert all[|before| := Item(BLOCK_MAP_START, status, "")][|before| + 1 := KeyItem(status)] ==
           before + [Item(BLOCK_MAP_START, status, "")] + [KeyItem(status)] + after;
  }

  lemma IndentDecided(refs: seq<Indent>, indent: Indent, status: IndentStatus)
    ensures MarkIndent(refs + [indent], To(|refs|), status) == refs + [indent.(status := status)]
  {
  }

  /** The key is confirmed or refused, with its block and its indent. */
  lemma DeepResolved(s: Scan, stack: seq<Level>, m: Mark, n: Inline, valid: bool)
    requires Stands(s, stack) && s.simpleKeyAllowed && m.column > TopColumn(stack)
    ensures var s1 := Done(s, m, n);
            && KeyPointsInside(s1, DeepPending(s, m))
            && Resolve(s1, DeepPending(s, m), valid).(simpleKeys := []) ==
               DeepKey(s, m.column, n, if valid then VALID else INVALID, if valid then Valid else Invalid)
  {
    DeepDone(s, stack, m, n);
    BothDecided(s.all, Raw(n), if valid then VALID else INVALID);
    IndentDecided(s.refs, Indent(m.column, MAP, Unknown, To(|s.all|)), if valid then Valid else Invalid);
    hide Done, Raw, MarkToken, MarkIndent, Sound, PointersOk;
  }

  lemma DeepDecided(s: Scan, stack: seq<Level>, m: Mark, n: Inline, m2: Mark)
    requires Stands(s, stack) && s.simpleKeyAllowed && m.column > TopColumn(stack) && PointersOk(Done(s, m, n))
    ensures InvalidateSimpleKey(Done(s, m, n)) == DeepKey(s, m.column, n, INVALID, Invalid)
    ensures var valid := m2.line == m.line && m2.pos - m.pos <= 1024;
            VerifySimpleKey(Done(s, m, n), m2) ==
            (DeepKey(s, m.column, n, if valid then VALID else INVALID, if valid then Valid else Invalid), valid)
  {
    DeepDone(s, stack, m, n);
    DeepResolved(s, stack, m, n, true);
    DeepResolved(s, stack, m, n, false);
    hide Done, Raw, Resolve, Sound, PointersOk, DeepKey;
    assert Done(s, m, n).simpleKeys == [DeepPending(s, m)] && [DeepPending(s, m)][..0] == [];
    assert Done(s, m, n).flows == [] by { DoneKeepsFlows(s, m, n); }
  }

  /** A key of a block that has begun. */
  lemma NextKeyDone(s: Scan, stack: seq<Level>, m: Mark, n: Inline)
    requires Stands(s, stack) && s.simpleKeyAllowed && stack != [] && stack[|stack| - 1] == Level(m.column, MAP)
    ensures Done(s, m, n) ==
            s.(all := s.all + [KeyItem(UNVERIFIED)] + Raw(n), simpleKeys := [SimpleKey(m, 0, Nil, Nil, |s.all|)],
               simpleKeyAllowed := false, canBeJSONFlow := Json(n))
  {
    TopIs(s, stack);
    hide Sound, PointersOk, Raw, Top;
    assert [] + [SimpleKey(m, 0, Nil, Nil, |s.all|)] == [SimpleKey(m, 0, Nil, Nil, |s.all|)];
  }

  lemma NextKeyConfirmed(s: Scan, stack: seq<Level>, m: Mark, n: Inline, m2: Mark)
    requires Stands(s, stack) && s.simpleKeyAllowed && stack != [] && stack[|stack| - 1] == Level(m.column, MAP) && PointersOk(Done(s, m, n))
    requires m2.line == m.line && m2.pos - m.pos <= 1024
    ensures VerifySimpleKey(Done(s, m, n), m2) ==
            (s.(all := s.all + [KeyItem(VALID)] + Raw(n), simpleKeyAllowed := false, canBeJSONFlow := Json(n)), true)
  {
    NextKeyDone(s, stack, m, n);
    InlineScanning.Decided(s.all, Raw(n), VALID);
    hide Done, Raw, Sound, PointersOk;
    assert [SimpleKey(m, 0, Nil, Nil, |s.all|)][..0] == [];
  }

  /** The blocks around a key or an entry: a new one if it lies deeper. */
  function Around(stack: seq<Level>, column: nat, kind: IndentType, deep: bool): seq<Level> {
    if deep then stack + [Level(column, kind)] else stack
  }

  /**
   * In this column an entry or a key of this kind begins a new block, or goes on with the innermost one; a sequence
   * may begin in the column of a map.
   */
  predicate Fits(stack: seq<Level>, column: nat, kind: IndentType, deep: bool) {
    if deep then column > TopColumn(stack) || (kind == SEQ && stack != [] && stack[|stack| - 1] == Level(column, MAP))
    else stack != [] && stack[|stack| - 1] == Level(column, kind)
  }

  lemma StandsDeeper(s: Scan, s': Scan, stack: seq<Level>, column: nat, kind: IndentType)
    requires Stands(s, stack) && Live(s') && s'.flows == [] && s'.simpleKeys == []
    requires exists start :: s'.refs == s.refs + [Indent(column, kind, Valid, start)]
    requires s'.indents == s.indents + [|s.refs|]
    ensures Stands(s', stack + [Level(column, kind)])
  {
    hide Sound;
    var stack' := stack + [Level(column, kind)];
    forall i | 0 <= i < |stack'|
      ensures IsLevel(s'.refs[s'.indents[i + 1]], stack'[i])
    {
      if i < |stack| {
        assert s'.indents[i + 1] == s.indents[i + 1] && IsLevel(s.refs[s.indents[i + 1]], stack[i]);
      }
    }
  }

  lemma StandsAlike(s: Scan, s': Scan, stack: seq<Level>)
    requires Stands(s, stack) && Live(s') && s'.flows == [] && s'.simpleKeys == [] && s.refs <= s'.refs && s'.indents == s.indents
    ensures Stands(s', stack)
  {
    hide Sound;
    forall i | 0 <= i < |stack|
      ensures IsLevel(s'.refs[s'.indents[i + 1]], stack[i])
    {
      assert IsLevel(s.refs[s.indents[i + 1]], stack[i]);
    }
  }

  /** What a colon makes of a key in front of it. */
  function KeyedAs(s: Scan, column: nat, n: Inline, deep: bool): Scan {
    var s1 := if deep then DeepKey(s, column, n, VALID, Valid) else s.(all := s.all + [KeyItem(VALID)] + Raw(n));
    s1.(all := s1.all + [Sure(VALUE)], simpleKeyAllowed := false, canBeJSONFlow := false)
  }

  lemma KeyIsValued(s: Scan, stack: seq<Level>, m: Mark, n: Inline, m2: Mark, deep: bool)
    requires Stands(s, stack) && s.simpleKeyAllowed && Fits(stack, m.column, MAP, deep) && Live(Done(s, m, n))
    requires m2.line == m.line && m2.pos - m.pos <= 1024
    ensures ScanValue(Done(s, m, n), m2) == Next(KeyedAs(s, m.column, n, deep))
  {
    if deep {
      DeepDecided(s, stack, m, n, m2);
    } else {
      NextKeyConfirmed(s, stack, m, n, m2);
    }
    hide Done, Raw, VerifySimpleKey, Sound, PointersOk, InvalidateSimpleKey;
  }

  lemma ValuedStands(s: Scan, stack: seq<Level>, column: nat, n: Inline, deep: bool)
    requires Stands(s, stack) && Fits(stack, column, MAP, deep) && Live(KeyedAs(s, column, n, deep))
    ensures Stands(KeyedAs(s, column, n, deep), Around(stack, column, MAP, deep))
  {
    var s' := KeyedAs(s, column, n, deep);
    hide Sound, Raw;
    if deep {
      assert s'.refs == s.refs + [Indent(column, MAP, Valid, To(|s.all|))];
      StandsDeeper(s, s', stack, column, MAP);
    } else {
      StandsAlike(s, s', stack);
    }
  }

  function Started(kind: TokenType, deep: bool): seq<Parsing.Token> {
    if deep then [TokenSpelling.Tok(kind)] else []
  }

  lemma ValuedIsShown(s: Scan, column: nat, n: Inline, deep: bool)
    requires InlineOk(n)
    ensures Shown(KeyedAs(s, column, n, deep).all) ==
            Shown(s.all) + (Started(BLOCK_MAP_START, deep) +
                            ([TokenSpelling.Tok(KEY)] + TokenSpelling.NodeTokens(InlineNode(n)) + [TokenSpelling.Tok(VALUE)]))
  {
    hide Shown, Raw, InlineNode, TokenSpelling.NodeTokens;
    ShownMark(BLOCK_MAP_START, VALID);
    ShownMark(KEY, VALID);
    ShownMark(VALUE, VALID);
    RawIsShown(n);
    var before := if deep then s.all + [Item(BLOCK_MAP_START, VALID, "")] else s.all;
    ShownSum(s.all, [Item(BLOCK_MAP_START, VALID, "")]);
    ShownThree(before, [KeyItem(VALID)], Raw(n));
    ShownSum(before + [KeyItem(VALID)] + Raw(n), [Sure(VALUE)]);
    FourTokens(Shown(s.all), Started(BLOCK_MAP_START, deep), [TokenSpelling.Tok(KEY)], TokenSpelling.NodeTokens(InlineNode(n)),
               [TokenSpelling.Tok(VALUE)]);
    ShownNothing();
  }

  lemma FourTokens(a: seq<Parsing.Token>, b: seq<Parsing.Token>, c: seq<Parsing.Token>, d: seq<Parsing.Token>, e: seq<Parsing.Token>)
    ensures a + b + c + d + e == a + (b + (c + d + e))
  {
  }

  /** A key of a block map and its colon. */
  lemma KeyScans(t: string, p: Place, stack: seq<Level>, n: Inline, rest: string, deep: bool)
    requires Stands(p.scan, stack) && p.scan.simpleKeyAllowed && Fits(stack, p.mark.column, MAP, deep)
    requires InlineOk(n) && |KeyText(n)| <= 1024 && rest != "" && (rest[0] == ' ' || rest[0] == '\n')
    requires Follows(t, p.mark.pos, KeyText(n) + (":" + rest))
    ensures var q := Place(KeyedAs(p.scan, p.mark.column, n, deep), Past(p.mark, |KeyText(n)| + 1));
            && Stands(q.scan, Around(stack, p.mark.column, MAP, deep)) && Alike(ScanOn(t, p), ScanOn(t, q)) && Follows(t, q.mark.pos, rest)
  {
    hide Sound, PointersOk, PopIndentToHere, ScanOn, KeyText, InlineOk, Done, EndsPlain, ScanValue, KeyedAs, Rests;
    RestsHere(p.scan, stack, p.mark.column);
    ColonEnds(rest);
    KeyTextScans(t, p, n, ":" + rest);
    var q := Place(Done(p.scan, p.mark, n), Past(p.mark, |KeyText(n)|));
    KeyIsNotEmpty(n);
    KeyRests(p.scan, p.mark, n, q.mark.column);
    KeyIsValued(p.scan, stack, p.mark, n, q.mark, deep);
    ColonScans(t, q, KeyedAs(p.scan, p.mark.column, n, deep), rest);
    ValuedStands(p.scan, stack, p.mark.column, n, deep);
  }

  lemma KeyRests(s: Scan, m: Mark, n: Inline, column: nat)
    requires Rests(s, m.column) && Live(Done(s, m, n)) && column > m.column
    ensures Rests(Done(s, m, n), column)
  {
    DoneRests(s, m, Raw(n), Json(n), column);
    hide Rests, Sound, PointersOk, DoneWith;
  }

  lemma KeyIsNotEmpty(n: Inline)
    requires InlineOk(n)
    ensures KeyText(n) != ""
  {
    InlineIsNotEmpty(n);
    hide InlineText, InlineOk;
  }

  lemma ColonEnds(rest: string)
    requires rest != "" && (rest[0] == ' ' || rest[0] == '\n')
    ensures StopsWord(":" + rest, false)
  {
  }

  lemma InlineIsNotEmpty(n: Inline)
    requires InlineOk(n)
    ensures InlineText(n) != "" && InlineText(n)[0] !in " \t\n\r#-"
  {
    hide EntryTexts, FlowFolding.Spelling, FlowFolding.PiecesOk, EntryOk, PropsText, NameOk, TagOk;
    if n.Inline? {
      BodyIsNotEmpty(n.body);
      var ps := PropList(n.props);
      if ps != [] {
        PropsBegin(ps);
      } else {
        NoPropsText(Mark(0, 0, 0));
      }
    }
  }

  lemma BodyIsNotEmpty(b: Body)
    requires CanBeWritten(b)
    ensures BodyText(b) != "" && BodyText(b)[0] !in " \t\n\r#-"
  {
    hide EntryTexts, FlowFolding.Spelling, FlowFolding.PiecesOk, EntryOk;
  }

  lemma PropsBegin(ps: seq<Prop>)
    requires ps != [] && (ps[0].TagProp? ==> ps[0].tag.Tag?)
    ensures PropsText(ps) != "" && PropsText(ps)[0] in "&!"
  {
  }

  // Entries

  function Dashed(s: Scan, column: nat, deep: bool): Scan {
    var s1 := if deep then
                s.(all := s.all + [Sure(BLOCK_SEQ_START)], refs := s.refs + [Indent(column, SEQ, Valid, To(|s.all|))],
                   indents := s.indents + [|s.refs|])
              else s;
    s1.(all := s1.all + [Sure(BLOCK_ENTRY)], simpleKeyAllowed := true, canBeJSONFlow := false)
  }

  lemma DashActs(s: Scan, stack: seq<Level>, m: Mark, deep: bool)
    requires Stands(s, stack) && s.simpleKeyAllowed && Fits(stack, m.column, SEQ, deep)
    ensures ScanBlockEntry(s, m) == Next(Dashed(s, m.column, deep))
  {
    TopIs(s, stack);
    hide Sound, PointersOk, Top;
  }

  lemma DashBranch(t: string, m: Mark, s: Scan)
    requires m.pos + 1 < |t| && t[m.pos] == '-' && t[m.pos + 1] == ' '
    ensures BranchAt(t, m, InFlow(s), s.canBeJSONFlow) == AtBlockEntry && Exp.BlockEntry(t, m.pos)
  {
  }

  lemma DashedIsShown(s: Scan, column: nat, deep: bool)
    ensures Shown(Dashed(s, column, deep).all) == Shown(s.all) + (Started(BLOCK_SEQ_START, deep) + [TokenSpelling.Tok(BLOCK_ENTRY)])
  {
    hide Shown;
    ShownMark(BLOCK_SEQ_START, VALID);
    ShownMark(BLOCK_ENTRY, VALID);
    var before := if deep then s.all + [Sure(BLOCK_SEQ_START)] else s.all;
    ShownSum(s.all, [Sure(BLOCK_SEQ_START)]);
    ShownSum(before, [Sure(BLOCK_ENTRY)]);
    ShownNothing();
  }

  /** A dash and a space. */
  lemma DashScans(t: string, p: Place, stack: seq<Level>, rest: string, deep: bool)
    requires Stands(p.scan, stack) && p.scan.simpleKeyAllowed && Fits(stack, p.mark.column, SEQ, deep)
    requires Follows(t, p.mark.pos, "-" + rest) && rest != "" && rest[0] == ' '
    ensures var q := Place(Dashed(p.scan, p.mark.column, deep), Past(p.mark, 1));
            && Stands(q.scan, Around(stack, p.mark.column, SEQ, deep)) && Alike(ScanOn(t, p), ScanOn(t, q)) && Follows(t, q.mark.pos, rest)
  {
    hide Sound, PointersOk, PopIndentToHere, ScanOn, AfterMany, ScanBlockEntry, Exp.BlockEntry, BranchAt;
    FollowsOn(t, p.mark.pos, "-", rest);
    assert t[p.mark.pos + 1] == t[p.mark.pos + 1..][0];
    OneRead(t, p.mark);
    DashBranch(t, p.mark, p.scan);
    IdleHere(p.scan, stack, p.mark.column, true);
    DashActs(p.scan, stack, p.mark, deep);
    var q := Place(Dashed(p.scan, p.mark.column, deep), Past(p.mark, 1));
    TokenHere(t, p, BlockEntry, q);
    LivesOn(q.scan);
    if deep {
      assert q.scan.refs == p.scan.refs + [Indent(p.mark.column, SEQ, Valid, To(|p.scan.all|))];
      StandsDeeper(p.scan, q.scan, stack, p.mark.column, SEQ);
    } else {
      StandsAlike(p.scan, q.scan, stack);
    }
  }

  // Question marks, and the colons of their pairs

  function Asked(s: Scan, column: nat, deep: bool): Scan {
    var s1 := if deep then
                s.(all := s.all + [Sure(BLOCK_MAP_START)], refs := s.refs + [Indent(column, MAP, Valid, To(|s.all|))],
                   indents := s.indents + [|s.refs|])
              else s;
    s1.(all := s1.all + [Sure(KEY)], simpleKeyAllowed := true)
  }

  function Answered(s: Scan): Scan {
    s.(all := s.all + [Sure(VALUE)], simpleKeyAllowed := true, canBeJSONFlow := false)
  }

  lemma QuestionActs(s: Scan, stack: seq<Level>, m: Mark, deep: bool)
    requires Stands(s, stack) && s.simpleKeyAllowed && Fits(stack, m.column, MAP, deep)
    ensures ScanKey(s, m) == Next(Asked(s, m.column, deep))
  {
    TopIs(s, stack);
    hide Sound, PointersOk, Top;
  }

  lemma ColonAnswers(s: Scan, stack: seq<Level>, m: Mark)
    requires Stands(s, stack) && s.simpleKeyAllowed && stack != [] && stack[|stack| - 1] == Level(m.column, MAP)
    ensures ScanValue(s, m) == Next(Answered(s))
  {
    TopIs(s, stack);
    hide Sound, PointersOk, Top, Resolve;
  }

  lemma QuestionBranch(t: string, m: Mark, s: Scan)
    requires m.pos + 1 < |t| && t[m.pos] in "?:" && t[m.pos + 1] == ' ' && s.flows == []
    ensures BranchAt(t, m, InFlow(s), s.canBeJSONFlow) == (if t[m.pos] == '?' then AtKey else AtValue) && !Exp.BlockEntry(t, m.pos)
  {
  }

  lemma AskedIsShown(s: Scan, column: nat, deep: bool)
    ensures Shown(Asked(s, column, deep).all) == Shown(s.all) + (Started(BLOCK_MAP_START, deep) + [TokenSpelling.Tok(KEY)])
  {
    hide Shown;
    ShownMark(BLOCK_MAP_START, VALID);
    ShownMark(KEY, VALID);
    var before := if deep then s.all + [Sure(BLOCK_MAP_START)] else s.all;
    ShownSum(s.all, [Sure(BLOCK_MAP_START)]);
    ShownSum(before, [Sure(KEY)]);
    ShownNothing();
  }

  /** A question mark and a space. */
  lemma QuestionScans(t: string, p: Place, stack: seq<Level>, rest: string, deep: bool)
    requires Stands(p.scan, stack) && p.scan.simpleKeyAllowed && Fits(stack, p.mark.column, MAP, deep)
    requires Follows(t, p.mark.pos, "?" + rest) && rest != "" && rest[0] == ' '
    ensures var q := Place(Asked(p.scan, p.mark.column, deep), Past(p.mark, 1));
            && Stands(q.scan, Around(stack, p.mark.column, MAP, deep)) && Alike(ScanOn(t, p), ScanOn(t, q)) && Follows(t, q.mark.pos, rest)
  {
    hide Sound, PointersOk, PopIndentToHere, ScanOn, AfterMany, ScanKey, Exp.BlockEntry, BranchAt;
    FollowsOn(t, p.mark.pos, "?", rest);
    assert t[p.mark.pos + 1] == t[p.mark.pos + 1..][0];
    OneRead(t, p.mark);
    QuestionBranch(t, p.mark, p.scan);
    IdleHere(p.scan, stack, p.mark.column, false);
    QuestionActs(p.scan, stack, p.mark, deep);
    var q := Place(Asked(p.scan, p.mark.column, deep), Past(p.mark, 1));
    TokenHere(t, p, Key, q);
    LivesOn(q.scan);
    if deep {
      assert q.scan.refs == p.scan.refs + [Indent(p.mark.column, MAP, Valid, To(|p.scan.all|))];
      StandsDeeper(p.scan, q.scan, stack, p.mark.column, MAP);
    } else {
      StandsAlike(p.scan, q.scan, stack);
    }
  }

  /** The colon below a question mark, and a space. */
  lemma AnswerScans(t: string, p: Place, stack: seq<Level>, rest: string)
    requires Stands(p.scan, stack) && p.scan.simpleKeyAllowed && stack != [] && stack[|stack| - 1] == Level(p.mark.column, MAP)
    requires Follows(t, p.mark.pos, ":" + rest) && rest != "" && rest[0] == ' '
    ensures var q := Place(Answered(p.scan), Past(p.mark, 1));
            Stands(q.scan, stack) && Alike(ScanOn(t, p), ScanOn(t, q)) && Follows(t, q.mark.pos, rest)
  {
    hide Sound, PointersOk, PopIndentToHere, ScanOn, AfterMany, ScanValue, Exp.BlockEntry, BranchAt;
    FollowsOn(t, p.mark.pos, ":", rest);
    assert t[p.mark.pos + 1] == t[p.mark.pos + 1..][0];
    OneRead(t, p.mark);
    QuestionBranch(t, p.mark, p.scan);
    IdleHere(p.scan, stack, p.mark.column, false);
    ColonAnswers(p.scan, stack, p.mark);
    var q := Place(Answered(p.scan), Past(p.mark, 1));
    TokenHere(t, p, Value, q);
    LivesOn(q.scan);
    StandsAlike(p.scan, q.scan, stack);
  }
}
