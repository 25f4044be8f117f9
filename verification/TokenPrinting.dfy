/** The tokens of a tree, and the theorem that the parser reads a tree back from its own tokens. */
module TokenPrinting {
  import opened Events
  import opened Tokens
  import opened Parsing
  import opened ParsingLemmas

  function Plain(t: TokenType, value: string): Token {
    Token(t, value, VERBATIM, "")
  }

  /** Anchors are printed by name, and `names` gives anchor k the name names[k - 1]. */
  function NameOf(names: seq<string>, anchor: Anchor): string {
    if 1 <= anchor <= |names| then names[anchor - 1] else ""
  }

  function AnchorTokens(names: seq<string>, anchor: Anchor): seq<Token> {
    if anchor == NULL_ANCHOR then [] else [Plain(ANCHOR, NameOf(names, anchor))]
  }

  function TokensOf(t: Tree, names: seq<string>): (ts: seq<Token>)
    ensures ts != []
    decreases t, 1
  {
    match t
    case AliasOf(target) => [Plain(ALIAS, NameOf(names, target))]
    case NullNode(_, anchor) => AnchorTokens(names, anchor) + [Plain(PLAIN_SCALAR, "~")]
    case ScalarNode(_, anchor, tag, value) =>
      [Plain(TAG, tag)] + AnchorTokens(names, anchor) + [Plain(NON_PLAIN_SCALAR, value)]
    case SequenceNode(_, anchor, tag, style, items) =>
      [Plain(TAG, tag)] + AnchorTokens(names, anchor) +
      (if style == Flow then [Plain(FLOW_SEQ_START, "")] + FlowItems(items, names) + [Plain(FLOW_SEQ_END, "")]
       else [Plain(BLOCK_SEQ_START, "")] + BlockItems(items, names) + [Plain(BLOCK_SEQ_END, "")])
    case MapNode(_, anchor, tag, style, items) =>
      [Plain(TAG, tag)] + AnchorTokens(names, anchor) +
      (if style == Flow then [Plain(FLOW_MAP_START, "")] + FlowPairTokens(items, names) + [Plain(FLOW_MAP_END, "")]
       else [Plain(BLOCK_MAP_START, "")] + BlockPairTokens(items, names) + [Plain(BLOCK_MAP_END, "")])
  }

  function FlowItems(ts: seq<Tree>, names: seq<string>): seq<Token>
    decreases ts, 0
  {
    if ts == [] then []
    else TokensOf(ts[0], names) + (if |ts| == 1 then [] else [Plain(FLOW_ENTRY, "")] + FlowItems(ts[1..], names))
  }

  function BlockItems(ts: seq<Tree>, names: seq<string>): seq<Token>
    decreases ts, 0
  {
    if ts == [] then []
    else [Plain(BLOCK_ENTRY, "")] + TokensOf(ts[0], names) + BlockItems(ts[1..], names)
  }

  function FlowPairTokens(ts: seq<Tree>, names: seq<string>): seq<Token>
    decreases ts, 0
  {
    if |ts| < 2 then []
    else
      [Plain(KEY, "")] + TokensOf(ts[0], names) + [Plain(VALUE, "")] + TokensOf(ts[1], names) +
      (if |ts| == 2 then [] else [Plain(FLOW_ENTRY, "")] + FlowPairTokens(ts[2..], names))
  }

  function BlockPairTokens(ts: seq<Tree>, names: seq<string>): seq<Token>
    decreases ts, 0
  {
    if |ts| < 2 then []
    else
      [Plain(KEY, "")] + TokensOf(ts[0], names) + [Plain(VALUE, "")] + TokensOf(ts[1], names) +
      BlockPairTokens(ts[2..], names)
  }

  /** How deep HandleNode recurses for the tree. */
  function Depth(t: Tree): nat
    decreases t, 1
  {
    match t
    case SequenceNode(_, _, _, _, items) => 1 + DepthAll(items)
    case MapNode(_, _, _, _, items) => 1 + DepthAll(items)
    case _ => 1
  }

  function DepthAll(ts: seq<Tree>): nat
    decreases ts, 0
  {
    if ts == [] then 0
    else if Depth(ts[0]) > DepthAll(ts[1..]) then Depth(ts[0]) else DepthAll(ts[1..])
  }

  /**
   * The trees that tokens can spell: collections are flow or block, tags are not empty, and after k
   * anchors the nodes carry the anchors k+1, k+2, ... under their names.
   */
  ghost predicate Printable(t: Tree, k: nat, names: seq<string>)
    decreases t, 1
  {
    match t
    case AliasOf(target) => 1 <= target <= k
    case NullNode(name, anchor) => Named(name, anchor, k, names)
    case ScalarNode(name, anchor, tag, _) => Named(name, anchor, k, names) && tag != ""
    case SequenceNode(name, anchor, tag, style, items) =>
      && Named(name, anchor, k, names) && tag != "" && style != Default
      && PrintableAll(items, k + OwnAnchor(anchor), names)
    case MapNode(name, anchor, tag, style, items) =>
      && Named(name, anchor, k, names) && tag != "" && style != Default && |items| % 2 == 0
      && PrintableAll(items, k + OwnAnchor(anchor), names)
  }

  ghost predicate PrintableAll(ts: seq<Tree>, k: nat, names: seq<string>)
    decreases ts, 0
  {
    ts == [] || (Printable(ts[0], k, names) && PrintableAll(ts[1..], k + AnchorCount(ts[0]), names))
  }

  ghost predicate Named(name: string, anchor: Anchor, k: nat, names: seq<string>) {
    NextAnchor(anchor, k) && anchor <= |names| && name == NameOf(names, anchor)
  }

  ghost predicate DistinctNames(names: seq<string>) {
    && (forall i :: 0 <= i < |names| ==> names[i] != "")
    && (forall i, j :: 0 <= i < j < |names| ==> names[i] != names[j])
  }

  /** The parser knows the anchors so far by their names. */
  ghost predicate Knows(st: State, names: seq<string>) {
    && DistinctNames(names) && st.curAnchor <= |names|
    && (forall i :: 0 <= i < st.curAnchor ==> names[i] in st.anchors && st.anchors[names[i]] == i + 1)
  }

  /** The parser is about to meet t: it knows the names and has depth enough. */
  ghost predicate Prepared(t: Tree, names: seq<string>, st: State) {
    Knows(st, names) && Printable(t, st.curAnchor, names) && st.depth + Depth(t) < MAX_DEPTH
  }

  ghost predicate PreparedAll(ts: seq<Tree>, names: seq<string>, st: State) {
    && st.stack != []
    && Knows(st, names) && PrintableAll(ts, st.curAnchor, names) && st.depth + DepthAll(ts) < MAX_DEPTH
  }

  /** st' is st after reading everything up to `rest`, with `count` more anchors. */
  ghost predicate Reads(st: State, names: seq<string>, st': State, rest: seq<Token>, count: nat) {
    && st'.tokens == rest && st'.stack == st.stack && st'.tags == st.tags && st'.depth == st.depth
    && st'.curAnchor == st.curAnchor + count && Knows(st', names)
  }

  lemma FirstToken(t: Tree, names: seq<string>)
    ensures TokensOf(t, names)[0].kindOf in {ALIAS, ANCHOR, TAG, PLAIN_SCALAR}
  {
  }

  /** An anchor token, if printed, is read as the next anchor. */
  lemma AnchorIsRead(st: State, names: seq<string>, anchor: Anchor, p: Properties, rest: seq<Token>)
    requires Knows(st, names) && st.tokens == AnchorTokens(names, anchor) + rest
    requires rest != [] && rest[0].kindOf != TAG && rest[0].kindOf != ANCHOR
    requires NextAnchor(anchor, st.curAnchor) && anchor <= |names| && p.anchor == NULL_ANCHOR && p.name == ""
    ensures var r := ParseProperties(st, p);
            && r.Parsed? && r.value == p.(anchor := anchor, name := NameOf(names, anchor))
            && Reads(st, names, r.rest, rest, OwnAnchor(anchor))
  {
    if anchor != NULL_ANCHOR {
      var next := st.Skip();
      assert next.tokens == rest;
    } else {
      assert st.tokens == rest;
    }
  }

  lemma TagAndAnchorAreRead(st: State, names: seq<string>, tag: string, anchor: Anchor, rest: seq<Token>)
    requires Knows(st, names) && st.tokens == [Plain(TAG, tag)] + AnchorTokens(names, anchor) + rest
    requires rest != [] && rest[0].kindOf != TAG && rest[0].kindOf != ANCHOR
    requires NextAnchor(anchor, st.curAnchor) && anchor <= |names|
    ensures var r := ParseProperties(st, Properties("", NULL_ANCHOR, ""));
            && r.Parsed? && r.value == Properties(tag, anchor, NameOf(names, anchor))
            && Reads(st, names, r.rest, rest, OwnAnchor(anchor))
  {
    assert st.Skip().tokens == AnchorTokens(names, anchor) + rest;
    AnchorIsRead(st.Skip(), names, anchor, Properties(tag, NULL_ANCHOR, ""), rest);
  }

  /** A node that starts with properties or content is its properties followed by its content. */
  lemma NodeFromContent(st: State, p: Properties, mid: State)
    requires st.tokens != [] && !st.At(VALUE) && !st.At(ALIAS) && st.depth + 1 < MAX_DEPTH
    requires ParseProperties(st.(depth := st.depth + 1), Properties("", NULL_ANCHOR, "")) == Parsed(p, mid)
    ensures ParseNode(st) ==
            match ParseContent(mid, p)
            case Thrown => Thrown
            case Parsed(t, rest) => Parsed(t, rest.(depth := st.depth))
  {
  }

  /** The parser reads a tree back from its own tokens, whatever follows them. */
  lemma {:induction false} ReadsBack(t: Tree, names: seq<string>, st: State, rest: seq<Token>)
    requires st.tokens == TokensOf(t, names) + rest && Prepared(t, names, st)
    ensures ReadBack(t, names, st, rest)
    decreases t, 1
  {
    hide ReadBack, ParseNode;
    match t
    case AliasOf(target) => AliasReadsBack(target, names, st, rest);
    case NullNode(name, anchor) => NullReadsBack(t, names, st, rest);
    case ScalarNode(name, anchor, tag, value) => ScalarReadsBack(t, names, st, rest);
    case SequenceNode(_, _, _, style, _) =>
      if style == Flow {
        FlowSequenceReadsBack(t, names, st, rest);
      } else {
        BlockSequenceReadsBack(t, names, st, rest);
      }
    case MapNode(_, _, _, style, _) =>
      if style == Flow {
        FlowMapReadsBack(t, names, st, rest);
      } else {
        BlockMapReadsBack(t, names, st, rest);
      }
  }

  predicate IsCollection(t: Tree) {
    (t.SequenceNode? || t.MapNode?) && t.style != Default
  }

  function Opening(t: Tree): Token
    requires IsCollection(t)
  {
    if t.SequenceNode? then if t.style == Flow then Plain(FLOW_SEQ_START, "") else Plain(BLOCK_SEQ_START, "")
    else if t.style == Flow then Plain(FLOW_MAP_START, "") else Plain(BLOCK_MAP_START, "")
  }

  /** What stands between the opening token of a collection and what follows it. */
  function Inside(t: Tree, names: seq<string>): seq<Token>
    requires IsCollection(t)
  {
    if t.SequenceNode? then
      if t.style == Flow then FlowItems(t.items, names) + [Plain(FLOW_SEQ_END, "")]
      else BlockItems(t.items, names) + [Plain(BLOCK_SEQ_END, "")]
    else if t.style == Flow then FlowPairTokens(t.items, names) + [Plain(FLOW_MAP_END, "")]
    else BlockPairTokens(t.items, names) + [Plain(BLOCK_MAP_END, "")]
  }

  lemma CollectionTokens(t: Tree, names: seq<string>, rest: seq<Token>)
    requires IsCollection(t)
    ensures TokensOf(t, names) + rest ==
            [Plain(TAG, t.tag)] + AnchorTokens(names, t.anchor) + ([Opening(t)] + (Inside(t, names) + rest))
  {
    hide FlowItems, BlockItems, FlowPairTokens, BlockPairTokens;
    var head, open, inner := [Plain(TAG, t.tag)] + AnchorTokens(names, t.anchor), [Opening(t)], Inside(t, names);
    assert TokensOf(t, names) == head + (open + inner);
    hide TokensOf, AnchorTokens, Inside, Opening;
    assert head + (open + inner) + rest == head + (open + (inner + rest));
  }

  lemma PreparedOpens(t: Tree, names: seq<string>, st: State)
    requires IsCollection(t) && Prepared(t, names, st)
    ensures Knows(st, names) && Printable(t, st.curAnchor, names) && st.depth + 1 < MAX_DEPTH
    ensures NextAnchor(t.anchor, st.curAnchor) && t.anchor <= |names|
  {
    hide Knows;
  }

  /** Behind the properties of a collection its items can be read. */
  lemma PreparedItems(t: Tree, names: seq<string>, st: State, mid: State, kind: CollectionType)
    requires IsCollection(t) && Prepared(t, names, st) && mid.tokens != []
    requires Reads(st.(depth := st.depth + 1), names, mid, mid.tokens, OwnAnchor(t.anchor))
    ensures PreparedAll(t.items, names, mid.Skip().Enter(kind)) && (t.MapNode? ==> |t.items| % 2 == 0)
  {
    KnowsSkip(mid, names, kind);
    hide Knows, PrintableAll, DepthAll;
  }

  lemma KnowsSkip(st: State, names: seq<string>, kind: CollectionType)
    requires Knows(st, names) && st.tokens != []
    ensures Knows(st.Skip().Enter(kind), names)
  {
  }

  lemma {:induction false} FlowSequenceReadsBack(t: Tree, names: seq<string>, st: State, rest: seq<Token>)
    requires t.SequenceNode? && t.style == Flow && st.tokens == TokensOf(t, names) + rest && Prepared(t, names, st)
    ensures ReadBack(t, names, st, rest)
    decreases t, 0
  {
    hide ReadBack, ParseNode, ListReadBack, TokensOf, FlowItems, AnchorTokens, Prepared, PreparedAll, Printable, Knows, Reads;
    var inner := FlowItems(t.items, names) + [Plain(FLOW_SEQ_END, "")];
    var open := Plain(FLOW_SEQ_START, "");
    CollectionTokens(t, names, rest);
    PreparedOpens(t, names, st);
    var mid := CollectionOpens(names, st, t.tag, t.anchor, open, inner + rest);
    PreparedItems(t, names, st, mid, FlowSeq);
    FlowItemsReadBack(t.items, names, mid.Skip().Enter(FlowSeq), rest);
    CollectionReadsBack(t, names, st, mid, FlowSeq, rest);
  }

  lemma {:induction false} BlockSequenceReadsBack(t: Tree, names: seq<string>, st: State, rest: seq<Token>)
    requires t.SequenceNode? && t.style == Block && st.tokens == TokensOf(t, names) + rest && Prepared(t, names, st)
    ensures ReadBack(t, names, st, rest)
    decreases t, 0
  {
    hide ReadBack, ParseNode, ListReadBack, TokensOf, BlockItems, AnchorTokens, Prepared, PreparedAll, Printable, Knows, Reads;
    var inner := BlockItems(t.items, names) + [Plain(BLOCK_SEQ_END, "")];
    var open := Plain(BLOCK_SEQ_START, "");
    CollectionTokens(t, names, rest);
    PreparedOpens(t, names, st);
    var mid := CollectionOpens(names, st, t.tag, t.anchor, open, inner + rest);
    PreparedItems(t, names, st, mid, BlockSeq);
    BlockItemsReadBack(t.items, names, mid.Skip().Enter(BlockSeq), rest);
    CollectionReadsBack(t, names, st, mid, BlockSeq, rest);
  }

  lemma {:induction false} FlowMapReadsBack(t: Tree, names: seq<string>, st: State, rest: seq<Token>)
    requires t.MapNode? && t.style == Flow && st.tokens == TokensOf(t, names) + rest && Prepared(t, names, st)
    ensures ReadBack(t, names, st, rest)
    decreases t, 0
  {
    hide ReadBack, ParseNode, ListReadBack, TokensOf, FlowPairTokens, AnchorTokens, Prepared, PreparedAll, Printable, Knows, Reads;
    var inner := FlowPairTokens(t.items, names) + [Plain(FLOW_MAP_END, "")];
    var open := Plain(FLOW_MAP_START, "");
    CollectionTokens(t, names, rest);
    PreparedOpens(t, names, st);
    var mid := CollectionOpens(names, st, t.tag, t.anchor, open, inner + rest);
    PreparedItems(t, names, st, mid, FlowMap);
    FlowPairTokensReadBack(t.items, names, mid.Skip().Enter(FlowMap), rest);
    CollectionReadsBack(t, names, st, mid, FlowMap, rest);
  }

  lemma {:induction false} BlockMapReadsBack(t: Tree, names: seq<string>, st: State, rest: seq<Token>)
    requires t.MapNode? && t.style == Block && st.tokens == TokensOf(t, names) + rest && Prepared(t, names, st)
    ensures ReadBack(t, names, st, rest)
    decreases t, 0
  {
    hide ReadBack, ParseNode, ListReadBack, TokensOf, BlockPairTokens, AnchorTokens, Prepared, PreparedAll, Printable, Knows, Reads;
    var inner := BlockPairTokens(t.items, names) + [Plain(BLOCK_MAP_END, "")];
    var open := Plain(BLOCK_MAP_START, "");
    CollectionTokens(t, names, rest);
    PreparedOpens(t, names, st);
    var mid := CollectionOpens(names, st, t.tag, t.anchor, open, inner + rest);
    PreparedItems(t, names, st, mid, BlockMap);
    BlockPairTokensReadBack(t.items, names, mid.Skip().Enter(BlockMap), rest);
    CollectionReadsBack(t, names, st, mid, BlockMap, rest);
  }

  ghost predicate ReadBack(t: Tree, names: seq<string>, st: State, rest: seq<Token>) {
    var r := ParseNode(st);
    r.Parsed? && r.value == t && Reads(st, names, r.rest, rest, AnchorCount(t))
  }

  /** The items were read, and their collection was left. */
  ghost predicate ListReadBack(
      r: Parsed<seq<Tree>>, ts: seq<Tree>, names: seq<string>, st: State, rest: seq<Token>)
  {
    && st.stack != [] && r.Parsed? && r.value == ts
    && Reads(st.Leave(), names, r.rest, rest, AnchorCountAll(ts))
  }

  lemma AliasReadsBack(target: Anchor, names: seq<string>, st: State, rest: seq<Token>)
    requires st.tokens == [Plain(ALIAS, NameOf(names, target))] + rest && Knows(st, names)
    requires 1 <= target <= st.curAnchor && st.depth + 1 < MAX_DEPTH
    ensures ReadBack(AliasOf(target), names, st, rest)
  {
    assert st.Skip().tokens == rest;
  }

  lemma NullTokens(t: Tree, names: seq<string>, rest: seq<Token>)
    requires t.NullNode?
    ensures TokensOf(t, names) + rest == AnchorTokens(names, t.anchor) + ([Plain(PLAIN_SCALAR, "~")] + rest)
  {
  }

  lemma NullReadsBack(t: Tree, names: seq<string>, st: State, rest: seq<Token>)
    requires t.NullNode? && st.tokens == TokensOf(t, names) + rest && Prepared(t, names, st)
    ensures ReadBack(t, names, st, rest)
  {
    hide ParseNode, ParseProperties, DistinctNames, TokensOf;
    var body := [Plain(PLAIN_SCALAR, "~")] + rest;
    NullTokens(t, names, rest);
    assert Depth(t) == 1;
    assert st.tokens == AnchorTokens(names, t.anchor) + body;
    var inside := st.(depth := st.depth + 1);
    AnchorIsRead(inside, names, t.anchor, Properties("", NULL_ANCHOR, ""), body);
    FirstToken(t, names);
    assert st.tokens[0] == TokensOf(t, names)[0];
    var p := ParseProperties(inside, Properties("", NULL_ANCHOR, ""));
    NodeFromContent(st, p.value, p.rest);
    assert body[1..] == rest;
  }

  lemma ScalarReadsBack(t: Tree, names: seq<string>, st: State, rest: seq<Token>)
    requires t.ScalarNode? && st.tokens == TokensOf(t, names) + rest && Prepared(t, names, st)
    ensures ReadBack(t, names, st, rest)
  {
    assert st.tokens == [Plain(TAG, t.tag)] + AnchorTokens(names, t.anchor) + ([Plain(NON_PLAIN_SCALAR, t.value)] + rest);
    var mid := CollectionOpens(names, st, t.tag, t.anchor, Plain(NON_PLAIN_SCALAR, t.value), rest);
  }

  /** Up to the token `open`, which is not a property. */
  lemma CollectionOpens(names: seq<string>, st: State, tag: string, anchor: Anchor, open: Token, after: seq<Token>)
    returns (mid: State)
    requires st.tokens == [Plain(TAG, tag)] + AnchorTokens(names, anchor) + ([open] + after) && Knows(st, names)
    requires open.kindOf != TAG && open.kindOf != ANCHOR && st.depth + 1 < MAX_DEPTH
    requires NextAnchor(anchor, st.curAnchor) && anchor <= |names|
    ensures mid.tokens == [open] + after && mid.Skip().tokens == after
    ensures Reads(st.(depth := st.depth + 1), names, mid, [open] + after, OwnAnchor(anchor))
    ensures ParseNode(st) ==
            match ParseContent(mid, Properties(tag, anchor, NameOf(names, anchor)))
            case Thrown => Thrown
            case Parsed(t, rest) => Parsed(t, rest.(depth := st.depth))
  {
    var inside := st.(depth := st.depth + 1);
    TagAndAnchorAreRead(inside, names, tag, anchor, [open] + after);
    mid := ParseProperties(inside, Properties("", NULL_ANCHOR, "")).rest;
    NodeFromContent(st, Properties(tag, anchor, NameOf(names, anchor)), mid);
  }

  /** The items between `mid` and the end of the collection, as the parser reads them. */
  function ItemsFrom(t: Tree, mid: State): Parsed<seq<Tree>>
    requires IsCollection(t) && mid.tokens != []
  {
    var start := mid.Skip();
    if t.SequenceNode? then
      if t.style == Flow then ParseFlowEntries(start.Enter(FlowSeq)) else ParseBlockEntries(start.Enter(BlockSeq))
    else if t.style == Flow then ParseFlowPairs(start.Enter(FlowMap))
    else ParseBlockPairs(start.Enter(BlockMap))
  }

  lemma ContentIsCollection(t: Tree, mid: State, p: Properties)
    requires IsCollection(t) && mid.tokens != [] && mid.tokens[0] == Opening(t) && p.tag != ""
    ensures ParseContent(mid, p) ==
            if t.SequenceNode? then SequenceOf(p, p.tag, t.style, ItemsFrom(t, mid)) else MapOf(p, p.tag, t.style, ItemsFrom(t, mid))
  {
    hide ParseFlowEntries, ParseBlockEntries, ParseFlowPairs, ParseBlockPairs, IsNullString;
  }

  /** A collection whose items were read was read. */
  lemma CollectionReadsBack(t: Tree, names: seq<string>, st: State, mid: State, kind: CollectionType, rest: seq<Token>)
    requires IsCollection(t) && Printable(t, st.curAnchor, names) && mid.tokens != [] && mid.tokens[0] == Opening(t)
    requires Reads(st.(depth := st.depth + 1), names, mid, mid.tokens, OwnAnchor(t.anchor))
    requires ParseNode(st) ==
             match ParseContent(mid, Properties(t.tag, t.anchor, NameOf(names, t.anchor)))
             case Thrown => Thrown
             case Parsed(t, rest) => Parsed(t, rest.(depth := st.depth))
    requires ListReadBack(ItemsFrom(t, mid), t.items, names, mid.Skip().Enter(kind), rest)
    ensures ReadBack(t, names, st, rest)
  {
    hide ParseNode, ParseContent, ItemsFrom, Opening, DistinctNames, AnchorCountAll, PrintableAll, TokensOf;
    ContentIsCollection(t, mid, Properties(t.tag, t.anchor, NameOf(names, t.anchor)));
    assert mid.Skip().Enter(kind).Leave().stack == mid.stack;
  }

  // Lists of items and pairs

  lemma ListNil(names: seq<string>, st: State, end: Token, rest: seq<Token>)
    requires st.tokens == [] + [end] + rest && Knows(st, names) && st.stack != []
    ensures st.tokens[0] == end && ListReadBack(Parsed([], st.Skip().Leave()), [], names, st, rest)
  {
    assert st.Skip().tokens == rest;
  }

  /** One item read, and then the others. */
  lemma ListCons(
      t: Tree, ts: seq<Tree>, names: seq<string>, st: State, mid: State, midTokens: seq<Token>,
      more: Parsed<seq<Tree>>, rest: seq<Token>)
    requires st.stack != [] && Reads(st, names, mid, midTokens, AnchorCount(t))
    requires ListReadBack(more, ts, names, mid, rest)
    ensures ListReadBack(Prepend([t], more), [t] + ts, names, st, rest)
  {
    assert ([t] + ts)[0] == t && ([t] + ts)[1..] == ts;
  }

  // How the tokens of a list begin

  lemma Regroup(a: seq<Token>, b: seq<Token>, c: seq<Token>, d: seq<Token>, e: seq<Token>)
    ensures a + b + c + d + e == a + (b + (c + d + e))
  {
  }

  lemma BlockItemsBegin(ts: seq<Tree>, names: seq<string>, end: seq<Token>, rest: seq<Token>)
    requires ts != []
    ensures BlockItems(ts, names) + end + rest ==
            [Plain(BLOCK_ENTRY, "")] + (TokensOf(ts[0], names) + (BlockItems(ts[1..], names) + end + rest))
  {
    Regroup([Plain(BLOCK_ENTRY, "")], TokensOf(ts[0], names), BlockItems(ts[1..], names), end, rest);
  }

  lemma FlowItemsBegin(ts: seq<Tree>, names: seq<string>, end: seq<Token>, rest: seq<Token>)
    requires ts != []
    ensures FlowItems(ts, names) + end + rest ==
            TokensOf(ts[0], names) +
            (if |ts| == 1 then end + rest else [Plain(FLOW_ENTRY, "")] + (FlowItems(ts[1..], names) + end + rest))
  {
    var first, sep := TokensOf(ts[0], names), [Plain(FLOW_ENTRY, "")];
    if |ts| == 1 {
      assert first + [] + end + rest == first + (end + rest);
    } else {
      Regroup(first, sep, FlowItems(ts[1..], names), end, rest);
      assert first + (sep + FlowItems(ts[1..], names)) == first + sep + FlowItems(ts[1..], names);
    }
  }

  function PairTokens(key: Tree, value: Tree, names: seq<string>): seq<Token> {
    [Plain(KEY, "")] + TokensOf(key, names) + [Plain(VALUE, "")] + TokensOf(value, names)
  }

  lemma BlockPairsBegin(ts: seq<Tree>, names: seq<string>, end: seq<Token>, rest: seq<Token>)
    requires |ts| >= 2
    ensures BlockPairTokens(ts, names) + end + rest ==
            PairTokens(ts[0], ts[1], names) + (BlockPairTokens(ts[2..], names) + end + rest)
  {
    Regroup([], PairTokens(ts[0], ts[1], names), BlockPairTokens(ts[2..], names), end, rest);
    assert [] + PairTokens(ts[0], ts[1], names) == PairTokens(ts[0], ts[1], names);
  }

  lemma FlowPairsBegin(ts: seq<Tree>, names: seq<string>, end: seq<Token>, rest: seq<Token>)
    requires |ts| >= 2
    ensures FlowPairTokens(ts, names) + end + rest ==
            PairTokens(ts[0], ts[1], names) +
            (if |ts| == 2 then end + rest else [Plain(FLOW_ENTRY, "")] + (FlowPairTokens(ts[2..], names) + end + rest))
  {
    hide TokensOf;
    var first, sep := PairTokens(ts[0], ts[1], names), [Plain(FLOW_ENTRY, "")];
    var more := if |ts| == 2 then [] else FlowPairTokens(ts[2..], names);
    assert FlowPairTokens(ts, names) == first + (if |ts| == 2 then [] else sep + more);
    hide FlowPairTokens, PairTokens;
    if |ts| == 2 {
      assert first + [] + end + rest == first + (end + rest);
    } else {
      assert first + (sep + more) + end + rest == first + (sep + (more + end + rest));
    }
  }

  /** The first token of a printed node is neither a separator nor an end. */
  lemma NodeComesFirst(t: Tree, names: seq<string>, st: State, after: seq<Token>)
    requires st.tokens == TokensOf(t, names) + after
    ensures st.tokens != [] && st.tokens[0].kindOf in {ALIAS, ANCHOR, TAG, PLAIN_SCALAR}
  {
    FirstToken(t, names);
    assert st.tokens[0] == TokensOf(t, names)[0];
  }

  /** The first of several trees can be read, wherever its tokens start. */
  lemma PreparedFirst(ts: seq<Tree>, names: seq<string>, st: State, next: State)
    requires ts != [] && PreparedAll(ts, names, st) && next == st.(tokens := next.tokens)
    ensures Prepared(ts[0], names, next) && [ts[0]] + ts[1..] == ts
  {
  }

  /** Once it was read, so can the others, whatever separator is skipped. */
  lemma PreparedOthers(ts: seq<Tree>, names: seq<string>, st: State, next: State, after: seq<Token>)
    requires ts != [] && PreparedAll(ts, names, st) && next == st.(tokens := next.tokens)
    requires ReadBack(ts[0], names, next, after)
    ensures var mid := ParseNode(next).rest;
            && ParseNode(next) == Parsed(ts[0], mid) && mid.tokens == after && mid.stack == st.stack != []
            && Reads(st, names, mid, after, AnchorCount(ts[0]))
            && forall tokens :: PreparedAll(ts[1..], names, mid.(tokens := tokens))
  {
  }

  lemma {:induction false} FlowItemsReadBack(ts: seq<Tree>, names: seq<string>, st: State, rest: seq<Token>)
    requires st.tokens == FlowItems(ts, names) + [Plain(FLOW_SEQ_END, "")] + rest && PreparedAll(ts, names, st)
    ensures ListReadBack(ParseFlowEntries(st), ts, names, st, rest)
    decreases ts, 0
  {
    hide Knows, PrintableAll, DepthAll, TokensOf;
    var end := [Plain(FLOW_SEQ_END, "")];
    if ts == [] {
      ListNil(names, st, end[0], rest);
    } else {
      FlowItemsBegin(ts, names, end, rest);
      hide ListReadBack, ReadBack, PreparedAll, Prepared, ParseNode, ParseFlowEntries, FlowItems, TokensOf, AnchorCount;
      var after :=
        if |ts| == 1 then end + rest else [Plain(FLOW_ENTRY, "")] + (FlowItems(ts[1..], names) + end + rest);
      PreparedFirst(ts, names, st, st);
      NodeComesFirst(ts[0], names, st, after);
      ReadsBack(ts[0], names, st, after);
      PreparedOthers(ts, names, st, st, after);
      var mid := ParseNode(st).rest;
      FlowEntriesStep(st, ts[0], mid);
      if |ts| == 1 {
        ListNil(names, mid, end[0], rest);
        ListCons(ts[0], [], names, st, mid, after, Parsed([], mid.Skip().Leave()), rest);
        assert [ts[0]] + [] == ts;
      } else {
        assert mid.Skip().tokens == FlowItems(ts[1..], names) + end + rest;
        FlowItemsReadBack(ts[1..], names, mid.Skip(), rest);
        ListCons(ts[0], ts[1..], names, st, mid.Skip(), mid.Skip().tokens, ParseFlowEntries(mid.Skip()), rest);
      }
    }
  }

  lemma {:induction false} BlockItemsReadBack(ts: seq<Tree>, names: seq<string>, st: State, rest: seq<Token>)
    requires st.tokens == BlockItems(ts, names) + [Plain(BLOCK_SEQ_END, "")] + rest && PreparedAll(ts, names, st)
    ensures ListReadBack(ParseBlockEntries(st), ts, names, st, rest)
    decreases ts, 0
  {
    var end := [Plain(BLOCK_SEQ_END, "")];
    if ts == [] {
      ListNil(names, st, end[0], rest);
    } else {
      BlockItemsBegin(ts, names, end, rest);
      hide ListReadBack, ReadBack, PreparedAll, Prepared, ParseNode, ParseBlockEntries, BlockItems, TokensOf, AnchorCount;
      var after := BlockItems(ts[1..], names) + end + rest;
      var next := st.Skip();
      assert next.tokens == TokensOf(ts[0], names) + after;
      PreparedFirst(ts, names, st, next);
      NodeComesFirst(ts[0], names, next, after);
      ReadsBack(ts[0], names, next, after);
      PreparedOthers(ts, names, st, next, after);
      var mid := ParseNode(next).rest;
      BlockEntriesStep(st, ts[0], mid);
      BlockItemsReadBack(ts[1..], names, mid.(tokens := after), rest);
      ListCons(ts[0], ts[1..], names, st, mid, after, ParseBlockEntries(mid), rest);
    }
  }

  /** Key, value and everything after the pair, read from `st`. */
  ghost predicate PairReadBack(ts: seq<Tree>, names: seq<string>, st: State, mid: State, next: State, after: seq<Token>)
    requires |ts| >= 2
  {
    && st.At(KEY) && ParseOptionalKey(st) == Parsed(ts[0], mid) && ParseOptionalValue(mid) == Parsed(ts[1], next)
    && next.tokens == after && next.stack == st.stack && Knows(next, names)
    && Reads(st, names, next, after, AnchorCount(ts[0]) + AnchorCount(ts[1]))
    && forall tokens :: PreparedAll(ts[2..], names, next.(tokens := tokens))
  }

  lemma {:induction false} PairReadsBack(ts: seq<Tree>, names: seq<string>, st: State, after: seq<Token>)
    returns (mid: State, next: State)
    requires |ts| >= 2 && st.tokens == PairTokens(ts[0], ts[1], names) + after && PreparedAll(ts, names, st)
    ensures PairReadBack(ts, names, st, mid, next, after)
    decreases ts, 0
  {
    hide ReadBack, PreparedAll, Prepared, ParseNode, TokensOf, AnchorCount;
    assert ts[1..][0] == ts[1] && ts[1..][1..] == ts[2..];
    var valueTokens := [Plain(VALUE, "")] + (TokensOf(ts[1], names) + after);
    var keyed := st.Skip();
    assert keyed.tokens == TokensOf(ts[0], names) + valueTokens;
    PreparedFirst(ts, names, st, keyed);
    ReadsBack(ts[0], names, keyed, valueTokens);
    PreparedOthers(ts, names, st, keyed, valueTokens);
    mid := ParseNode(keyed).rest;
    var valued := mid.Skip();
    assert valued.tokens == TokensOf(ts[1], names) + after;
    PreparedFirst(ts[1..], names, valued, valued);
    ReadsBack(ts[1], names, valued, after);
    PreparedOthers(ts[1..], names, valued, valued, after);
    next := ParseNode(valued).rest;
  }

  lemma TwoCons(
      ts: seq<Tree>, names: seq<string>, st: State, mid: State, midTokens: seq<Token>,
      more: Parsed<seq<Tree>>, rest: seq<Token>)
    requires |ts| >= 2 && st.stack != []
    requires Reads(st, names, mid, midTokens, AnchorCount(ts[0]) + AnchorCount(ts[1]))
    requires ListReadBack(more, ts[2..], names, mid, rest)
    ensures ListReadBack(Prepend([ts[0], ts[1]], more), ts, names, st, rest)
  {
    assert ts[1..][0] == ts[1] && ts[1..][1..] == ts[2..];
    assert AnchorCountAll(ts) == AnchorCount(ts[0]) + (AnchorCount(ts[1]) + AnchorCountAll(ts[2..]));
    assert [ts[0], ts[1]] + ts[2..] == ts;
  }

  lemma {:induction false} FlowPairTokensReadBack(ts: seq<Tree>, names: seq<string>, st: State, rest: seq<Token>)
    requires st.tokens == FlowPairTokens(ts, names) + [Plain(FLOW_MAP_END, "")] + rest
    requires PreparedAll(ts, names, st) && |ts| % 2 == 0
    ensures ListReadBack(ParseFlowPairs(st), ts, names, st, rest)
    decreases ts, 1
  {
    hide Knows, PrintableAll, DepthAll, TokensOf;
    var end := [Plain(FLOW_MAP_END, "")];
    if ts == [] {
      ListNil(names, st, end[0], rest);
    } else {
      FlowPairsBegin(ts, names, end, rest);
      var after :=
        if |ts| == 2 then end + rest else [Plain(FLOW_ENTRY, "")] + (FlowPairTokens(ts[2..], names) + end + rest);
      hide ListReadBack, PreparedAll, FlowPairTokens, PairTokens, Prepend, AnchorCount, Reads;
      hide ParseOptionalKey, ParseOptionalValue, ParseFlowPairs;
      var mid, next := PairReadsBack(ts, names, st, after);
      assert st.stack != [] by { StackOpen(ts, names, st); }
      if |ts| == 2 {
        LastFlowPair(ts, names, st, mid, next, rest);
      } else {
        assert next.Skip().tokens == FlowPairTokens(ts[2..], names) + end + rest;
        FlowPairTokensReadBack(ts[2..], names, next.Skip(), rest);
        NextFlowPair(ts, names, st, mid, next, after, rest);
      }
    }
  }

  lemma LastFlowPair(ts: seq<Tree>, names: seq<string>, st: State, mid: State, next: State, rest: seq<Token>)
    requires |ts| == 2 && st.stack != []
    requires PairReadBack(ts, names, st, mid, next, [Plain(FLOW_MAP_END, "")] + rest)
    ensures ListReadBack(ParseFlowPairs(st), ts, names, st, rest)
  {
    hide ParseFlowPairs, ParseOptionalKey, ParseOptionalValue, AnchorCount, AnchorCountAll, ListReadBack, PreparedAll;
    var end := [Plain(FLOW_MAP_END, "")];
    FlowPairsStep(st, ts[0], mid, ts[1], next);
    ListNil(names, next, end[0], rest);
    TwoCons(ts, names, st, next, end + rest, Parsed([], next.Skip().Leave()), rest);
  }

  lemma NextFlowPair(
      ts: seq<Tree>, names: seq<string>, st: State, mid: State, next: State, after: seq<Token>, rest: seq<Token>)
    requires |ts| >= 2 && st.stack != [] && PairReadBack(ts, names, st, mid, next, after)
    requires next.At(FLOW_ENTRY) && ListReadBack(ParseFlowPairs(next.Skip()), ts[2..], names, next.Skip(), rest)
    ensures ListReadBack(ParseFlowPairs(st), ts, names, st, rest)
  {
    hide ParseFlowPairs, ParseOptionalKey, ParseOptionalValue, AnchorCount, AnchorCountAll, ListReadBack, PreparedAll;
    FlowPairsStep(st, ts[0], mid, ts[1], next);
    ReadsSkip(st, names, next, after, AnchorCount(ts[0]) + AnchorCount(ts[1]));
    TwoCons(ts, names, st, next.Skip(), next.Skip().tokens, ParseFlowPairs(next.Skip()), rest);
  }

  lemma ReadsSkip(st: State, names: seq<string>, mid: State, tokens: seq<Token>, count: nat)
    requires Reads(st, names, mid, tokens, count) && mid.tokens != []
    ensures Reads(st, names, mid.Skip(), mid.Skip().tokens, count)
  {
  }

  lemma StackOpen(ts: seq<Tree>, names: seq<string>, st: State)
    requires PreparedAll(ts, names, st)
    ensures st.stack != []
  {
  }

  lemma {:induction false} BlockPairTokensReadBack(ts: seq<Tree>, names: seq<string>, st: State, rest: seq<Token>)
    requires st.tokens == BlockPairTokens(ts, names) + [Plain(BLOCK_MAP_END, "")] + rest
    requires PreparedAll(ts, names, st) && |ts| % 2 == 0
    ensures ListReadBack(ParseBlockPairs(st), ts, names, st, rest)
    decreases ts, 1
  {
    hide Knows, PrintableAll, DepthAll, TokensOf;
    var end := [Plain(BLOCK_MAP_END, "")];
    if ts == [] {
      ListNil(names, st, end[0], rest);
    } else {
      BlockPairsBegin(ts, names, end, rest);
      var after := BlockPairTokens(ts[2..], names) + end + rest;
      hide ListReadBack, PreparedAll, BlockPairTokens, PairTokens, Prepend, AnchorCount;
      hide ParseOptionalKey, ParseOptionalValue, ParseBlockPairs;
      var mid, next := PairReadsBack(ts, names, st, after);
      assert st.stack != [] by { StackOpen(ts, names, st); }
      BlockPairsStep(st, ts[0], mid, ts[1], next);
      BlockPairTokensReadBack(ts[2..], names, next.(tokens := after), rest);
      TwoCons(ts, names, st, next, after, ParseBlockPairs(next), rest);
    }
  }
}
