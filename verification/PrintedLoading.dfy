/** Loading the text of a tree gives the graph the tree means. */
module PrintedLoading {
  import opened Events
  import opened NodeBuilding
  import opened TreeBuilding
  import opened Tokens
  import opened Parsing
  import opened TokenSpelling
  import opened TextPrinting
  import opened TextLoading
  import TreeScanning
  import ScannerText
  import ScannerState

  // The printed trees are among those the parser reads as they are meant

  lemma {:induction false} InlineFits(n: Inline, context: CollectionType, next: Next)
    requires InlineOk(n)
    ensures Fits(InlineNode(n), context, next) && NodeTokens(InlineNode(n)) != []
    decreases n, 1
  {
    hide FlowEntryTokens, FlowPairTokens, NameOk, TagOk, WordOk, EntryOk;
    if n.Inline? && n.body.Bracketed? {
      if n.body.isMap {
        PairsOfFit(n.body.entries);
      } else {
        ItemsOfFit(n.body.entries);
      }
    }
  }

  lemma {:induction false} ItemsOfFit(es: seq<Entry>)
    requires forall i :: 0 <= i < |es| ==> EntryOk(false, es[i])
    ensures FlowEntriesFit(ItemsOf(es))
    decreases es, 0
  {
    hide NodeTokens, InlineNode, ItemOf, Fits, EntryOk;
    if es != [] {
      ItemFits(es[0], Kind(if |es| == 1 then FLOW_SEQ_END else FLOW_ENTRY));
      ItemsOfFit(es[1..]);
      assert ItemsOf(es)[1..] == ItemsOf(es[1..]);
    }
  }

  lemma {:induction false} ItemFits(e: Entry, next: Next)
    requires EntryOk(false, e) && (next == Kind(FLOW_SEQ_END) || next == Kind(FLOW_ENTRY))
    ensures Fits(ItemOf(e), FlowSeq, next) && NodeTokens(ItemOf(e)) != []
    decreases e, 1
  {
    hide InlineNode, InlineOk;
    match e
    case Lone(node) => InlineFits(node, FlowSeq, next);
    case Both(key, value) =>
      InlineFits(key, CompactMap, Kind(VALUE));
      InlineFits(value, CompactMap, next);
      CompactFits(PairOf(e), next);
  }

  lemma CompactFits(p: TokenSpelling.Pair, next: Next)
    requires PairFits(p, CompactMap, next) && p.key.Present? && next != Kind(VALUE)
    ensures var n := Node.Node(NO_PROPS, Compact(p)); Fits(n, FlowSeq, next) && NodeTokens(n) != []
  {
    hide PairFits;
    assert ContentTokens(Compact(p)) == PairTokens(p) != [];
  }

  lemma {:induction false} PairsOfFit(es: seq<Entry>)
    requires forall i :: 0 <= i < |es| ==> EntryOk(true, es[i])
    ensures FlowPairsFit(PairsOf(es))
    decreases es, 0
  {
    hide NodeTokens, InlineNode, PairFits, EntryOk;
    if es != [] {
      PairOfFits(es[0], Kind(if |es| == 1 then FLOW_MAP_END else FLOW_ENTRY));
      PairsOfFit(es[1..]);
      assert PairsOf(es)[1..] == PairsOf(es[1..]);
    }
  }

  lemma {:induction false} PairOfFits(e: Entry, next: Next)
    requires EntryOk(true, e) && (next == Kind(FLOW_MAP_END) || next == Kind(FLOW_ENTRY))
    ensures PairFits(PairOf(e), FlowMap, next) && PairOf(e).key.Present?
    decreases e, 1
  {
    hide InlineNode, InlineOk;
    match e
    case Lone(node) => InlineFits(node, FlowMap, Kind(VALUE));
    case Both(key, value) =>
      InlineFits(key, FlowMap, Kind(VALUE));
      InlineFits(value, FlowMap, next);
  }

  lemma {:induction false} BlockFits(n: Block, context: CollectionType, next: Next)
    requires BlockOk(n) && (n.Missing? ==> Stops(next, false, context))
    ensures Fits(BlockNode(n), context, next)
    decreases n, 1
  {
    match n
    case Missing =>
    case Leaf(line) => InlineFits(line, context, next);
    case Entries(_, items) => EntriesFit(items);
    case Pairs(pairs) => PairsFit(pairs);
  }

  lemma {:induction false} EntriesFit(ns: seq<Block>)
    requires forall i :: 0 <= i < |ns| ==> BlockOk(ns[i])
    ensures BlockEntriesFit(EntryNodes(ns))
    decreases ns, 0
  {
    hide NodeTokens, BlockNode, TokenSpelling.Fits;
    if ns != [] {
      BlockFits(ns[0], BlockSeq, Kind(if |ns| == 1 then BLOCK_SEQ_END else BLOCK_ENTRY));
      EntriesFit(ns[1..]);
      assert EntryNodes(ns)[1..] == EntryNodes(ns[1..]);
    }
  }

  lemma {:induction false} BlockPairFits(p: BlockPair, context: CollectionType, next: Next)
    requires BlockPairOk(p) && context == BlockMap && (next == Kind(BLOCK_MAP_END) || next == Kind(KEY))
    ensures PairFits(BlockPairNode(p), context, next)
    decreases p, 1
  {
    hide NodeTokens, BlockNode, InlineNode, Fits;
    match p
    case BlockPair(key, value) =>
      InlineFits(key, context, Kind(VALUE));
      BlockFits(value, context, next);
    case LongPair(node, value) =>
      if node.Missing? {
        BlockFits(value, CompactMap, next);
        NoKeyFits(value, next);
        assert BlockPairNode(p) == Pair(Present(NoKey(BlockNode(value))), Absent);
        assert Fits(NoKey(BlockNode(value)), context, next);
      } else {
        BlockFits(node, context, Kind(VALUE));
        BlockFits(value, context, next);
      }
  }

  lemma NoKeyFits(value: Block, next: Next)
    requires Fits(BlockNode(value), CompactMap, next)
    ensures forall context :: Fits(NoKey(BlockNode(value)), context, next)
  {
  }

  lemma {:induction false} PairsFit(ps: seq<BlockPair>)
    requires forall i :: 0 <= i < |ps| ==> BlockPairOk(ps[i])
    ensures BlockPairsFit(PairNodes(ps))
    decreases ps, 0
  {
    hide NodeTokens, BlockNode, InlineNode, PairFits;
    if ps != [] {
      BlockPairFits(ps[0], BlockMap, Kind(if |ps| == 1 then BLOCK_MAP_END else KEY));
      PairsFit(ps[1..]);
      assert PairNodes(ps)[1..] == PairNodes(ps[1..]);
    }
  }

  lemma PrintedBegins(n: Block)
    requires BlockOk(n) && !n.Missing?
    ensures NodeTokens(BlockNode(n)) != [] && NodeTokens(BlockNode(n))[0].kindOf !in {DIRECTIVE, DOC_START}
  {
    hide FlowEntryTokens, FlowPairTokens, BlockEntryTokens, BlockPairTokens, InlineOk, InlineNode;
    if n.Leaf? {
      InlineBegins(n.line);
    }
  }

  lemma InlineBegins(n: Inline)
    requires InlineOk(n)
    ensures NodeTokens(InlineNode(n)) != [] && NodeTokens(InlineNode(n))[0].kindOf !in {DIRECTIVE, DOC_START}
  {
    hide FlowEntryTokens, FlowPairTokens, NameOk, TagOk, WordOk, EntryOk;
  }

  lemma NoDirectives(items: seq<ScannerState.Item>)
    requires items != [] && items[0].kind != DIRECTIVE
    ensures PrologueOf(items, false, map[]) == Prologue(map[], items)
  {
  }

  /** What is loaded from the text of a tree that is not empty. */
  lemma PrintedLoads(n: Block, step: nat, feed: bool, ok: bool, memory: Memory, root: Pointer)
    requires BlockOk(n) && !n.Missing? && step > 0
    requires Loads(BlockText(n, 0, step) + (if feed then "\n" else ""), ok, memory, root)
    ensures match Meaning(BlockNode(n), Env(map[], 0, map[]), 0)
            case Bad => !ok
            case Means(tree, _) => ok && memory == Build(tree, 0, [Nil]).created && root == At(Build(tree, 0, [Nil]).node)
  {
    hide ParseNode, Build, PrologueOf, ScannerText.TokensOf, BlockText, BlockOk, NodeTokens, BlockNode, Meaning, TextLoading.TokensOf;
    TreeScanning.PrintedIsScanned(n, step, feed);
    var items := ScannerText.TokensOf(BlockText(n, 0, step) + (if feed then "\n" else "")).items;
    PrintedBegins(n);
    FirstItem(items);
    NoDirectives(items);
    var st := State(TextLoading.TokensOf(items), map[], [], map[], 0, 0);
    assert NodeTokens(BlockNode(n)) + [] == NodeTokens(BlockNode(n));
    BlockFits(n, NoCollection, End);
    NodeReads(BlockNode(n), st, []);
  }

  lemma FirstItem(items: seq<ScannerState.Item>)
    requires TextLoading.TokensOf(items) != []
    ensures items != [] && TextLoading.TokensOf(items)[0].kindOf == items[0].kind
  {
  }
}
