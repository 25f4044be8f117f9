/**
 * A way to write trees as text: scalars, aliases and flow collections on one line, with tags and anchors in front of
 * them; block collections line by line, each indented deeper than the one around it.
 */
module TextPrinting {
  import opened Tokens
  import opened TokenSpelling
  import opened QuotedScalars
  import FlowFolding
  import TokenShapes

  /** A node on one line: an alias, or what stands behind a tag and an anchor. */
  datatype Inline = Ref(name: string) | Inline(props: Props, body: Body)

  datatype Body = Word(text: string) | InQuotes(quote: Quote, pieces: seq<FlowFolding.Piece>) | Bracketed(isMap: bool, entries: seq<Entry>)

  /** In a sequence a node or a single pair, in a map a pair or a key alone. */
  datatype Entry = Lone(node: Inline) | Both(key: Inline, value: Inline)

  /** A node may be left out; the dashes of a value may stand in the column of its key. */
  datatype Block = Missing | Leaf(line: Inline) | Entries(flush: bool, items: seq<Block>) | Pairs(pairs: seq<BlockPair>)

  /** A key in front of its colon, or any node behind a question mark. */
  datatype BlockPair = BlockPair(key: Inline, value: Block) | LongPair(node: Block, value: Block)

  predicate IsWordChar(c: char) {
    'a' <= c <= 'z' || 'A' <= c <= 'Z' || '0' <= c <= '9' || c == '_' || c as int >= 128
  }

  /** Letters, digits and what is not ASCII, with spaces inside. */
  predicate WordOk(w: string) {
    && w != "" && IsWordChar(w[0]) && IsWordChar(w[|w| - 1])
    && forall k :: 0 <= k < |w| ==> IsWordChar(w[k]) || w[k] == ' '
  }

  /** Of an anchor or an alias. */
  predicate NameOk(name: string) {
    forall k :: 0 <= k < |name| ==> name[k] !in "[]{}, \t\n\r"
  }

  predicate SuffixOk(suffix: string) {
    suffix != "" && forall k :: 0 <= k < |suffix| ==> TokenShapes.TagPart(suffix, k)
  }

  /** The secondary handle is the handle without a name. */
  predicate TagOk(t: TagSpelling) {
    match t
    case NoTag => true
    case Tag(kind, value, suffix) =>
      match kind
      case VERBATIM => suffix == "" && forall k :: 0 <= k < |value| ==> TokenShapes.UriPart(value, k)
      case PRIMARY_HANDLE => suffix == "" && SuffixOk(value)
      case SECONDARY_HANDLE => false
      case NAMED_HANDLE => SuffixOk(suffix) && forall k :: 0 <= k < |value| ==> TokenShapes.IsWordChar(value[k])
      case NON_SPECIFIC => value == "" && suffix == ""
  }

  // Text

  datatype Prop = AnchorProp(name: string) | TagProp(tag: TagSpelling)

  /** What is written of a node's properties, in its order. */
  function PropList(p: Props): seq<Prop> {
    var anchor := if p.anchor == "" then [] else [AnchorProp(p.anchor)];
    var tag := if p.tag.NoTag? then [] else [TagProp(p.tag)];
    if p.anchorFirst then anchor + tag else tag + anchor
  }

  predicate PropOk(p: Prop) {
    match p
    case AnchorProp(name) => name != "" && NameOk(name)
    case TagProp(tag) => tag.Tag? && TagOk(tag)
  }

  function PropText(p: Prop): string {
    match p
    case AnchorProp(name) => "&" + name
    case TagProp(NoTag) => ""
    case TagProp(Tag(kind, value, suffix)) =>
      match kind
      case VERBATIM => "!<" + value + ">"
      case PRIMARY_HANDLE => "!" + value
      case SECONDARY_HANDLE => "!!" + value
      case NAMED_HANDLE => "!" + value + "!" + suffix
      case NON_SPECIFIC => "!"
  }

  function PropsText(ps: seq<Prop>): string {
    if ps == [] then "" else PropText(ps[0]) + (" " + PropsText(ps[1..]))
  }

  function InlineText(n: Inline): string
    decreases n, 1
  {
    match n
    case Ref(name) => "*" + name
    case Inline(props, body) => PropsText(PropList(props)) + BodyText(body)
  }

  function BodyText(b: Body): string
    decreases b, 1
  {
    match b
    case Word(text) => text
    case InQuotes(quote, pieces) => [QuoteChar(quote)] + (FlowFolding.Spelling(pieces) + [QuoteChar(quote)])
    case Bracketed(isMap, entries) => (if isMap then "{" else "[") + EntryTexts(entries) + (if isMap then "}" else "]")
  }

  /** The name of an alias would go on with a colon. */
  function KeyText(n: Inline): string
    decreases n, 2
  {
    InlineText(n) + if n.Ref? then " " else ""
  }

  function EntryText(e: Entry): string
    decreases e, 1
  {
    match e
    case Lone(node) => InlineText(node)
    case Both(key, value) => KeyText(key) + (": " + InlineText(value))
  }

  function EntryTexts(es: seq<Entry>): string
    decreases es, 0
  {
    if es == [] then "" else EntryText(es[0]) + (if |es| == 1 then "" else ", " + EntryTexts(es[1..]))
  }

  function SpaceText(n: nat): string {
    seq(n, i => ' ')
  }

  function NewLine(column: nat): string {
    "\n" + SpaceText(column)
  }

  /** In this column, with so many spaces behind an indicator and in front of an inner collection. */
  function BlockText(n: Block, column: nat, step: nat): string
    decreases n, 1
  {
    match n
    case Missing => ""
    case Leaf(line) => InlineText(line)
    case Entries(_, items) => EntriesText(items, column, step)
    case Pairs(pairs) => BlockPairsText(pairs, column, step)
  }

  function EntriesText(ns: seq<Block>, column: nat, step: nat): string
    decreases ns, 0
  {
    if ns == [] then ""
    else
      "-" + SpaceText(step) + BlockText(ns[0], column + 1 + step, step) +
      (if |ns| == 1 then "" else NewLine(column) + EntriesText(ns[1..], column, step))
  }

  function BlockPairText(p: BlockPair, column: nat, step: nat): string
    decreases p, 1
  {
    match p
    case BlockPair(key, value) => KeyText(key) + ":" + ValueText(value, column, step)
    case LongPair(node, value) =>
      "?" + SpaceText(step) + BlockText(node, column + 1 + step, step) + NewLine(column) +
      (":" + SpaceText(step) + BlockText(value, column + 1 + step, step))
  }

  function BlockPairsText(ps: seq<BlockPair>, column: nat, step: nat): string
    decreases ps, 0
  {
    if ps == [] then ""
    else BlockPairText(ps[0], column, step) + (if |ps| == 1 then "" else NewLine(column) + BlockPairsText(ps[1..], column, step))
  }

  function ValueText(n: Block, column: nat, step: nat): string
    decreases n, 2
  {
    if n.Missing? || n.Leaf? then SpaceText(step) + BlockText(n, column, step)
    else NewLine(ValueColumn(n, column, step)) + BlockText(n, ValueColumn(n, column, step), step)
  }

  function ValueColumn(n: Block, column: nat, step: nat): nat {
    if n.Entries? && n.flush then column else column + step
  }

  // What can be written

  /** No key is longer than 1024 characters. */
  predicate InlineOk(n: Inline)
    decreases n, 1
  {
    match n
    case Ref(name) => name != "" && NameOk(name)
    case Inline(props, body) => NameOk(props.anchor) && TagOk(props.tag) && CanBeWritten(body)
  }

  predicate CanBeWritten(b: Body)
    decreases b, 1
  {
    match b
    case Word(text) => WordOk(text)
    case InQuotes(quote, pieces) => FlowFolding.PiecesOk(pieces, quote)
    case Bracketed(isMap, entries) => forall i :: 0 <= i < |entries| ==> EntryOk(isMap, entries[i])
  }

  predicate EntryOk(isMap: bool, e: Entry)
    decreases e, 1
  {
    match e
    case Lone(node) => InlineOk(node) && (isMap ==> |InlineText(node)| <= 1024)
    case Both(key, value) => InlineOk(key) && InlineOk(value) && |KeyText(key)| <= 1024
  }

  /** And block collections are not empty. */
  predicate BlockOk(n: Block)
    decreases n, 1
  {
    match n
    case Missing => true
    case Leaf(line) => InlineOk(line)
    case Entries(_, items) => items != [] && forall i :: 0 <= i < |items| ==> BlockOk(items[i])
    case Pairs(pairs) =>
      pairs != [] && forall i :: 0 <= i < |pairs| ==> BlockPairOk(pairs[i])
  }

  predicate BlockPairOk(p: BlockPair)
    decreases p, 1
  {
    match p
    case BlockPair(key, value) => InlineOk(key) && BlockOk(value) && |KeyText(key)| <= 1024
    case LongPair(node, value) => BlockOk(node) && BlockOk(value)
  }

  // The same trees for the parser

  const NO_PROPS: Props := Props(NoTag, "", false)

  function InlineNode(n: Inline): Node
    decreases n, 1
  {
    match n
    case Ref(name) => Alias(name)
    case Inline(props, body) => Node(props, BodyContent(body))
  }

  function BodyContent(b: Body): Content
    decreases b, 1
  {
    match b
    case Word(text) => Content.Scalar(true, text)
    case InQuotes(_, pieces) => Content.Scalar(false, FlowFolding.Meaning(pieces))
    case Bracketed(isMap, entries) => if isMap then Mapping(false, PairsOf(entries)) else Content.Sequence(false, ItemsOf(entries))
  }

  function PairOf(e: Entry): TokenSpelling.Pair
    decreases e, 1
  {
    match e
    case Lone(node) => Pair(Present(InlineNode(node)), Present(Node(NO_PROPS, Nothing)))
    case Both(key, value) => Pair(Present(InlineNode(key)), Present(InlineNode(value)))
  }

  function ItemOf(e: Entry): Node
    decreases e, 2
  {
    match e
    case Lone(node) => InlineNode(node)
    case Both(_, _) => Node(NO_PROPS, Compact(PairOf(e)))
  }

  function ItemsOf(es: seq<Entry>): (r: seq<Node>)
    ensures |r| == |es|
    decreases es, 0
  {
    if es == [] then [] else [ItemOf(es[0])] + ItemsOf(es[1..])
  }

  function PairsOf(es: seq<Entry>): (r: seq<TokenSpelling.Pair>)
    ensures |r| == |es|
    decreases es, 0
  {
    if es == [] then [] else [PairOf(es[0])] + PairsOf(es[1..])
  }

  function BlockNode(n: Block): Node
    decreases n, 1
  {
    match n
    case Missing => Node(NO_PROPS, Nothing)
    case Leaf(line) => InlineNode(line)
    case Entries(_, items) => Node(NO_PROPS, Content.Sequence(true, EntryNodes(items)))
    case Pairs(pairs) => Node(NO_PROPS, Mapping(true, PairNodes(pairs)))
  }

  function EntryNodes(ns: seq<Block>): (r: seq<Node>)
    ensures |r| == |ns|
    decreases ns, 0
  {
    if ns == [] then [] else [BlockNode(ns[0])] + EntryNodes(ns[1..])
  }

  /** With nothing behind the question mark the colon belongs to the key, which is then a pair without a key of its own. */
  function BlockPairNode(p: BlockPair): TokenSpelling.Pair
    decreases p, 1
  {
    if p.LongPair? && p.node.Missing? then Pair(Present(NoKey(BlockNode(p.value))), Absent)
    else Pair(Present(KeyNode(p)), Present(BlockNode(p.value)))
  }

  function WordNode(w: string): Inline {
    Inline(NO_PROPS, Word(w))
  }

  function KeyNode(p: BlockPair): Node
    decreases p, 0
  {
    match p
    case BlockPair(key, _) => InlineNode(key)
    case LongPair(node, _) => BlockNode(node)
  }

  function PairNodes(ps: seq<BlockPair>): (r: seq<TokenSpelling.Pair>)
    ensures |r| == |ps|
    decreases ps, 0
  {
    if ps == [] then [] else [BlockPairNode(ps[0])] + PairNodes(ps[1..])
  }
}
