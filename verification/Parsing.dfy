/**
 * SingleDocParser as a function: the tokens of one document to the tree of the events it reports.
 * A thrown ParserException is the result Thrown. The parser object itself is in SingleDocParser.dfy.
 */
module Parsing {
  import opened Events
  import opened Tokens

  /** `kind` and `suffix` are the data and params[0] of a TAG token. */
  datatype Token = Token(kindOf: TokenType, value: string, kind: TagKind, suffix: string)

  datatype CollectionType = NoCollection | BlockMap | BlockSeq | FlowMap | FlowSeq | CompactMap

  type Directives = map<string, string>

  function TranslateTagHandle(tags: Directives, handle: string): string {
    if handle in tags then tags[handle] else if handle == "!!" then "tag:yaml.org,2002:" else handle
  }

  function TranslateTag(tags: Directives, token: Token): string {
    match token.kind
    case VERBATIM => token.value
    case PRIMARY_HANDLE => TranslateTagHandle(tags, "!") + token.value
    case SECONDARY_HANDLE => TranslateTagHandle(tags, "!!") + token.value
    case NAMED_HANDLE => TranslateTagHandle(tags, "!" + token.value + "!") + token.suffix
    case NON_SPECIFIC => "!"
  }

  predicate IsNullString(s: string) {
    s == "" || s == "~" || s == "null" || s == "Null" || s == "NULL"
  }

  const MAX_DEPTH := 500

  /** The parser's fields, with the tokens its scanner still holds. */
  datatype State = State(
    tokens: seq<Token>, tags: Directives, stack: seq<CollectionType>, anchors: map<string, Anchor>,
    curAnchor: Anchor, depth: nat)
  {
    predicate At(t: TokenType) {
      tokens != [] && tokens[0].kindOf == t
    }

    function Skip(): State
      requires tokens != []
    {
      this.(tokens := tokens[1..])
    }

    function Enter(c: CollectionType): State {
      this.(stack := stack + [c])
    }

    function Leave(): State
      requires stack != []
    {
      this.(stack := stack[..|stack| - 1])
    }

    function CurCollection(): CollectionType {
      if stack == [] then NoCollection else stack[|stack| - 1]
    }
  }

  datatype Parsed<T> = Thrown | Parsed(value: T, rest: State)

  datatype Properties = Properties(tag: string, anchor: Anchor, name: string)

  /** Grabs any tag and anchor tokens. */
  function ParseProperties(st: State, p: Properties): (r: Parsed<Properties>)
    ensures r.Parsed? ==> |r.rest.tokens| <= |st.tokens|
    decreases |st.tokens|
  {
    if st.At(TAG) then
      if p.tag != "" then Thrown
      else ParseProperties(st.Skip(), p.(tag := TranslateTag(st.tags, st.tokens[0])))
    else if st.At(ANCHOR) then
      if p.anchor != NULL_ANCHOR then Thrown
      else
        var name := st.tokens[0].value;
        if name == "" then ParseProperties(st.Skip(), p.(name := name))
        else
          var next := st.Skip().(curAnchor := st.curAnchor + 1, anchors := st.anchors[name := st.curAnchor + 1]);
          ParseProperties(next, p.(name := name, anchor := next.curAnchor))
    else Parsed(p, st)
  }

  /** HandleNode, inside its depth guard. */
  function ParseNode(st: State): (r: Parsed<Tree>)
    ensures r.Parsed? ==> |r.rest.tokens| <= |st.tokens|
    decreases |st.tokens|, 4
  {
    if MAX_DEPTH <= st.depth + 1 then Thrown
    else
      match ParseGuarded(st.(depth := st.depth + 1))
      case Thrown => Thrown
      case Parsed(t, rest) => Parsed(t, rest.(depth := st.depth))
  }

  function ParseGuarded(st: State): (r: Parsed<Tree>)
    ensures r.Parsed? ==> |r.rest.tokens| <= |st.tokens|
    decreases |st.tokens|, 3
  {
    if st.tokens == [] then Parsed(NullNode("", NULL_ANCHOR), st)
    else if st.At(VALUE) then
      match ParseCompactMapWithNoKey(st)
      case Thrown => Thrown
      case Parsed(items, rest) => Parsed(MapNode("", NULL_ANCHOR, "?", Default, items), rest)
    else if st.At(ALIAS) then
      var name := st.tokens[0].value;
      if name in st.anchors then Parsed(AliasOf(st.anchors[name]), st.Skip()) else Thrown
    else
      match ParseProperties(st, Properties("", NULL_ANCHOR, ""))
      case Thrown => Thrown
      case Parsed(p, rest) => ParseContent(rest, p)
  }

  /** What follows the properties: possibly nothing, and then a null or an empty tagged scalar. */
  function ParseContent(st: State, p: Properties): (r: Parsed<Tree>)
    ensures r.Parsed? ==> |r.rest.tokens| <= |st.tokens|
    decreases |st.tokens|, 2
  {
    if st.tokens == [] then Parsed(NullNode(p.name, p.anchor), st)
    else
      var token := st.tokens[0];
      var tag := if p.tag != "" then p.tag else if token.kindOf == NON_PLAIN_SCALAR then "!" else "?";
      if token.kindOf == PLAIN_SCALAR && tag == "?" && IsNullString(token.value) then
        Parsed(NullNode(p.name, p.anchor), st.Skip())
      else if token.kindOf == PLAIN_SCALAR || token.kindOf == NON_PLAIN_SCALAR then
        Parsed(ScalarNode(p.name, p.anchor, tag, token.value), st.Skip())
      else if token.kindOf == FLOW_SEQ_START then
        SequenceOf(p, tag, Flow, ParseFlowEntries(st.Skip().Enter(FlowSeq)))
      else if token.kindOf == BLOCK_SEQ_START then
        SequenceOf(p, tag, Block, ParseBlockEntries(st.Skip().Enter(BlockSeq)))
      else if token.kindOf == FLOW_MAP_START then
        MapOf(p, tag, Flow, ParseFlowPairs(st.Skip().Enter(FlowMap)))
      else if token.kindOf == BLOCK_MAP_START then
        MapOf(p, tag, Block, ParseBlockPairs(st.Skip().Enter(BlockMap)))
      else if token.kindOf == KEY && st.CurCollection() == FlowSeq then
        MapOf(p, tag, Flow, ParseCompactMap(st))
      else if tag == "?" then Parsed(NullNode(p.name, p.anchor), st)
      else Parsed(ScalarNode(p.name, p.anchor, tag, ""), st)
  }

  function SequenceOf(p: Properties, tag: string, style: Style, items: Parsed<seq<Tree>>): Parsed<Tree> {
    match items
    case Thrown => Thrown
    case Parsed(ts, rest) => Parsed(SequenceNode(p.name, p.anchor, tag, style, ts), rest)
  }

  function MapOf(p: Properties, tag: string, style: Style, items: Parsed<seq<Tree>>): Parsed<Tree> {
    match items
    case Thrown => Thrown
    case Parsed(ts, rest) => Parsed(MapNode(p.name, p.anchor, tag, style, ts), rest)
  }

  function Prepend(ts: seq<Tree>, more: Parsed<seq<Tree>>): Parsed<seq<Tree>> {
    match more
    case Thrown => Thrown
    case Parsed(us, rest) => Parsed(ts + us, rest)
  }

  /** The rest of a block sequence, from an entry or the end token on. */
  function ParseBlockEntries(st: State): (r: Parsed<seq<Tree>>)
    ensures r.Parsed? ==> |r.rest.tokens| <= |st.tokens|
    decreases |st.tokens|, 0
  {
    if st.At(BLOCK_SEQ_END) then if st.stack == [] then Thrown else Parsed([], st.Skip().Leave())
    else if !st.At(BLOCK_ENTRY) then Thrown
    else
      var next := st.Skip();
      if next.At(BLOCK_ENTRY) || next.At(BLOCK_SEQ_END) then
        Prepend([NullNode("", NULL_ANCHOR)], ParseBlockEntries(next))
      else
        match ParseNode(next)
        case Thrown => Thrown
        case Parsed(t, rest) => Prepend([t], ParseBlockEntries(rest))
  }

  /** The rest of a flow sequence, from a node or the end token on. */
  function ParseFlowEntries(st: State): (r: Parsed<seq<Tree>>)
    ensures r.Parsed? ==> |r.rest.tokens| <= |st.tokens|
    decreases |st.tokens|, 5
  {
    if st.tokens == [] then Thrown
    else if st.At(FLOW_SEQ_END) then if st.stack == [] then Thrown else Parsed([], st.Skip().Leave())
    else
      match ParseNode(st)
      case Thrown => Thrown
      case Parsed(t, rest) =>
        if rest.At(FLOW_ENTRY) then Prepend([t], ParseFlowEntries(rest.Skip()))
        else if rest.At(FLOW_SEQ_END) then
          if rest.stack == [] then Thrown else Parsed([t], rest.Skip().Leave())
        else Thrown
  }

  /** A key if there is one, and a null otherwise. */
  function ParseOptionalKey(st: State): (r: Parsed<Tree>)
    ensures r.Parsed? ==> |r.rest.tokens| <= |st.tokens|
    decreases |st.tokens|, 5
  {
    if st.At(KEY) then ParseNode(st.Skip()) else Parsed(NullNode("", NULL_ANCHOR), st)
  }

  /** A value if there is one, and a null otherwise. */
  function ParseOptionalValue(st: State): (r: Parsed<Tree>)
    ensures r.Parsed? ==> |r.rest.tokens| <= |st.tokens|
    decreases |st.tokens|, 5
  {
    if st.At(VALUE) then ParseNode(st.Skip()) else Parsed(NullNode("", NULL_ANCHOR), st)
  }

  function ParseBlockPairs(st: State): (r: Parsed<seq<Tree>>)
    ensures r.Parsed? ==> |r.rest.tokens| <= |st.tokens|
    decreases |st.tokens|, 6
  {
    if st.At(BLOCK_MAP_END) then if st.stack == [] then Thrown else Parsed([], st.Skip().Leave())
    else if !st.At(KEY) && !st.At(VALUE) then Thrown
    else
      match ParseOptionalKey(st)
      case Thrown => Thrown
      case Parsed(key, mid) =>
        match ParseOptionalValue(mid)
        case Thrown => Thrown
        case Parsed(value, rest) => Prepend([key, value], ParseBlockPairs(rest))
  }

  function ParseFlowPairs(st: State): (r: Parsed<seq<Tree>>)
    ensures r.Parsed? ==> |r.rest.tokens| <= |st.tokens|
    decreases |st.tokens|, 6
  {
    if st.tokens == [] then Thrown
    else if st.At(FLOW_MAP_END) then if st.stack == [] then Thrown else Parsed([], st.Skip().Leave())
    else
      match ParseOptionalKey(st)
      case Thrown => Thrown
      case Parsed(key, mid) =>
        match ParseOptionalValue(mid)
        case Thrown => Thrown
        case Parsed(value, rest) =>
          if rest.At(FLOW_ENTRY) then Prepend([key, value], ParseFlowPairs(rest.Skip()))
          else if rest.At(FLOW_MAP_END) then
            if rest.stack == [] then Thrown else Parsed([key, value], rest.Skip().Leave())
          else Thrown
  }

  /** A single "key: value" pair in a flow sequence. */
  function ParseCompactMap(st: State): (r: Parsed<seq<Tree>>)
    requires st.At(KEY)
    ensures r.Parsed? ==> |r.rest.tokens| <= |st.tokens|
    decreases |st.tokens|, 0
  {
    match ParseNode(st.Enter(CompactMap).Skip())
    case Thrown => Thrown
    case Parsed(key, mid) =>
      match ParseOptionalValue(mid)
      case Thrown => Thrown
      case Parsed(value, rest) => if rest.stack == [] then Thrown else Parsed([key, value], rest.Leave())
  }

  /** A single ": value" pair. */
  function ParseCompactMapWithNoKey(st: State): (r: Parsed<seq<Tree>>)
    requires st.At(VALUE)
    ensures r.Parsed? ==> |r.rest.tokens| <= |st.tokens|
    decreases |st.tokens|, 0
  {
    match ParseNode(st.Enter(CompactMap).Skip())
    case Thrown => Thrown
    case Parsed(value, rest) =>
      if rest.stack == [] then Thrown else Parsed([NullNode("", NULL_ANCHOR), value], rest.Leave())
  }
}
