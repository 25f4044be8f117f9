/**
 * What the tokens of a document mean, said of the way each node is spelled: properties in either order, tags by
 * handle, plain and quoted scalars, nodes left out, compact pairs. The parser reads every spelling as its meaning.
 */
module TokenSpelling {
  import opened Events
  import opened Tokens
  import opened Parsing
  import opened ParsingAhead

  datatype TagSpelling = NoTag | Tag(kind: TagKind, value: string, suffix: string)

  /** An empty anchor is none. */
  datatype Props = Props(tag: TagSpelling, anchor: string, anchorFirst: bool)

  datatype Node =
    | Alias(name: string)
    | NoKey(value: Node)
    | Node(props: Props, content: Content)

  /** Nothing at all, in front of another token or where the tokens end, or what is written. */
  datatype Content =
    | Nothing
    | Ended
    | Scalar(plain: bool, text: string)
    | Sequence(block: bool, entries: seq<Node>)
    | Mapping(block: bool, pairs: seq<Pair>)
    | Compact(pair: Pair)

  datatype Pair = Pair(key: Part, value: Part)

  /** A key or a value with its indicator. */
  datatype Part = Absent | Present(node: Node)

  // Tokens

  function Tok(t: TokenType): Token {
    Token(t, "", VERBATIM, "")
  }

  function TagTokens(t: TagSpelling): seq<Token> {
    if t.NoTag? then [] else [Token(TAG, t.value, t.kind, t.suffix)]
  }

  function AnchorTokens(name: string): seq<Token> {
    if name == "" then [] else [Token(ANCHOR, name, VERBATIM, "")]
  }

  function PropTokens(p: Props): seq<Token> {
    if p.anchorFirst then AnchorTokens(p.anchor) + TagTokens(p.tag) else TagTokens(p.tag) + AnchorTokens(p.anchor)
  }

  function NodeTokens(n: Node): seq<Token>
    decreases n, 1
  {
    match n
    case Alias(name) => [Token(ALIAS, name, VERBATIM, "")]
    case NoKey(value) => [Tok(VALUE)] + NodeTokens(value)
    case Node(props, content) => PropTokens(props) + ContentTokens(content)
  }

  function ContentTokens(c: Content): seq<Token>
    decreases c, 1
  {
    match c
    case Nothing => []
    case Ended => []
    case Scalar(plain, text) => [Token(if plain then PLAIN_SCALAR else NON_PLAIN_SCALAR, text, VERBATIM, "")]
    case Sequence(block, entries) =>
      if block then [Tok(BLOCK_SEQ_START)] + BlockEntryTokens(entries) + [Tok(BLOCK_SEQ_END)]
      else [Tok(FLOW_SEQ_START)] + FlowEntryTokens(entries) + [Tok(FLOW_SEQ_END)]
    case Mapping(block, pairs) =>
      if block then [Tok(BLOCK_MAP_START)] + BlockPairTokens(pairs) + [Tok(BLOCK_MAP_END)]
      else [Tok(FLOW_MAP_START)] + FlowPairTokens(pairs) + [Tok(FLOW_MAP_END)]
    case Compact(pair) => PairTokens(pair)
  }

  function PartTokens(indicator: TokenType, p: Part): seq<Token>
    decreases p, 1
  {
    if p.Absent? then [] else [Tok(indicator)] + NodeTokens(p.node)
  }

  function PairTokens(p: Pair): seq<Token>
    decreases p, 1
  {
    PartTokens(KEY, p.key) + PartTokens(VALUE, p.value)
  }

  function BlockEntryTokens(ns: seq<Node>): seq<Token>
    decreases ns, 0
  {
    if ns == [] then [] else [Tok(BLOCK_ENTRY)] + NodeTokens(ns[0]) + BlockEntryTokens(ns[1..])
  }

  function FlowEntryTokens(ns: seq<Node>): seq<Token>
    decreases ns, 0
  {
    if ns == [] then []
    else NodeTokens(ns[0]) + (if |ns| == 1 then [] else [Tok(FLOW_ENTRY)] + FlowEntryTokens(ns[1..]))
  }

  function BlockPairTokens(ps: seq<Pair>): seq<Token>
    decreases ps, 0
  {
    if ps == [] then [] else PairTokens(ps[0]) + BlockPairTokens(ps[1..])
  }

  function FlowPairTokens(ps: seq<Pair>): seq<Token>
    decreases ps, 0
  {
    if ps == [] then [] else PairTokens(ps[0]) + (if |ps| == 1 then [] else [Tok(FLOW_ENTRY)] + FlowPairTokens(ps[1..]))
  }

  // Meaning

  /** The anchors so far, and the prefixes that tag directives declared. */
  datatype Env = Env(anchors: map<string, Anchor>, cur: Anchor, tags: Directives)

  datatype Meant<T> = Bad | Means(value: T, env: Env)

  function Declared(tags: Directives, handle: string, otherwise: string): string {
    if handle in tags then tags[handle] else otherwise
  }

  /** Only the secondary handle stands for a prefix without being declared. */
  function Resolved(tags: Directives, t: TagSpelling): string {
    match t
    case NoTag => ""
    case Tag(VERBATIM, value, _) => value
    case Tag(PRIMARY_HANDLE, value, _) => Declared(tags, "!", "!") + value
    case Tag(SECONDARY_HANDLE, value, _) => Declared(tags, "!!", "tag:yaml.org,2002:") + value
    case Tag(NAMED_HANDLE, value, suffix) =>
      Declared(tags, "!" + value + "!", if value == "" then "tag:yaml.org,2002:" else "!" + value + "!") + suffix
    case Tag(NON_SPECIFIC, _, _) => "!"
  }

  function Announced(p: Props, env: Env): Env {
    if p.anchor == "" then env else Env(env.anchors[p.anchor := env.cur + 1], env.cur + 1, env.tags)
  }

  function AnchorOf(p: Props, env: Env): Anchor {
    if p.anchor == "" then NULL_ANCHOR else env.cur + 1
  }

  const NULLS: set<string> := {"", "~", "null", "Null", "NULL"}

  function NullTree(): Tree {
    NullNode("", NULL_ANCHOR)
  }

  /** What a node means that begins inside `depth` others; at 500 the parser gives up. */
  function Meaning(n: Node, env: Env, depth: nat): Meant<Tree>
    decreases n, 1
  {
    if depth + 1 >= 500 then Bad
    else
      match n
      case Alias(name) => if name in env.anchors then Means(AliasOf(env.anchors[name]), env) else Bad
      case NoKey(value) =>
        (match Meaning(value, env, depth + 1)
         case Bad => Bad
         case Means(v, env1) => Means(MapNode("", NULL_ANCHOR, "?", Default, [NullTree(), v]), env1))
      case Node(props, content) =>
        var tag := Resolved(env.tags, props.tag);
        ContentMeaning(content, props.anchor, AnchorOf(props, env),
                       if tag != "" then tag else if content.Scalar? && !content.plain then "!" else "?",
                       Announced(props, env), depth + 1)
  }

  /** A tag counts for a node left out only if another token follows. */
  function ContentMeaning(c: Content, name: string, anchor: Anchor, tag: string, env: Env, depth: nat): Meant<Tree>
    decreases c, 1
  {
    match c
    case Nothing => Means(if tag == "?" then NullNode(name, anchor) else ScalarNode(name, anchor, tag, ""), env)
    case Ended => Means(NullNode(name, anchor), env)
    case Scalar(plain, text) =>
      Means(if plain && tag == "?" && text in NULLS then NullNode(name, anchor) else ScalarNode(name, anchor, tag, text), env)
    case Sequence(block, entries) =>
      (match EntriesMeaning(entries, block, env, depth)
       case Bad => Bad
       case Means(ts, env1) => Means(SequenceNode(name, anchor, tag, if block then Block else Flow, ts), env1))
    case Mapping(block, pairs) =>
      (match PairsMeaning(pairs, env, depth)
       case Bad => Bad
       case Means(ts, env1) => Means(MapNode(name, anchor, tag, if block then Block else Flow, ts), env1))
    case Compact(pair) =>
      (match PairMeaning(pair, env, depth)
       case Bad => Bad
       case Means(ts, env1) => Means(MapNode(name, anchor, tag, Flow, ts), env1))
  }

  /** A block entry with nothing behind its dash is not counted as a level. */
  function EntryMeaning(n: Node, block: bool, env: Env, depth: nat): Meant<Tree>
    decreases n, 2
  {
    if block && n.Node? && n.content.Nothing? && PropTokens(n.props) == [] then Means(NullTree(), env) else Meaning(n, env, depth)
  }

  function EntriesMeaning(ns: seq<Node>, block: bool, env: Env, depth: nat): Meant<seq<Tree>>
    decreases ns, 0
  {
    if ns == [] then Means([], env)
    else
      match EntryMeaning(ns[0], block, env, depth)
      case Bad => Bad
      case Means(t, env1) =>
        match EntriesMeaning(ns[1..], block, env1, depth)
        case Bad => Bad
        case Means(ts, env2) => Means([t] + ts, env2)
  }

  function PartMeaning(p: Part, env: Env, depth: nat): Meant<Tree>
    decreases p, 1
  {
    if p.Absent? then Means(NullTree(), env) else Meaning(p.node, env, depth)
  }

  function PairMeaning(p: Pair, env: Env, depth: nat): Meant<seq<Tree>>
    decreases p, 1
  {
    match PartMeaning(p.key, env, depth)
    case Bad => Bad
    case Means(k, env1) =>
      match PartMeaning(p.value, env1, depth)
      case Bad => Bad
      case Means(v, env2) => Means([k, v], env2)
  }

  function PairsMeaning(ps: seq<Pair>, env: Env, depth: nat): Meant<seq<Tree>>
    decreases ps, 0
  {
    if ps == [] then Means([], env)
    else
      match PairMeaning(ps[0], env, depth)
      case Bad => Bad
      case Means(kv, env1) =>
        match PairsMeaning(ps[1..], env1, depth)
        case Bad => Bad
        case Means(ts, env2) => Means(kv + ts, env2)
  }

  // What may follow

  /** The token behind a node, if there is one. */
  datatype Next = End | Kind(kindOf: TokenType)

  function FirstOf(tokens: seq<Token>): Next {
    if tokens == [] then End else Kind(tokens[0].kindOf)
  }

  /** A node may be left out in front of this; inside a flow sequence a key begins a pair. */
  predicate Stops(next: Next, hasProps: bool, context: CollectionType) {
    next.Kind? &&
    match next.kindOf
    case KEY => context != FlowSeq
    case VALUE => hasProps
    case ALIAS => hasProps
    case DIRECTIVE => true
    case DOC_START => true
    case DOC_END => true
    case BLOCK_ENTRY => true
    case BLOCK_SEQ_END => true
    case BLOCK_MAP_END => true
    case FLOW_SEQ_END => true
    case FLOW_MAP_END => true
    case FLOW_MAP_COMPACT => true
    case FLOW_ENTRY => true
    case _ => false
  }

  predicate Fits(n: Node, context: CollectionType, next: Next)
    decreases n, 1
  {
    match n
    case Alias(_) => true
    case NoKey(value) => Fits(value, CompactMap, next)
    case Node(props, content) => ContentFits(content, PropTokens(props) != [], context, next)
  }

  predicate ContentFits(c: Content, hasProps: bool, context: CollectionType, next: Next)
    decreases c, 1
  {
    match c
    case Nothing => Stops(next, hasProps, context)
    case Ended => next.End?
    case Scalar(_, _) => true
    case Sequence(block, entries) => if block then BlockEntriesFit(entries) else FlowEntriesFit(entries)
    case Mapping(block, pairs) => if block then BlockPairsFit(pairs) else FlowPairsFit(pairs)
    case Compact(pair) => context == FlowSeq && pair.key.Present? && PairFits(pair, CompactMap, next) && next != Kind(VALUE)
  }

  predicate BlockEntriesFit(ns: seq<Node>)
    decreases ns, 0
  {
    ns == [] || (Fits(ns[0], BlockSeq, Kind(if |ns| == 1 then BLOCK_SEQ_END else BLOCK_ENTRY)) && BlockEntriesFit(ns[1..]))
  }

  /** The last entry of a flow sequence is not left out. */
  predicate FlowEntriesFit(ns: seq<Node>)
    decreases ns, 0
  {
    ns == [] ||
    (Fits(ns[0], FlowSeq, Kind(if |ns| == 1 then FLOW_SEQ_END else FLOW_ENTRY)) && (|ns| == 1 ==> NodeTokens(ns[0]) != []) && FlowEntriesFit(ns[1..]))
  }

  predicate PartFits(p: Part, context: CollectionType, next: Next)
    decreases p, 1
  {
    p.Present? ==> Fits(p.node, context, next)
  }

  predicate PairFits(p: Pair, context: CollectionType, next: Next)
    decreases p, 1
  {
    && PartFits(p.key, context, if p.value.Present? then Kind(VALUE) else next) && PartFits(p.value, context, next)
    && (p.value.Absent? ==> next != Kind(VALUE)) && (p.key.Absent? && p.value.Absent? ==> next != Kind(KEY))
  }

  function FirstOfPair(p: Pair): TokenType {
    if p.key.Present? then KEY else VALUE
  }

  predicate BlockPairsFit(ps: seq<Pair>)
    decreases ps, 0
  {
    if ps == [] then true
    else
      && (ps[0].key.Present? || ps[0].value.Present?)
      && PairFits(ps[0], BlockMap, Kind(if |ps| == 1 then BLOCK_MAP_END else FirstOfPair(ps[1])))
      && BlockPairsFit(ps[1..])
  }

  predicate FlowPairsFit(ps: seq<Pair>)
    decreases ps, 0
  {
    if ps == [] then true
    else
      && (|ps| == 1 ==> ps[0].key.Present? || ps[0].value.Present?)
      && PairFits(ps[0], FlowMap, Kind(if |ps| == 1 then FLOW_MAP_END else FLOW_ENTRY))
      && FlowPairsFit(ps[1..])
  }

  // Reading

  function EnvOf(st: State): Env {
    Env(st.anchors, st.curAnchor, st.tags)
  }

  function After(st: State, env: Env, rest: seq<Token>): State {
    st.(tokens := rest, anchors := env.anchors, curAnchor := env.cur)
  }

  /** What the parser does from st is what is meant, and it stops in front of `rest`. */
  ghost predicate Agrees<T(!new)>(r: Parsed<T>, m: Meant<T>, st: State, rest: seq<Token>) {
    match m
    case Bad => r.Thrown?
    case Means(value, env) => env.tags == st.tags && r == Parsed(value, After(st, env, rest))
  }

  /** The same at the end of a collection, whose entry leaves the stack. */
  ghost predicate ListAgrees(r: Parsed<seq<Tree>>, m: Meant<seq<Tree>>, st: State, rest: seq<Token>)
    requires st.stack != []
  {
    match m
    case Bad => r.Thrown?
    case Means(value, env) => env.tags == st.tags && r == Parsed(value, After(st, env, rest).Leave())
  }

  // Properties

  lemma TagIsTranslated(tags: Directives, t: TagSpelling)
    requires t.Tag?
    ensures TranslateTag(tags, TagTokens(t)[0]) == Resolved(tags, t)
  {
    if t.kind == NAMED_HANDLE {
      var handle := "!" + t.value + "!";
      assert |handle| == |t.value| + 2 && handle[1..|handle| - 1] == t.value;
      assert t.value == "" ==> handle == "!!";
    }
  }

  lemma TagReads(st: State, t: TagSpelling, rest: seq<Token>, p: Properties)
    requires st.tokens == TagTokens(t) + rest && p.tag == ""
    ensures ParseProperties(st, p) ==
            ParseProperties(st.(tokens := rest), p.(tag := Resolved(st.tags, t)))
  {
    if t.Tag? {
      TagIsTranslated(st.tags, t);
      hide TranslateTag, Resolved;
      assert st.Skip() == st.(tokens := rest);
    } else {
      assert st.tokens == rest;
      assert p.(tag := "") == p && st.(tokens := rest) == st;
    }
  }

  lemma AnchorReads(st: State, name: string, rest: seq<Token>, p: Properties)
    requires st.tokens == AnchorTokens(name) + rest && p.anchor == NULL_ANCHOR && p.name == ""
    ensures var env := Announced(Props(NoTag, name, false), EnvOf(st));
            ParseProperties(st, p) ==
            ParseProperties(After(st, env, rest), p.(name := name, anchor := AnchorOf(Props(NoTag, name, false), EnvOf(st))))
  {
    if name != "" {
      assert st.Skip() == st.(tokens := rest);
    } else {
      assert st.tokens == rest;
      assert p.(name := "", anchor := NULL_ANCHOR) == p;
    }
  }

  lemma PropsRead(st: State, props: Props, rest: seq<Token>)
    requires st.tokens == PropTokens(props) + rest && FirstOf(rest) != Kind(TAG) && FirstOf(rest) != Kind(ANCHOR)
    ensures ParseProperties(st, Properties("", NULL_ANCHOR, "")) ==
            Parsed(Properties(Resolved(st.tags, props.tag), AnchorOf(props, EnvOf(st)), props.anchor),
                   After(st, Announced(props, EnvOf(st)), rest))
  {
    var none := Properties("", NULL_ANCHOR, "");
    hide ParseProperties, TagTokens, AnchorTokens, Resolved;
    var tags, anchors := TagTokens(props.tag), AnchorTokens(props.anchor);
    if props.anchorFirst {
      assert anchors + tags + rest == anchors + (tags + rest);
      AnchorReads(st, props.anchor, tags + rest, none);
      var st1 := After(st, Announced(props, EnvOf(st)), tags + rest);
      TagReads(st1, props.tag, rest, none.(name := props.anchor, anchor := AnchorOf(props, EnvOf(st))));
    } else {
      assert tags + anchors + rest == tags + (anchors + rest);
      TagReads(st, props.tag, anchors + rest, none);
      AnchorReads(st.(tokens := anchors + rest), props.anchor, rest, none.(tag := Resolved(st.tags, props.tag)));
    }
    NoMoreProperties(After(st, Announced(props, EnvOf(st)), rest),
                     Properties(Resolved(st.tags, props.tag), AnchorOf(props, EnvOf(st)), props.anchor));
  }

  lemma NoMoreProperties(st: State, p: Properties)
    requires FirstOf(st.tokens) != Kind(TAG) && FirstOf(st.tokens) != Kind(ANCHOR)
    ensures ParseProperties(st, p) == Parsed(p, st)
  {
  }

  // Nodes

  /** A node that begins with properties or content. */
  lemma NodeIsContent(st: State, props: Props, rest: seq<Token>)
    requires st.depth + 1 < 500 && st.tokens == PropTokens(props) + rest && rest != []
    requires rest[0].kindOf != TAG && rest[0].kindOf != ANCHOR
    requires PropTokens(props) == [] ==> rest[0].kindOf != VALUE && rest[0].kindOf != ALIAS
    ensures ParseNode(st) ==
            match ParseContent(After(st, Announced(props, EnvOf(st)), rest).(depth := st.depth + 1),
                               Properties(Resolved(st.tags, props.tag), AnchorOf(props, EnvOf(st)), props.anchor))
            case Thrown => Thrown
            case Parsed(t, after) => Parsed(t, after.(depth := st.depth))
  {
    hide PropTokens, Resolved, ParseContent, ParseProperties, ParseNode;
    var st1 := st.(depth := st.depth + 1);
    PropsRead(st1, props, rest);
    if PropTokens(props) != [] {
      FirstProp(props, rest);
    } else {
      assert st.tokens == rest;
    }
    assert After(st1, Announced(props, EnvOf(st1)), rest) == After(st, Announced(props, EnvOf(st)), rest).(depth := st.depth + 1);
    NodeIsProperties(st);
  }

  lemma NodeIsProperties(st: State)
    requires st.depth + 1 < 500 && st.tokens != [] && !st.At(VALUE) && !st.At(ALIAS)
    ensures ParseNode(st) ==
            match ParseProperties(st.(depth := st.depth + 1), Properties("", NULL_ANCHOR, ""))
            case Thrown => Thrown
            case Parsed(p, rest) =>
              match ParseContent(rest, p)
              case Thrown => Thrown
              case Parsed(t, after) => Parsed(t, after.(depth := st.depth))
  {
    hide ParseContent, ParseProperties;
  }

  lemma FirstProp(props: Props, rest: seq<Token>)
    requires PropTokens(props) != []
    ensures (PropTokens(props) + rest)[0].kindOf in {TAG, ANCHOR}
  {
  }

  lemma {:induction false} NodeReads(n: Node, st: State, rest: seq<Token>)
    requires st.tokens == NodeTokens(n) + rest && Fits(n, st.CurCollection(), FirstOf(rest))
    ensures Agrees(ParseNode(st), Meaning(n, EnvOf(st), st.depth), st, rest)
    decreases n, 1
  {
    if st.depth + 1 < 500 {
      match n
      case Alias(name) => AliasReads(name, st, rest);
      case NoKey(value) =>
        hide ParseNode, Meaning;
        var inside := st.(depth := st.depth + 1, stack := st.stack + [CompactMap], tokens := NodeTokens(value) + rest);
        NodeReads(value, inside, rest);
        NoKeyReads(value, st, inside, rest);
      case Node(props, content) => ContentNodeReads(n, st, rest);
    }
  }

  /** A scalar without properties: what is null, and how the others are tagged. */
  lemma ScalarAlone(plain: bool, text: string, st: State, rest: seq<Token>)
    requires st.tokens == [Token(if plain then PLAIN_SCALAR else NON_PLAIN_SCALAR, text, VERBATIM, "")] + rest && st.depth + 1 < 500
    ensures ParseNode(st) ==
            Parsed(if plain && text in {"", "~", "null", "Null", "NULL"} then NullNode("", NULL_ANCHOR)
                   else ScalarNode("", NULL_ANCHOR, if plain then "?" else "!", text),
                   st.(tokens := rest))
  {
    hide ParseNode;
    var n := Node(Props(NoTag, "", false), Content.Scalar(plain, text));
    PlainScalarMeans(n, EnvOf(st), st.depth);
    hide Meaning, Fits;
    NodeReads(n, st, rest);
    assert After(st, EnvOf(st), rest) == st.(tokens := rest);
  }

  lemma PlainScalarMeans(n: Node, env: Env, depth: nat)
    requires n.Node? && n.props == Props(NoTag, "", false) && n.content.Scalar? && depth + 1 < 500
    ensures NodeTokens(n) == [Token(if n.content.plain then PLAIN_SCALAR else NON_PLAIN_SCALAR, n.content.text, VERBATIM, "")]
    ensures Meaning(n, env, depth) ==
            Means(if n.content.plain && n.content.text in {"", "~", "null", "Null", "NULL"} then NullTree()
                  else ScalarNode("", NULL_ANCHOR, if n.content.plain then "?" else "!", n.content.text), env)
    ensures forall context, next :: Fits(n, context, next)
  {
    assert [] + ContentTokens(n.content) == ContentTokens(n.content);
  }

  lemma AliasReads(name: string, st: State, rest: seq<Token>)
    requires st.tokens == NodeTokens(Node.Alias(name)) + rest && st.depth + 1 < 500
    ensures Agrees(ParseNode(st), Meaning(Node.Alias(name), EnvOf(st), st.depth), st, rest)
  {
    assert st.tokens[1..] == rest;
  }

  lemma NoKeyReads(value: Node, st: State, inside: State, rest: seq<Token>)
    requires st.tokens == NodeTokens(NoKey(value)) + rest && st.depth + 1 < 500
    requires inside == st.(depth := st.depth + 1, stack := st.stack + [CompactMap], tokens := NodeTokens(value) + rest)
    requires Agrees(ParseNode(inside), Meaning(value, EnvOf(inside), inside.depth), inside, rest)
    ensures Agrees(ParseNode(st), Meaning(NoKey(value), EnvOf(st), st.depth), st, rest)
  {
    hide NodeTokens, ParseNode, Meaning, ParseCompactMapWithNoKey;
    NoKeyTokens(value, rest);
    var st1 := st.(depth := st.depth + 1);
    assert st1.Enter(CompactMap).Skip() == inside;
    MeaningOfNoKey(value, EnvOf(st), st.depth);
    GuardedNoKey(st);
    CompactNoKey(st1, inside);
    assert inside.stack[..|inside.stack| - 1] == st.stack;
  }

  lemma GuardedNoKey(st: State)
    requires st.At(VALUE) && st.depth + 1 < 500
    ensures ParseNode(st) ==
            match ParseCompactMapWithNoKey(st.(depth := st.depth + 1))
            case Thrown => Thrown
            case Parsed(items, rest) => Parsed(MapNode("", NULL_ANCHOR, "?", Default, items), rest.(depth := st.depth))
  {
    hide ParseCompactMapWithNoKey, ParseProperties, ParseContent;
  }

  lemma CompactNoKey(st: State, inside: State)
    requires st.At(VALUE) && inside == st.Enter(CompactMap).Skip()
    ensures ParseCompactMapWithNoKey(st) ==
            match ParseNode(inside)
            case Thrown => Thrown
            case Parsed(value, rest) => if rest.stack == [] then Thrown else Parsed([NullTree(), value], rest.Leave())
  {
    hide ParseNode;
  }

  lemma NoKeyTokens(value: Node, rest: seq<Token>)
    ensures NodeTokens(NoKey(value)) + rest == [Tok(VALUE)] + (NodeTokens(value) + rest)
  {
  }

  lemma MeaningOfNoKey(value: Node, env: Env, depth: nat)
    requires depth + 1 < 500
    ensures Meaning(NoKey(value), env, depth) ==
            match Meaning(value, env, depth + 1)
            case Bad => Bad
            case Means(v, env1) => Means(MapNode("", NULL_ANCHOR, "?", Default, [NullTree(), v]), env1)
  {
  }

  /** The state behind a node's properties. */
  function Inside(st: State, props: Props, tokens: seq<Token>): State {
    After(st, Announced(props, EnvOf(st)), tokens).(depth := st.depth + 1)
  }

  function PropertiesOf(st: State, props: Props): Properties {
    Properties(Resolved(st.tags, props.tag), AnchorOf(props, EnvOf(st)), props.anchor)
  }

  lemma {:induction false} ContentNodeReads(n: Node, st: State, rest: seq<Token>)
    requires n.Node? && st.depth + 1 < 500 && st.tokens == NodeTokens(n) + rest && Fits(n, st.CurCollection(), FirstOf(rest))
    ensures Agrees(ParseNode(st), Meaning(n, EnvOf(st), st.depth), st, rest)
    decreases n, 0
  {
    hide ParseNode, ParseContent, ContentTokens, Resolved, ContentMeaning, PropTokens, AnchorOf, Announced;
    var props, content := n.props, n.content;
    var after := ContentTokens(content) + rest;
    assert st.tokens == PropTokens(props) + after;
    if content.Ended? {
      NothingAtEnd(n, st, rest);
    } else {
      SomethingFollows(content, PropTokens(props) != [], st.CurCollection(), rest);
      ContentBegins(content, PropTokens(props) != [], st.CurCollection(), rest);
      NodeIsContent(st, props, after);
      var mid := Inside(st, props, after);
      ContentReads(content, st, props, mid, rest);
      hide Fits, ContentFits;
      NodeMeans(n, st, mid, rest);
    }
  }

  lemma NodeMeans(n: Node, st: State, mid: State, rest: seq<Token>)
    requires n.Node? && st.depth + 1 < 500 && mid == Inside(st, n.props, mid.tokens)
    requires ParseNode(st) ==
             match ParseContent(mid, PropertiesOf(st, n.props))
             case Thrown => Thrown
             case Parsed(t, after) => Parsed(t, after.(depth := st.depth))
    requires Agrees(ParseContent(mid, PropertiesOf(st, n.props)), MeaningInside(n.content, st, n.props), mid, rest)
    ensures Agrees(ParseNode(st), Meaning(n, EnvOf(st), st.depth), st, rest)
  {
    hide ParseNode, ParseContent, ContentMeaning, Resolved, Announced, AnchorOf, Meaning, MeaningInside;
    MeaningOfNode(n, st);
    AnnouncedKeepsTags(n.props, EnvOf(st));
  }

  lemma MeaningOfNode(n: Node, st: State)
    requires n.Node? && st.depth + 1 < 500
    ensures Meaning(n, EnvOf(st), st.depth) == MeaningInside(n.content, st, n.props)
  {
    hide ContentMeaning, Resolved, Announced, AnchorOf;
  }

  lemma AnnouncedKeepsTags(props: Props, env: Env)
    ensures Announced(props, env).tags == env.tags
  {
  }

  /** What the content means behind the properties. */
  function MeaningInside(c: Content, st: State, props: Props): Meant<Tree> {
    var tag := Resolved(st.tags, props.tag);
    ContentMeaning(c, props.anchor, AnchorOf(props, EnvOf(st)),
                   if tag != "" then tag else if c.Scalar? && !c.plain then "!" else "?",
                   Announced(props, EnvOf(st)), st.depth + 1)
  }

  lemma ContentBegins(c: Content, hasProps: bool, context: CollectionType, rest: seq<Token>)
    requires ContentFits(c, hasProps, context, FirstOf(rest)) && ContentTokens(c) + rest != []
    ensures var first := (ContentTokens(c) + rest)[0].kindOf;
            first != TAG && first != ANCHOR && (!hasProps ==> first != VALUE && first != ALIAS)
  {
    hide BlockEntryTokens, FlowEntryTokens, BlockPairTokens, FlowPairTokens;
    hide BlockEntriesFit, FlowEntriesFit, BlockPairsFit, FlowPairsFit, PairFits;
    match c
    case Nothing => assert ContentTokens(c) + rest == rest;
    case Ended => assert false;
    case Compact(pair) => PairBegins(pair, rest);
    case _ =>
  }

  lemma SomethingFollows(c: Content, hasProps: bool, context: CollectionType, rest: seq<Token>)
    requires ContentFits(c, hasProps, context, FirstOf(rest)) && !c.Ended?
    ensures ContentTokens(c) + rest != []
  {
    hide BlockEntryTokens, FlowEntryTokens, BlockPairTokens, FlowPairTokens;
    hide BlockEntriesFit, FlowEntriesFit, BlockPairsFit, FlowPairsFit, PairFits;
    if c.Compact? {
      PairBegins(c.pair, rest);
    }
  }

  lemma NothingAtEnd(n: Node, st: State, rest: seq<Token>)
    requires n.Node? && st.depth + 1 < 500 && st.tokens == PropTokens(n.props) + ContentTokens(n.content) + rest
    requires n.content.Ended? && rest == []
    ensures Agrees(ParseNode(st), Meaning(n, EnvOf(st), st.depth), st, rest)
  {
    hide PropTokens, Resolved, ParseProperties, ParseNode, ParseContent;
    var st1 := st.(depth := st.depth + 1);
    assert st.tokens == PropTokens(n.props) == PropTokens(n.props) + [] by { assert ContentTokens(Ended) == []; }
    if PropTokens(n.props) == [] {
      NodeAtEnd(st);
      NoProps(n.props);
    } else {
      PropsRead(st1, n.props, []);
      FirstProp(n.props, []);
      NodeIsProperties(st);
      ContentAtEnd(After(st1, Announced(n.props, EnvOf(st1)), []), PropertiesOf(st, n.props));
    }
  }

  lemma NoProps(props: Props)
    requires PropTokens(props) == []
    ensures props.anchor == "" && props.tag.NoTag?
  {
    assert |PropTokens(props)| == |AnchorTokens(props.anchor)| + |TagTokens(props.tag)|;
  }

  lemma NodeAtEnd(st: State)
    requires st.depth + 1 < 500 && st.tokens == []
    ensures ParseNode(st) == Parsed(NullTree(), st)
  {
  }

  lemma ContentAtEnd(st: State, p: Properties)
    requires st.tokens == []
    ensures ParseContent(st, p) == Parsed(NullNode(p.name, p.anchor), st)
  {
  }

  // Content

  lemma {:induction false} ContentReads(c: Content, st: State, props: Props, mid: State, rest: seq<Token>)
    requires mid == Inside(st, props, ContentTokens(c) + rest) && mid.tokens != []
    requires ContentFits(c, PropTokens(props) != [], st.CurCollection(), FirstOf(rest))
    ensures Agrees(ParseContent(mid, PropertiesOf(st, props)), MeaningInside(c, st, props), mid, rest)
    decreases c, 1
  {
    hide Resolved, AnchorOf, Announced, PropTokens;
    match c
    case Nothing => NothingReads(st, props, mid, rest);
    case Ended => assert false;
    case Scalar(plain, text) => ScalarReads(c, st, props, mid, rest);
    case Sequence(block, entries) =>
      hide ParseContent, ContentMeaning, BlockEntryTokens, FlowEntryTokens, BlockEntriesFit, FlowEntriesFit, EntriesMeaning,
           ParseBlockEntries, ParseFlowEntries;
      var kind := if block then BlockSeq else FlowSeq;
      var inner := Opened(mid, kind);
      OpensList(mid, c, rest);
      if block {
        BlockEntriesRead(entries, inner, rest);
      } else {
        FlowEntriesRead(entries, inner, rest);
      }
      SequenceReads(c, st, props, mid, inner, rest);
    case Mapping(block, pairs) =>
      hide ParseContent, ContentMeaning, BlockPairTokens, FlowPairTokens, BlockPairsFit, FlowPairsFit, PairsMeaning,
           ParseBlockPairs, ParseFlowPairs;
      var kind := if block then BlockMap else FlowMap;
      var inner := Opened(mid, kind);
      OpensList(mid, c, rest);
      if block {
        BlockPairsRead(pairs, inner, rest);
      } else {
        FlowPairsRead(pairs, inner, rest);
      }
      MappingReads(c, st, props, mid, inner, rest);
    case Compact(pair) =>
      hide ParseContent, ContentMeaning, PairTokens, PairFits, PairMeaning, ParseCompactMap;
      CompactReads(pair, st, props, mid, rest);
  }

  function Opened(mid: State, kind: CollectionType): State
    requires mid.tokens != []
  {
    mid.Skip().Enter(kind)
  }

  /** What stands between the tokens of a collection. */
  function ListTokens(c: Content): seq<Token>
    requires c.Sequence? || c.Mapping?
  {
    match c
    case Sequence(block, entries) =>
      if block then BlockEntryTokens(entries) + [Tok(BLOCK_SEQ_END)] else FlowEntryTokens(entries) + [Tok(FLOW_SEQ_END)]
    case Mapping(block, pairs) => if block then BlockPairTokens(pairs) + [Tok(BLOCK_MAP_END)] else FlowPairTokens(pairs) + [Tok(FLOW_MAP_END)]
  }

  function StartOf(c: Content): TokenType
    requires c.Sequence? || c.Mapping?
  {
    if c.Sequence? then if c.block then BLOCK_SEQ_START else FLOW_SEQ_START else if c.block then BLOCK_MAP_START else FLOW_MAP_START
  }

  lemma OpensList(mid: State, c: Content, rest: seq<Token>)
    requires (c.Sequence? || c.Mapping?) && mid.tokens == ContentTokens(c) + rest
    ensures mid.tokens != [] && mid.tokens[0] == Tok(StartOf(c)) && mid.Skip().tokens == ListTokens(c) + rest
  {
    hide BlockEntryTokens, FlowEntryTokens, BlockPairTokens, FlowPairTokens;
    var first := [Tok(StartOf(c))];
    assert ContentTokens(c) == first + ListTokens(c) by {
      match c
      case Sequence(block, entries) =>
        if block {
          assert first + BlockEntryTokens(entries) + [Tok(BLOCK_SEQ_END)] == first + (BlockEntryTokens(entries) + [Tok(BLOCK_SEQ_END)]);
        } else {
          assert first + FlowEntryTokens(entries) + [Tok(FLOW_SEQ_END)] == first + (FlowEntryTokens(entries) + [Tok(FLOW_SEQ_END)]);
        }
      case Mapping(block, pairs) =>
        if block {
          assert first + BlockPairTokens(pairs) + [Tok(BLOCK_MAP_END)] == first + (BlockPairTokens(pairs) + [Tok(BLOCK_MAP_END)]);
        } else {
          assert first + FlowPairTokens(pairs) + [Tok(FLOW_MAP_END)] == first + (FlowPairTokens(pairs) + [Tok(FLOW_MAP_END)]);
        }
    }
    hide ContentTokens, ListTokens;
    assert first + ListTokens(c) + rest == first + (ListTokens(c) + rest);
  }

  lemma NothingReads(st: State, props: Props, mid: State, rest: seq<Token>)
    requires mid == Inside(st, props, [] + rest) && rest != [] && Stops(FirstOf(rest), PropTokens(props) != [], st.CurCollection())
    ensures Agrees(ParseContent(mid, PropertiesOf(st, props)), MeaningInside(Nothing, st, props), mid, rest)
  {
    hide Resolved, PropTokens, ParseContent, AnchorOf;
    NothingInFront(rest);
    LeftOut(mid, PropertiesOf(st, props));
    AnnouncedKeepsTags(props, EnvOf(st));
    hide Announced;
  }

  lemma LeftOut(mid: State, p: Properties)
    requires mid.tokens != [] && Stops(FirstOf(mid.tokens), true, mid.CurCollection())
    ensures ParseContent(mid, p) ==
            Parsed(if p.tag == "" || p.tag == "?" then NullNode(p.name, p.anchor) else ScalarNode(p.name, p.anchor, p.tag, ""), mid)
  {
    hide ParseFlowEntries, ParseBlockEntries, ParseFlowPairs, ParseBlockPairs, ParseCompactMap;
  }

  lemma ScalarReads(c: Content, st: State, props: Props, mid: State, rest: seq<Token>)
    requires c.Scalar? && mid == Inside(st, props, ContentTokens(c) + rest)
    ensures Agrees(ParseContent(mid, PropertiesOf(st, props)), MeaningInside(c, st, props), mid, rest)
  {
    hide Resolved;
    assert mid.Skip().tokens == rest;
  }

  /** A collection is what its items are. */
  lemma SequenceReads(c: Content, st: State, props: Props, mid: State, inner: State, rest: seq<Token>)
    requires c.Sequence? && mid == Inside(st, props, mid.tokens) && mid.tokens != [] && mid.tokens[0] == Tok(StartOf(c))
    requires inner == Opened(mid, if c.block then BlockSeq else FlowSeq)
    requires ListAgrees(if c.block then ParseBlockEntries(inner) else ParseFlowEntries(inner),
                        EntriesMeaning(c.entries, c.block, EnvOf(inner), inner.depth), inner, rest)
    ensures Agrees(ParseContent(mid, PropertiesOf(st, props)), MeaningInside(c, st, props), mid, rest)
  {
    hide Resolved, ParseBlockEntries, ParseFlowEntries, ParseBlockPairs, ParseFlowPairs, ParseCompactMap, EntriesMeaning;
    assert inner.stack[..|inner.stack| - 1] == mid.stack;
  }

  lemma MappingReads(c: Content, st: State, props: Props, mid: State, inner: State, rest: seq<Token>)
    requires c.Mapping? && mid == Inside(st, props, mid.tokens) && mid.tokens != [] && mid.tokens[0] == Tok(StartOf(c))
    requires inner == Opened(mid, if c.block then BlockMap else FlowMap)
    requires ListAgrees(if c.block then ParseBlockPairs(inner) else ParseFlowPairs(inner),
                        PairsMeaning(c.pairs, EnvOf(inner), inner.depth), inner, rest)
    ensures Agrees(ParseContent(mid, PropertiesOf(st, props)), MeaningInside(c, st, props), mid, rest)
  {
    hide Resolved, ParseBlockEntries, ParseFlowEntries, ParseBlockPairs, ParseFlowPairs, ParseCompactMap, PairsMeaning;
    assert inner.stack[..|inner.stack| - 1] == mid.stack;
  }

  // Entries

  lemma NodeBegins(n: Node, context: CollectionType, next: Next, rest: seq<Token>)
    requires Fits(n, context, next) && next.Kind?
    ensures NodeTokens(n) != [] ==>
              (NodeTokens(n) + rest)[0].kindOf !in {BLOCK_ENTRY, BLOCK_SEQ_END, BLOCK_MAP_END, FLOW_SEQ_END, FLOW_MAP_END, FLOW_ENTRY}
    ensures NodeTokens(n) == [] <==> n.Node? && n.content.Nothing? && PropTokens(n.props) == []
  {
    hide BlockEntryTokens, FlowEntryTokens, BlockPairTokens, FlowPairTokens, BlockEntriesFit, FlowEntriesFit, BlockPairsFit,
         FlowPairsFit, PairFits;
    match n
    case Node(props, content) =>
      if PropTokens(props) != [] {
        FirstProp(props, ContentTokens(content));
      } else {
        assert NodeTokens(n) == [] + ContentTokens(content) == ContentTokens(content);
        if content.Compact? {
          PairBegins(content.pair, rest);
        }
      }
    case _ =>
  }

  lemma BlockEntriesBegin(ns: seq<Node>, rest: seq<Token>)
    requires ns != []
    ensures BlockEntryTokens(ns) + [Tok(BLOCK_SEQ_END)] + rest ==
            [Tok(BLOCK_ENTRY)] + (NodeTokens(ns[0]) + (BlockEntryTokens(ns[1..]) + [Tok(BLOCK_SEQ_END)] + rest))
    ensures FirstOf(BlockEntryTokens(ns[1..]) + [Tok(BLOCK_SEQ_END)] + rest) == Kind(if |ns| == 1 then BLOCK_SEQ_END else BLOCK_ENTRY)
  {
    Regroup([Tok(BLOCK_ENTRY)], NodeTokens(ns[0]), BlockEntryTokens(ns[1..]), [Tok(BLOCK_SEQ_END)], rest);
    hide NodeTokens;
    assert |ns| > 1 ==> ns[1..] != [] && BlockEntryTokens(ns[1..])[0] == Tok(BLOCK_ENTRY);
  }

  lemma Regroup(sep: seq<Token>, first: seq<Token>, more: seq<Token>, end: seq<Token>, rest: seq<Token>)
    ensures sep + first + more + end + rest == sep + (first + (more + end + rest))
  {
  }

  /** A separator between one item and the others. */
  lemma Separated(first: seq<Token>, sep: seq<Token>, more: seq<Token>, end: seq<Token>, rest: seq<Token>)
    requires |sep| == 1
    ensures first + (sep + more) + end + rest == first + (sep + (more + end + rest))
    ensures (sep + (more + end + rest))[1..] == more + end + rest
  {
  }

  lemma LastOne(first: seq<Token>, end: seq<Token>, rest: seq<Token>)
    requires |end| == 1
    ensures first + [] + end + rest == first + (end + rest) && (end + rest)[1..] == rest
  {
  }

  lemma EntriesMeaningFirst(ns: seq<Node>, block: bool, env: Env, depth: nat)
    requires ns != []
    ensures EntriesMeaning(ns, block, env, depth) ==
            match EntryMeaning(ns[0], block, env, depth)
            case Bad => Bad
            case Means(t, env1) => Cons([t], EntriesMeaning(ns[1..], block, env1, depth))
  {
    hide EntryMeaning;
  }

  function Cons(ts: seq<Tree>, more: Meant<seq<Tree>>): Meant<seq<Tree>> {
    if more.Bad? then Bad else Means(ts + more.value, more.env)
  }

  /** One item and the others, from where the item ended. */
  lemma ListGoesOn(ts: seq<Tree>, env: Env, more: Parsed<seq<Tree>>, moreMeant: Meant<seq<Tree>>, st: State, mid: State, rest: seq<Token>)
    requires st.stack != [] && env.tags == st.tags && mid == After(st, env, mid.tokens) && ListAgrees(more, moreMeant, mid, rest)
    ensures ListAgrees(Prepend(ts, more), Cons(ts, moreMeant), st, rest)
  {
  }

  lemma {:induction false} BlockEntriesRead(ns: seq<Node>, st: State, rest: seq<Token>)
    requires st.tokens == BlockEntryTokens(ns) + [Tok(BLOCK_SEQ_END)] + rest
    requires st.stack != [] && st.CurCollection() == BlockSeq && BlockEntriesFit(ns)
    ensures ListAgrees(ParseBlockEntries(st), EntriesMeaning(ns, true, EnvOf(st), st.depth), st, rest)
    decreases ns, 0
  {
    hide ParseNode, Meaning, NodeTokens, ParseBlockEntries, EntriesMeaning, BlockEntryTokens, Fits, ListAgrees, EntryMeaning,
         BlockEntriesFit, Prepend, Cons;
    if ns == [] {
      NoBlockEntries(st, rest);
    } else {
      BlockEntriesBegin(ns, rest);
      EntriesMeaningFirst(ns, true, EnvOf(st), st.depth);
      var after := BlockEntryTokens(ns[1..]) + [Tok(BLOCK_SEQ_END)] + rest;
      var next := st.Skip();
      BlockEntryBegins(ns, st, next, after);
      BlockEntryStep(st, next);
      if NodeTokens(ns[0]) == [] {
        NothingInFront(after);
        BlockEntriesRead(ns[1..], next, rest);
        ListGoesOn([NullTree()], EnvOf(st), ParseBlockEntries(next), EntriesMeaning(ns[1..], true, EnvOf(next), next.depth), st, next, rest);
      } else {
        NodeReads(ns[0], next, after);
        var node := ParseNode(next);
        if node.Parsed? {
          BlockEntriesRead(ns[1..], node.rest, rest);
          ListGoesOn([node.value], EnvOf(node.rest), ParseBlockEntries(node.rest),
                     EntriesMeaning(ns[1..], true, EnvOf(node.rest), st.depth), st, node.rest, rest);
        } else {
          NothingIsBad(st, rest);
        }
      }
    }
  }

  lemma NoBlockEntries(st: State, rest: seq<Token>)
    requires st.stack != [] && st.tokens == BlockEntryTokens([]) + [Tok(BLOCK_SEQ_END)] + rest
    ensures ListAgrees(ParseBlockEntries(st), EntriesMeaning([], true, EnvOf(st), st.depth), st, rest)
  {
    OnlyTheEnd(BLOCK_SEQ_END, st, rest);
    hide ParseNode;
  }

  lemma OnlyTheEnd(end: TokenType, st: State, rest: seq<Token>)
    requires st.tokens == [] + [Tok(end)] + rest
    ensures st.At(end) && st.Skip() == After(st, EnvOf(st), rest)
  {
    assert st.tokens[1..] == rest;
  }

  lemma BlockEntryBegins(ns: seq<Node>, st: State, next: State, after: seq<Token>)
    requires ns != [] && BlockEntriesFit(ns) && st.tokens == [Tok(BLOCK_ENTRY)] + (NodeTokens(ns[0]) + after) && next == st.Skip()
    requires FirstOf(after) == Kind(if |ns| == 1 then BLOCK_SEQ_END else BLOCK_ENTRY)
    ensures next.tokens == NodeTokens(ns[0]) + after && Fits(ns[0], BlockSeq, FirstOf(after)) && BlockEntriesFit(ns[1..])
    ensures NodeTokens(ns[0]) == [] <==> next.At(BLOCK_ENTRY) || next.At(BLOCK_SEQ_END)
    ensures EntryMeaning(ns[0], true, EnvOf(st), st.depth) ==
            if NodeTokens(ns[0]) == [] then Means(NullTree(), EnvOf(st)) else Meaning(ns[0], EnvOf(st), st.depth)
  {
    hide Meaning, NodeTokens, Fits;
    NodeBegins(ns[0], BlockSeq, FirstOf(after), after);
    if NodeTokens(ns[0]) == [] {
      NothingInFront(after);
    }
  }

  lemma BlockEntryStep(st: State, next: State)
    requires st.At(BLOCK_ENTRY) && next == st.Skip()
    ensures ParseBlockEntries(st) ==
            if next.At(BLOCK_ENTRY) || next.At(BLOCK_SEQ_END) then Prepend([NullTree()], ParseBlockEntries(next))
            else
              match ParseNode(next)
              case Thrown => Thrown
              case Parsed(t, rest) => Prepend([t], ParseBlockEntries(rest))
  {
    hide ParseNode;
  }

  lemma FlowEntriesBegin(ns: seq<Node>, rest: seq<Token>)
    requires ns != []
    ensures var after := FlowAfter(ns, rest);
            && FlowEntryTokens(ns) + [Tok(FLOW_SEQ_END)] + rest == NodeTokens(ns[0]) + after
            && FirstOf(after) == Kind(if |ns| == 1 then FLOW_SEQ_END else FLOW_ENTRY)
            && after[1..] == if |ns| == 1 then rest else FlowEntryTokens(ns[1..]) + [Tok(FLOW_SEQ_END)] + rest
  {
    hide NodeTokens;
    LastOne(NodeTokens(ns[0]), [Tok(FLOW_SEQ_END)], rest);
    Separated(NodeTokens(ns[0]), [Tok(FLOW_ENTRY)], FlowEntryTokens(ns[1..]), [Tok(FLOW_SEQ_END)], rest);
  }

  /** What stands behind the first entry of a flow sequence. */
  function FlowAfter(ns: seq<Node>, rest: seq<Token>): seq<Token>
    requires ns != []
  {
    if |ns| == 1 then [Tok(FLOW_SEQ_END)] + rest else [Tok(FLOW_ENTRY)] + (FlowEntryTokens(ns[1..]) + [Tok(FLOW_SEQ_END)] + rest)
  }

  lemma NoFlowEntries(st: State, rest: seq<Token>)
    requires st.stack != [] && st.tokens == FlowEntryTokens([]) + [Tok(FLOW_SEQ_END)] + rest
    ensures ListAgrees(ParseFlowEntries(st), EntriesMeaning([], false, EnvOf(st), st.depth), st, rest)
  {
    OnlyTheEnd(FLOW_SEQ_END, st, rest);
    hide ParseNode, ParseOptionalKey, ParseOptionalValue;
  }

  lemma {:induction false} FlowEntriesRead(ns: seq<Node>, st: State, rest: seq<Token>)
    requires st.tokens == FlowEntryTokens(ns) + [Tok(FLOW_SEQ_END)] + rest
    requires st.stack != [] && st.CurCollection() == FlowSeq && FlowEntriesFit(ns)
    ensures ListAgrees(ParseFlowEntries(st), EntriesMeaning(ns, false, EnvOf(st), st.depth), st, rest)
    decreases ns, 0
  {
    hide ParseNode, Meaning, NodeTokens, ParseFlowEntries, EntriesMeaning, FlowEntryTokens, Fits, FlowAfter, ListAgrees;
    if ns == [] {
      NoFlowEntries(st, rest);
    } else {
      FlowEntriesBegin(ns, rest);
      EntriesMeaningFirst(ns, false, EnvOf(st), st.depth);
      var after := FlowAfter(ns, rest);
      FlowEntryBegins(ns, st, after);
      FlowEntryStep(st);
      NodeReads(ns[0], st, after);
      var node := ParseNode(st);
      if node.Parsed? {
        var mid := node.rest;
        if |ns| == 1 {
          NoEntriesMean(EnvOf(mid), st.depth, ns[1..]);
          ListEnds([node.value], st, mid, after, rest);
        } else {
          FlowEntriesRead(ns[1..], mid.Skip(), rest);
          ListGoesOn([node.value], EnvOf(mid), ParseFlowEntries(mid.Skip()), EntriesMeaning(ns[1..], false, EnvOf(mid), st.depth),
                     st, mid.Skip(), rest);
        }
      } else {
        NothingIsBad(st, rest);
      }
    }
  }

  lemma FlowEntryBegins(ns: seq<Node>, st: State, after: seq<Token>)
    requires ns != [] && FlowEntriesFit(ns) && st.tokens == NodeTokens(ns[0]) + after
    requires FirstOf(after) == Kind(if |ns| == 1 then FLOW_SEQ_END else FLOW_ENTRY)
    ensures st.tokens != [] && !st.At(FLOW_SEQ_END) && Fits(ns[0], FlowSeq, FirstOf(after))
    ensures EntryMeaning(ns[0], false, EnvOf(st), st.depth) == Meaning(ns[0], EnvOf(st), st.depth)
  {
    hide Meaning, NodeTokens, Fits;
    NodeBegins(ns[0], FlowSeq, FirstOf(after), after);
    if NodeTokens(ns[0]) == [] {
      NothingInFront(after);
    }
  }

  lemma NothingIsBad(st: State, rest: seq<Token>)
    requires st.stack != []
    ensures ListAgrees(Thrown, Bad, st, rest)
  {
  }

  lemma ListEnds(ts: seq<Tree>, st: State, mid: State, after: seq<Token>, rest: seq<Token>)
    requires st.stack != [] && mid == After(st, EnvOf(mid), after) && after != [] && after[1..] == rest
    ensures ListAgrees(Parsed(ts, mid.Skip().Leave()), Cons(ts, Means([], EnvOf(mid))), st, rest)
  {
    assert ts + [] == ts;
  }

  lemma NoEntriesMean(env: Env, depth: nat, ns: seq<Node>)
    requires ns == []
    ensures EntriesMeaning(ns, false, env, depth) == Means([], env)
  {
  }

  lemma FlowEntryStep(st: State)
    requires st.tokens != [] && !st.At(FLOW_SEQ_END)
    ensures ParseFlowEntries(st) ==
            match ParseNode(st)
            case Thrown => Thrown
            case Parsed(t, rest) =>
              if rest.At(FLOW_ENTRY) then Prepend([t], ParseFlowEntries(rest.Skip()))
              else if rest.At(FLOW_SEQ_END) then if rest.stack == [] then Thrown else Parsed([t], rest.Skip().Leave())
              else Thrown
  {
    hide ParseNode;
  }

  // Pairs

  lemma {:induction false} PartReads(p: Part, indicator: TokenType, st: State, rest: seq<Token>)
    requires indicator == KEY || indicator == VALUE
    requires st.tokens == PartTokens(indicator, p) + rest && PartFits(p, st.CurCollection(), FirstOf(rest))
    requires p.Absent? ==> FirstOf(rest) != Kind(indicator)
    ensures Agrees(if indicator == KEY then ParseOptionalKey(st) else ParseOptionalValue(st), PartMeaning(p, EnvOf(st), st.depth), st, rest)
    decreases p, 1
  {
    hide ParseNode, Meaning, NodeTokens, Fits;
    if p.Absent? {
      assert st.tokens == rest;
    } else {
      var next := st.Skip();
      assert next.tokens == NodeTokens(p.node) + rest;
      NodeReads(p.node, next, rest);
    }
  }

  /** Key and value, and where they end. */
  ghost predicate PairAgrees(p: Pair, st: State, rest: seq<Token>) {
    match ParseOptionalKey(st)
    case Thrown => PairMeaning(p, EnvOf(st), st.depth).Bad?
    case Parsed(key, mid) =>
      match ParseOptionalValue(mid)
      case Thrown => PairMeaning(p, EnvOf(st), st.depth).Bad?
      case Parsed(value, after) =>
        && after == After(st, EnvOf(after), rest) && PairMeaning(p, EnvOf(st), st.depth) == Means([key, value], EnvOf(after))
  }

  lemma {:induction false} PairReads(p: Pair, st: State, rest: seq<Token>)
    requires st.tokens == PairTokens(p) + rest && PairFits(p, st.CurCollection(), FirstOf(rest))
    ensures PairAgrees(p, st, rest)
    decreases p, 1
  {
    hide ParseOptionalKey, ParseOptionalValue, PartTokens, PartFits, PartMeaning;
    var values := PartTokens(VALUE, p.value) + rest;
    assert st.tokens == PartTokens(KEY, p.key) + values;
    ValueBegins(p.value, rest);
    PartReads(p.key, KEY, st, values);
    var key := ParseOptionalKey(st);
    if key.Parsed? {
      PartReads(p.value, VALUE, key.rest, rest);
    }
  }

  lemma ValueBegins(p: Part, rest: seq<Token>)
    ensures FirstOf(PartTokens(VALUE, p) + rest) == if p.Present? then Kind(VALUE) else FirstOf(rest)
  {
    if p.Absent? {
      assert PartTokens(VALUE, p) + rest == rest;
    }
  }

  lemma PairsMeaningFirst(ps: seq<Pair>, env: Env, depth: nat)
    requires ps != []
    ensures PairsMeaning(ps, env, depth) ==
            match PairMeaning(ps[0], env, depth)
            case Bad => Bad
            case Means(kv, env1) => Cons(kv, PairsMeaning(ps[1..], env1, depth))
  {
    hide PairMeaning;
  }

  lemma PairBegins(p: Pair, rest: seq<Token>)
    requires p.key.Present? || p.value.Present?
    ensures PairTokens(p) != [] && FirstOf(PairTokens(p) + rest) == Kind(FirstOfPair(p))
  {
    hide NodeTokens;
    if p.key.Absent? {
      assert PairTokens(p) == [] + PartTokens(VALUE, p.value) == PartTokens(VALUE, p.value);
    }
  }

  lemma BlockPairsBegin(ps: seq<Pair>, rest: seq<Token>)
    requires ps != [] && BlockPairsFit(ps)
    ensures var after := BlockPairTokens(ps[1..]) + [Tok(BLOCK_MAP_END)] + rest;
            && BlockPairTokens(ps) + [Tok(BLOCK_MAP_END)] + rest == PairTokens(ps[0]) + after
            && FirstOf(after) == Kind(if |ps| == 1 then BLOCK_MAP_END else FirstOfPair(ps[1]))
            && FirstOf(PairTokens(ps[0]) + after) == Kind(FirstOfPair(ps[0]))
  {
    hide PairTokens, PairFits;
    var end := [Tok(BLOCK_MAP_END)];
    PairBegins(ps[0], BlockPairTokens(ps[1..]) + end + rest);
    Regroup([], PairTokens(ps[0]), BlockPairTokens(ps[1..]), end, rest);
    NothingInFront(PairTokens(ps[0]));
    if |ps| > 1 {
      var others := ps[1..];
      PairBegins(ps[1], BlockPairTokens(others[1..]) + end + rest);
      Regroup([], PairTokens(ps[1]), BlockPairTokens(others[1..]), end, rest);
      NothingInFront(PairTokens(ps[1]));
      NothingInFront(PairTokens(ps[1]) + (BlockPairTokens(others[1..]) + end + rest));
    } else {
      NothingInFront(end + rest);
    }
    NothingInFront(PairTokens(ps[0]) + (BlockPairTokens(ps[1..]) + end + rest));
  }

  lemma NothingInFront(s: seq<Token>)
    ensures [] + s == s
  {
  }

  lemma BlockPairStep(st: State)
    requires st.At(KEY) || st.At(VALUE)
    ensures ParseBlockPairs(st) ==
            match ParseOptionalKey(st)
            case Thrown => Thrown
            case Parsed(key, mid) =>
              match ParseOptionalValue(mid)
              case Thrown => Thrown
              case Parsed(value, rest) => Prepend([key, value], ParseBlockPairs(rest))
  {
    hide ParseNode;
  }

  lemma NoBlockPairs(st: State, rest: seq<Token>)
    requires st.stack != [] && st.tokens == BlockPairTokens([]) + [Tok(BLOCK_MAP_END)] + rest
    ensures ListAgrees(ParseBlockPairs(st), PairsMeaning([], EnvOf(st), st.depth), st, rest)
  {
    OnlyTheEnd(BLOCK_MAP_END, st, rest);
    hide ParseNode, ParseOptionalKey, ParseOptionalValue;
  }

  lemma {:induction false} BlockPairsRead(ps: seq<Pair>, st: State, rest: seq<Token>)
    requires st.tokens == BlockPairTokens(ps) + [Tok(BLOCK_MAP_END)] + rest
    requires st.stack != [] && st.CurCollection() == BlockMap && BlockPairsFit(ps)
    ensures ListAgrees(ParseBlockPairs(st), PairsMeaning(ps, EnvOf(st), st.depth), st, rest)
    decreases ps, 0
  {
    hide ParseOptionalKey, ParseOptionalValue, PairMeaning, PairTokens, PairFits, ParseBlockPairs, PairsMeaning, BlockPairTokens,
         ListAgrees;
    if ps == [] {
      NoBlockPairs(st, rest);
    } else {
      BlockPairsBegin(ps, rest);
      PairsMeaningFirst(ps, EnvOf(st), st.depth);
      var after := BlockPairTokens(ps[1..]) + [Tok(BLOCK_MAP_END)] + rest;
      PairReads(ps[0], st, after);
      BlockPairStep(st);
      var key := ParseOptionalKey(st);
      if key.Parsed? {
        var value := ParseOptionalValue(key.rest);
        if value.Parsed? {
          BlockPairsRead(ps[1..], value.rest, rest);
          ListGoesOn([key.value, value.value], EnvOf(value.rest), ParseBlockPairs(value.rest),
                     PairsMeaning(ps[1..], EnvOf(value.rest), st.depth), st, value.rest, rest);
        } else {
          NothingIsBad(st, rest);
        }
      } else {
        NothingIsBad(st, rest);
      }
    }
  }

  function FlowPairAfter(ps: seq<Pair>, rest: seq<Token>): seq<Token>
    requires ps != []
  {
    if |ps| == 1 then [Tok(FLOW_MAP_END)] + rest else [Tok(FLOW_ENTRY)] + (FlowPairTokens(ps[1..]) + [Tok(FLOW_MAP_END)] + rest)
  }

  lemma FlowPairsBegin(ps: seq<Pair>, rest: seq<Token>)
    requires ps != [] && FlowPairsFit(ps)
    ensures var after := FlowPairAfter(ps, rest);
            && FlowPairTokens(ps) + [Tok(FLOW_MAP_END)] + rest == PairTokens(ps[0]) + after
            && FirstOf(after) == Kind(if |ps| == 1 then FLOW_MAP_END else FLOW_ENTRY)
            && after[1..] == (if |ps| == 1 then rest else FlowPairTokens(ps[1..]) + [Tok(FLOW_MAP_END)] + rest)
            && FirstOf(PairTokens(ps[0]) + after) != Kind(FLOW_MAP_END)
  {
    hide PairTokens, PairFits;
    if ps[0].key.Present? || ps[0].value.Present? {
      PairBegins(ps[0], FlowPairAfter(ps, rest));
    } else {
      EmptyPair(ps[0]);
      NothingInFront(FlowPairAfter(ps, rest));
    }
    LastOne(PairTokens(ps[0]), [Tok(FLOW_MAP_END)], rest);
    Separated(PairTokens(ps[0]), [Tok(FLOW_ENTRY)], FlowPairTokens(ps[1..]), [Tok(FLOW_MAP_END)], rest);
  }

  lemma EmptyPair(p: Pair)
    requires p.key.Absent? && p.value.Absent?
    ensures PairTokens(p) == []
  {
  }

  lemma FlowPairStep(st: State)
    requires st.tokens != [] && !st.At(FLOW_MAP_END)
    ensures ParseFlowPairs(st) ==
            match ParseOptionalKey(st)
            case Thrown => Thrown
            case Parsed(key, mid) =>
              match ParseOptionalValue(mid)
              case Thrown => Thrown
              case Parsed(value, rest) =>
                if rest.At(FLOW_ENTRY) then Prepend([key, value], ParseFlowPairs(rest.Skip()))
                else if rest.At(FLOW_MAP_END) then if rest.stack == [] then Thrown else Parsed([key, value], rest.Skip().Leave())
                else Thrown
  {
    hide ParseOptionalKey, ParseOptionalValue;
  }

  lemma NoFlowPairs(st: State, rest: seq<Token>)
    requires st.stack != [] && st.tokens == FlowPairTokens([]) + [Tok(FLOW_MAP_END)] + rest
    ensures ListAgrees(ParseFlowPairs(st), PairsMeaning([], EnvOf(st), st.depth), st, rest)
  {
    OnlyTheEnd(FLOW_MAP_END, st, rest);
    hide ParseNode, ParseOptionalKey, ParseOptionalValue;
  }

  lemma {:induction false} FlowPairsRead(ps: seq<Pair>, st: State, rest: seq<Token>)
    requires st.tokens == FlowPairTokens(ps) + [Tok(FLOW_MAP_END)] + rest
    requires st.stack != [] && st.CurCollection() == FlowMap && FlowPairsFit(ps)
    ensures ListAgrees(ParseFlowPairs(st), PairsMeaning(ps, EnvOf(st), st.depth), st, rest)
    decreases ps, 0
  {
    hide ParseOptionalKey, ParseOptionalValue, PairMeaning, PairTokens, PairFits, ParseFlowPairs, PairsMeaning, FlowPairTokens,
         FlowPairAfter, ListAgrees;
    if ps == [] {
      NoFlowPairs(st, rest);
    } else {
      FlowPairsBegin(ps, rest);
      PairsMeaningFirst(ps, EnvOf(st), st.depth);
      var after := FlowPairAfter(ps, rest);
      PairReads(ps[0], st, after);
      FlowPairStep(st);
      var key := ParseOptionalKey(st);
      if key.Parsed? {
        var value := ParseOptionalValue(key.rest);
        if value.Parsed? {
          var mid := value.rest;
          if |ps| == 1 {
            NoPairsMean(EnvOf(mid), st.depth, ps[1..]);
            ListEnds([key.value, value.value], st, mid, after, rest);
          } else {
            FlowPairsRead(ps[1..], mid.Skip(), rest);
            ListGoesOn([key.value, value.value], EnvOf(mid), ParseFlowPairs(mid.Skip()),
                       PairsMeaning(ps[1..], EnvOf(mid), st.depth), st, mid.Skip(), rest);
          }
        } else {
          NothingIsBad(st, rest);
        }
      } else {
        NothingIsBad(st, rest);
      }
    }
  }

  lemma NoPairsMean(env: Env, depth: nat, ps: seq<Pair>)
    requires ps == []
    ensures PairsMeaning(ps, env, depth) == Means([], env)
  {
  }

  lemma {:induction false} CompactReads(pair: Pair, st: State, props: Props, mid: State, rest: seq<Token>)
    requires mid == Inside(st, props, ContentTokens(Compact(pair)) + rest)
    requires ContentFits(Compact(pair), PropTokens(props) != [], st.CurCollection(), FirstOf(rest))
    ensures Agrees(ParseContent(mid, PropertiesOf(st, props)), MeaningInside(Compact(pair), st, props), mid, rest)
    decreases pair, 2
  {
    hide Resolved, AnchorOf, Announced, PropTokens, ParseOptionalKey, ParseOptionalValue, PairTokens, PairMeaning, PairFits,
         ParseContent, ParseCompactMap, ContentMeaning;
    PairBegins(pair, rest);
    PairReads(pair, mid.Enter(CompactMap), rest);
    CompactPair(pair, mid, rest);
    CompactIsContent(mid, PropertiesOf(st, props));
    CompactMeans(pair, st, props, mid, rest);
  }

  lemma CompactPair(pair: Pair, mid: State, rest: seq<Token>)
    requires mid.At(KEY) && PairAgrees(pair, mid.Enter(CompactMap), rest)
    ensures Agrees(ParseCompactMap(mid), PairMeaning(pair, EnvOf(mid), mid.depth), mid, rest)
  {
    hide ParseOptionalKey, ParseOptionalValue, PairMeaning, ParseCompactMap;
    var inner := mid.Enter(CompactMap);
    CompactStep(mid, inner);
    assert inner.stack[..|inner.stack| - 1] == mid.stack;
    assert EnvOf(inner) == EnvOf(mid) && inner.depth == mid.depth;
  }

  lemma CompactMeans(pair: Pair, st: State, props: Props, mid: State, rest: seq<Token>)
    requires mid == Inside(st, props, mid.tokens) && mid.At(KEY)
    requires Agrees(ParseCompactMap(mid), PairMeaning(pair, EnvOf(mid), mid.depth), mid, rest)
    requires ParseContent(mid, PropertiesOf(st, props)) ==
             MapOf(PropertiesOf(st, props), if PropertiesOf(st, props).tag != "" then PropertiesOf(st, props).tag else "?", Flow, ParseCompactMap(mid))
    ensures Agrees(ParseContent(mid, PropertiesOf(st, props)), MeaningInside(Compact(pair), st, props), mid, rest)
  {
    hide Resolved, ParseContent, ParseCompactMap, PairMeaning;
  }

  lemma CompactStep(mid: State, inner: State)
    requires mid.At(KEY) && inner == mid.Enter(CompactMap)
    ensures ParseCompactMap(mid) ==
            match ParseOptionalKey(inner)
            case Thrown => Thrown
            case Parsed(key, next) =>
              match ParseOptionalValue(next)
              case Thrown => Thrown
              case Parsed(value, rest) => if rest.stack == [] then Thrown else Parsed([key, value], rest.Leave())
  {
    hide ParseNode, ParseOptionalValue;
  }

  lemma CompactIsContent(mid: State, p: Properties)
    requires mid.At(KEY) && mid.CurCollection() == FlowSeq
    ensures ParseContent(mid, p) == MapOf(p, if p.tag != "" then p.tag else "?", Flow, ParseCompactMap(mid))
  {
    hide ParseCompactMap;
  }
}
