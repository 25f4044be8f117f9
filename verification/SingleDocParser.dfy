/** The parser object: what its methods do to its fields and to the handler is what Parsing says. */
module SingleDocParsing {
  import opened Events
  import opened Tokens
  import opened Parsing
  import opened ParsingLemmas

  /** A node was handled as r says; after an exception the handler has kept the events it already got. */
  ghost predicate NodeOutcome(
      r: Parsed<Tree>, ok: bool, tree: Tree, now: State, before: seq<Event>, events: seq<Event>)
  {
    match r
    case Thrown => !ok && before <= events
    case Parsed(t, rest) => ok && tree == t && now == rest && events == before + Flatten(t)
  }

  ghost predicate ListOutcome(
      r: Parsed<seq<Tree>>, ok: bool, trees: seq<Tree>, now: State, before: seq<Event>, events: seq<Event>)
  {
    match r
    case Thrown => !ok && before <= events
    case Parsed(ts, rest) => ok && trees == ts && now == rest && events == before + FlattenAll(ts)
  }

  /** Inside a loop that started as r0: `done` has been delivered, r is what the loop still has to do. */
  ghost predicate Remaining(
      r0: Parsed<seq<Tree>>, done: seq<Tree>, r: Parsed<seq<Tree>>, before: seq<Event>, events: seq<Event>)
  {
    r0 == Prepend(done, r) && events == before + FlattenAll(done)
  }

  lemma RemainingAtFirst(r: Parsed<seq<Tree>>, before: seq<Event>)
    ensures Remaining(r, [], r, before, before)
  {
    if r.Parsed? {
      assert [] + r.value == r.value;
    }
    assert before + FlattenAll([]) == before;
  }

  lemma RemainingThrown(
      r0: Parsed<seq<Tree>>, done: seq<Tree>, r: Parsed<seq<Tree>>, before: seq<Event>, events: seq<Event>, more: seq<Event>)
    requires Remaining(r0, done, r, before, events) && r.Thrown? && events <= more
    ensures r0.Thrown? && before <= more
  {
  }

  lemma RemainingMore(
      r0: Parsed<seq<Tree>>, done: seq<Tree>, t: Tree, r: Parsed<seq<Tree>>, before: seq<Event>, events: seq<Event>)
    requires Remaining(r0, done, Prepend([t], r), before, events)
    ensures Remaining(r0, done + [t], r, before, events + Flatten(t))
  {
    FlattenAllAppend(done, t);
    if r.Parsed? {
      assert done + ([t] + r.value) == done + [t] + r.value;
    }
    assert before + FlattenAll(done) + Flatten(t) == before + (FlattenAll(done) + Flatten(t));
  }

  lemma RemainingTwo(
      r0: Parsed<seq<Tree>>, done: seq<Tree>, t: Tree, u: Tree, r: Parsed<seq<Tree>>, before: seq<Event>, events: seq<Event>)
    requires Remaining(r0, done, Prepend([t, u], r), before, events)
    ensures Remaining(r0, done + [t, u], r, before, events + Flatten(t) + Flatten(u))
  {
    if r.Parsed? {
      assert [t] + ([u] + r.value) == [t, u] + r.value;
    }
    RemainingMore(r0, done, t, Prepend([u], r), before, events);
    RemainingMore(r0, done + [t], u, r, before, events + Flatten(t));
    assert done + [t] + [u] == done + [t, u];
  }

  lemma FlattenTwo(t: Tree, u: Tree, before: seq<Event>)
    ensures before + Flatten(t) + Flatten(u) == before + FlattenAll([t, u])
  {
    FlattenAllAppend([t], u);
    FlattenAllAppend([], t);
    assert [t] + [u] == [t, u] && [] + [t] == [t];
    assert before + Flatten(t) + Flatten(u) == before + (Flatten(t) + Flatten(u));
  }

  /** A pair that starts with a key or a value token takes at least that token. */
  lemma KeyOrValueIsConsumed(st: State)
    requires st.At(KEY) || st.At(VALUE)
    ensures var k := ParseOptionalKey(st);
            k.Parsed? ==>
              var v := ParseOptionalValue(k.rest);
              v.Parsed? ==> |v.rest.tokens| < |st.tokens|
  {
  }

  lemma RemainingDone(
      r0: Parsed<seq<Tree>>, done: seq<Tree>, rest: State, before: seq<Event>, events: seq<Event>)
    requires Remaining(r0, done, Parsed([], rest), before, events)
    ensures ListOutcome(r0, true, done, rest, before, events)
  {
    assert done + [] == done;
  }

  class SingleDocParser {
    var tokens: seq<Token>
    const directives: Directives
    var collectionStack: seq<CollectionType>
    var anchors: map<string, Anchor>
    var curAnchor: Anchor
    var depth: nat

    ghost function Now(): State
      reads this
    {
      State(tokens, directives, collectionStack, anchors, curAnchor, depth)
    }

    constructor (tokens: seq<Token>, directives: Directives)
      ensures Now() == State(tokens, directives, [], map[], 0, 0)
    {
      this.tokens, this.directives := tokens, directives;
      collectionStack, anchors, curAnchor, depth := [], map[], 0, 0;
    }

    predicate NextIs(t: TokenType)
      reads this
    {
      tokens != [] && tokens[0].kindOf == t
    }

    method Pop()
      requires tokens != []
      modifies this`tokens
      ensures Now() == old(Now()).Skip()
    {
      tokens := tokens[1..];
    }

    method PushCollectionType(c: CollectionType)
      modifies this`collectionStack
      ensures Now() == old(Now()).Enter(c)
    {
      collectionStack := collectionStack + [c];
    }

    /** Asserts that the collection left is the one entered last. */
    method PopCollectionType(c: CollectionType)
      requires Now().CurCollection() == c != NoCollection
      modifies this`collectionStack
      ensures Now() == old(Now()).Leave()
    {
      collectionStack := collectionStack[..|collectionStack| - 1];
    }

    /** A null the parser makes up for a missing node. */
    method DeliverNull(handler: EventLog)
      modifies handler
      ensures handler.events == old(handler.events) + Flatten(NullNode("", NULL_ANCHOR))
    {
      handler.Record(Null(NULL_ANCHOR));
    }

    method HandleBlockSequence(handler: EventLog) returns (ok: bool, ghost trees: seq<Tree>)
      requires Good(Now()) && NextIs(BLOCK_SEQ_START)
      modifies this, handler
      ensures ListOutcome(ParseBlockEntries(old(Now()).Skip().Enter(BlockSeq)), ok, trees, Now(),
                          old(handler.events), handler.events)
      decreases |tokens|, 1, 0
    {
      hide ParseBlockEntries, ParseNode, Remaining;
      CollectionEnters(Now(), BlockSeq);
      Pop();
      PushCollectionType(BlockSeq);
      ghost var start, before := Now(), handler.events;
      ghost var r0 := ParseBlockEntries(start);
      trees := [];
      RemainingAtFirst(r0, before);
      while true
        invariant Good(Now()) && SameContext(start, Now()) && |tokens| < old(|tokens|)
        invariant Remaining(r0, trees, ParseBlockEntries(Now()), before, handler.events)
        decreases |tokens|
      {
        ghost var here, logged := Now(), handler.events;
        BlockEntriesEnd(here);
        if tokens == [] || (tokens[0].kindOf != BLOCK_ENTRY && tokens[0].kindOf != BLOCK_SEQ_END) {
          RemainingThrown(r0, trees, ParseBlockEntries(here), before, logged, logged);
          return false, trees;
        }
        var token := tokens[0];
        Pop();
        if token.kindOf == BLOCK_SEQ_END {
          RemainingDone(r0, trees, here.Skip().Leave(), before, logged);
          break;
        }
        ghost var item := NullNode("", NULL_ANCHOR);
        if NextIs(BLOCK_ENTRY) || NextIs(BLOCK_SEQ_END) {
          DeliverNull(handler);
        } else {
          NodeIsWellNested(Now());
          var done;
          done, item := HandleNode(handler);
          if !done {
            RemainingThrown(r0, trees, ParseBlockEntries(here), before, logged, handler.events);
            return false, trees;
          }
          BlockEntriesStep(here, item, Now());
        }
        RemainingMore(r0, trees, item, ParseBlockEntries(Now()), before, logged);
        trees := trees + [item];
      }
      PopCollectionType(BlockSeq);
      return true, trees;
    }

    method HandleFlowSequence(handler: EventLog) returns (ok: bool, ghost trees: seq<Tree>)
      requires Good(Now()) && NextIs(FLOW_SEQ_START)
      modifies this, handler
      ensures ListOutcome(ParseFlowEntries(old(Now()).Skip().Enter(FlowSeq)), ok, trees, Now(),
                          old(handler.events), handler.events)
      decreases |tokens|, 1, 0
    {
      hide ParseFlowEntries, ParseNode, Prepend, Remaining, Numbered, NumberedAll, Paired, Flatten, FlattenAll, AnchorCount, Good;
      CollectionEnters(Now(), FlowSeq);
      Pop();
      PushCollectionType(FlowSeq);
      ghost var start, before := Now(), handler.events;
      ghost var r0 := ParseFlowEntries(start);
      trees := [];
      RemainingAtFirst(r0, before);
      while true
        invariant Good(Now()) && SameContext(start, Now()) && |tokens| < old(|tokens|)
        invariant Remaining(r0, trees, ParseFlowEntries(Now()), before, handler.events)
        decreases |tokens|, if NextIs(FLOW_SEQ_END) then 0 else 1
      {
        ghost var here, logged := Now(), handler.events;
        FlowEntriesEnd(here);
        if tokens == [] {
          RemainingThrown(r0, trees, ParseFlowEntries(here), before, logged, logged);
          return false, trees;
        }
        if NextIs(FLOW_SEQ_END) {
          Pop();
          RemainingDone(r0, trees, here.Skip().Leave(), before, logged);
          break;
        }
        NodeIsWellNested(here);
        var done;
        ghost var item;
        done, item := HandleNode(handler);
        if done {
          FlowEntriesStep(here, item, Now());
          FlowEntriesEnd(Now());
        }
        if !done || (!NextIs(FLOW_ENTRY) && !NextIs(FLOW_SEQ_END)) {
          RemainingThrown(r0, trees, ParseFlowEntries(here), before, logged, handler.events);
          return false, trees;
        }
        if NextIs(FLOW_ENTRY) {
          SkippedStaysGood(Now());
          Pop();
        }
        RemainingMore(r0, trees, item, ParseFlowEntries(Now()), before, logged);
        trees := trees + [item];
      }
      PopCollectionType(FlowSeq);
      return true, trees;
    }

    method HandleOptionalKey(handler: EventLog) returns (ok: bool, ghost tree: Tree)
      requires Good(Now())
      modifies this, handler
      ensures NodeOutcome(ParseOptionalKey(old(Now())), ok, tree, Now(), old(handler.events), handler.events)
      decreases |tokens|, 5
    {
      if NextIs(KEY) {
        Pop();
        ok, tree := HandleNode(handler);
      } else {
        DeliverNull(handler);
        ok, tree := true, NullNode("", NULL_ANCHOR);
      }
    }

    method HandleOptionalValue(handler: EventLog) returns (ok: bool, ghost tree: Tree)
      requires Good(Now())
      modifies this, handler
      ensures NodeOutcome(ParseOptionalValue(old(Now())), ok, tree, Now(), old(handler.events), handler.events)
      decreases |tokens|, 5
    {
      if NextIs(VALUE) {
        Pop();
        ok, tree := HandleNode(handler);
      } else {
        DeliverNull(handler);
        ok, tree := true, NullNode("", NULL_ANCHOR);
      }
    }

    method HandlePair(handler: EventLog) returns (ok: bool, ghost key: Tree, ghost value: Tree)
      requires Good(Now())
      modifies this, handler
      ensures old(handler.events) <= handler.events
      ensures var k := ParseOptionalKey(old(Now()));
              if k.Parsed? && ParseOptionalValue(k.rest).Parsed? then
                && ok && k.value == key && ParseOptionalValue(k.rest) == Parsed(value, Now())
                && handler.events == old(handler.events) + Flatten(key) + Flatten(value)
                && Good(Now()) && SameContext(old(Now()), Now())
              else !ok
      decreases |tokens|, 6
    {
      hide ParseOptionalKey, ParseOptionalValue;
      OptionalKeyIsWellNested(Now());
      ok, key := HandleOptionalKey(handler);
      value := key;
      if ok {
        OptionalValueIsWellNested(Now());
        ok, value := HandleOptionalValue(handler);
      }
    }

    method HandleBlockMap(handler: EventLog) returns (ok: bool, ghost trees: seq<Tree>)
      requires Good(Now()) && NextIs(BLOCK_MAP_START)
      modifies this, handler
      ensures ListOutcome(ParseBlockPairs(old(Now()).Skip().Enter(BlockMap)), ok, trees, Now(),
                          old(handler.events), handler.events)
      decreases |tokens|, 1, 0
    {
      hide ParseBlockPairs, ParseOptionalKey, ParseOptionalValue, Remaining;
      CollectionEnters(Now(), BlockMap);
      Pop();
      PushCollectionType(BlockMap);
      ghost var start, before := Now(), handler.events;
      ghost var r0 := ParseBlockPairs(start);
      trees := [];
      RemainingAtFirst(r0, before);
      while true
        invariant Good(Now()) && SameContext(start, Now()) && |tokens| < old(|tokens|)
        invariant Remaining(r0, trees, ParseBlockPairs(Now()), before, handler.events)
        decreases |tokens|
      {
        ghost var here, logged := Now(), handler.events;
        BlockPairsEnd(here);
        if !NextIs(KEY) && !NextIs(VALUE) && !NextIs(BLOCK_MAP_END) {
          RemainingThrown(r0, trees, ParseBlockPairs(here), before, logged, logged);
          return false, trees;
        }
        if NextIs(BLOCK_MAP_END) {
          Pop();
          RemainingDone(r0, trees, here.Skip().Leave(), before, logged);
          break;
        }
        var done;
        ghost var key, value;
        KeyOrValueIsConsumed(here);
        done, key, value := HandlePair(handler);
        if done {
          BlockPairsStep(here, key, ParseOptionalKey(here).rest, value, Now());
        } else {
          PairsThrown(here);
        }
        if !done {
          RemainingThrown(r0, trees, ParseBlockPairs(here), before, logged, handler.events);
          return false, trees;
        }
        RemainingTwo(r0, trees, key, value, ParseBlockPairs(Now()), before, logged);
        trees := trees + [key, value];
      }
      PopCollectionType(BlockMap);
      return true, trees;
    }

    method HandleFlowMap(handler: EventLog) returns (ok: bool, ghost trees: seq<Tree>)
      requires Good(Now()) && NextIs(FLOW_MAP_START)
      modifies this, handler
      ensures ListOutcome(ParseFlowPairs(old(Now()).Skip().Enter(FlowMap)), ok, trees, Now(),
                          old(handler.events), handler.events)
      decreases |tokens|, 1, 0
    {
      hide ParseFlowPairs, ParseOptionalKey, ParseOptionalValue, Remaining, Prepend, Flatten, FlattenAll, Numbered, Paired,
           AnchorCount, Good;
      CollectionEnters(Now(), FlowMap);
      Pop();
      PushCollectionType(FlowMap);
      ghost var start, before := Now(), handler.events;
      ghost var r0 := ParseFlowPairs(start);
      trees := [];
      RemainingAtFirst(r0, before);
      while true
        invariant Good(Now()) && SameContext(start, Now()) && |tokens| < old(|tokens|)
        invariant Remaining(r0, trees, ParseFlowPairs(Now()), before, handler.events)
        decreases |tokens|, if NextIs(FLOW_MAP_END) then 0 else 1
      {
        ghost var here, logged := Now(), handler.events;
        FlowPairsEnd(here);
        if tokens == [] {
          RemainingThrown(r0, trees, ParseFlowPairs(here), before, logged, logged);
          return false, trees;
        }
        if NextIs(FLOW_MAP_END) {
          Pop();
          RemainingDone(r0, trees, here.Skip().Leave(), before, logged);
          break;
        }
        var done;
        ghost var key, value;
        done, key, value := HandlePair(handler);
        if done {
          FlowPairsStep(here, key, ParseOptionalKey(here).rest, value, Now());
        } else {
          PairsThrown(here);
        }
        if !done || (!NextIs(FLOW_ENTRY) && !NextIs(FLOW_MAP_END)) {
          RemainingThrown(r0, trees, ParseFlowPairs(here), before, logged, handler.events);
          return false, trees;
        }
        if NextIs(FLOW_ENTRY) {
          SkippedStaysGood(Now());
          Pop();
        } else {
          FlowPairsEnd(Now());
        }
        RemainingTwo(r0, trees, key, value, ParseFlowPairs(Now()), before, logged);
        trees := trees + [key, value];
      }
      PopCollectionType(FlowMap);
      return true, trees;
    }

    method HandleCompactMap(handler: EventLog) returns (ok: bool, ghost trees: seq<Tree>)
      requires Good(Now()) && NextIs(KEY)
      modifies this, handler
      ensures ListOutcome(ParseCompactMap(old(Now())), ok, trees, Now(), old(handler.events), handler.events)
      decreases |tokens|, 1, 0
    {
      hide ParseNode, ParseOptionalValue;
      CollectionEnters(Now(), CompactMap);
      PushCollectionType(CompactMap);
      Pop();
      NodeIsWellNested(Now());
      ghost var key, value;
      ok, key := HandleNode(handler);
      trees := [];
      if ok {
        OptionalValueIsWellNested(Now());
        ok, value := HandleOptionalValue(handler);
        if ok {
          trees := [key, value];
          FlattenTwo(key, value, old(handler.events));
          PopCollectionType(CompactMap);
        }
      }
    }

    method HandleCompactMapWithNoKey(handler: EventLog) returns (ok: bool, ghost trees: seq<Tree>)
      requires Good(Now()) && NextIs(VALUE)
      modifies this, handler
      ensures ListOutcome(ParseCompactMapWithNoKey(old(Now())), ok, trees, Now(), old(handler.events), handler.events)
      decreases |tokens|, 1, 0
    {
      hide ParseNode;
      CollectionEnters(Now(), CompactMap);
      PushCollectionType(CompactMap);
      DeliverNull(handler);
      Pop();
      NodeIsWellNested(Now());
      ghost var value;
      ok, value := HandleNode(handler);
      trees := [];
      if ok {
        trees := [NullNode("", NULL_ANCHOR), value];
        FlattenTwo(NullNode("", NULL_ANCHOR), value, old(handler.events));
        PopCollectionType(CompactMap);
      }
    }

    /** Grabs any tag or anchor tokens. */
    method HandleProperties() returns (ok: bool, p: Properties)
      modifies this
      ensures match ParseProperties(old(Now()), Properties("", NULL_ANCHOR, ""))
              case Thrown => !ok
              case Parsed(q, rest) => ok && p == q && Now() == rest
    {
      p := Properties("", NULL_ANCHOR, "");
      while NextIs(TAG) || NextIs(ANCHOR)
        invariant ParseProperties(Now(), p) == ParseProperties(old(Now()), Properties("", NULL_ANCHOR, ""))
        decreases |tokens|
      {
        if NextIs(TAG) {
          if p.tag != "" {
            return false, p;
          }
          p := p.(tag := TranslateTag(directives, tokens[0]));
        } else {
          if p.anchor != NULL_ANCHOR {
            return false, p;
          }
          var anchor := RegisterAnchor(tokens[0].value);
          p := p.(name := tokens[0].value, anchor := anchor);
        }
        Pop();
      }
      return true, p;
    }

    method RegisterAnchor(name: string) returns (anchor: Anchor)
      modifies this`anchors, this`curAnchor
      ensures name == "" ==> anchor == NULL_ANCHOR && Now() == old(Now())
      ensures name != "" ==> anchor == old(curAnchor) + 1 &&
                             Now() == old(Now()).(curAnchor := anchor, anchors := old(anchors)[name := anchor])
    {
      if name == "" {
        return NULL_ANCHOR;
      }
      curAnchor := curAnchor + 1;
      anchors := anchors[name := curAnchor];
      return curAnchor;
    }

    method HandleNode(handler: EventLog) returns (ok: bool, ghost tree: Tree)
      requires Good(Now())
      modifies this, handler
      ensures NodeOutcome(ParseNode(old(Now())), ok, tree, Now(), old(handler.events), handler.events)
      decreases |tokens|, 4
    {
      hide ParseGuarded;
      tree := NullNode("", NULL_ANCHOR);
      depth := depth + 1;
      if MAX_DEPTH <= depth {
        return false, tree;
      }
      GuardedIsWellNested(Now());
      ok, tree := HandleGuarded(handler);
      if ok {
        depth := depth - 1;
      }
    }

    /** HandleNode below its depth guard. */
    method HandleGuarded(handler: EventLog) returns (ok: bool, ghost tree: Tree)
      requires Good(Now())
      modifies this, handler
      ensures NodeOutcome(ParseGuarded(old(Now())), ok, tree, Now(), old(handler.events), handler.events)
      decreases |tokens|, 3
    {
      tree := NullNode("", NULL_ANCHOR);
      if tokens == [] {
        DeliverNull(handler);
        return true, tree;
      }
      if NextIs(VALUE) {
        ghost var items;
        handler.Record(MapStart("?", NULL_ANCHOR, Default));
        ok, items := HandleCompactMapWithNoKey(handler);
        if ok {
          handler.Record(MapEnd);
          tree := MapNode("", NULL_ANCHOR, "?", Default, items);
        }
        return ok, tree;
      }
      if NextIs(ALIAS) {
        if tokens[0].value !in anchors {
          return false, tree;
        }
        handler.Record(Alias(anchors[tokens[0].value]));
        tree := AliasOf(anchors[tokens[0].value]);
        Pop();
        return true, tree;
      }
      PropertiesAnnounce(Now(), Now(), Properties("", NULL_ANCHOR, ""));
      var p;
      ok, p := HandleProperties();
      if ok {
        if p.name != "" {
          handler.Record(AnchorName(p.name));
        }
        assert handler.events == old(handler.events) + NameEvents(p.name);
        ok, tree := HandleContent(p, handler, old(handler.events));
      }
    }

    method HandleSequence(p: Properties, tag: string, handler: EventLog, ghost before: seq<Event>)
      returns (ok: bool, ghost tree: Tree)
      requires Good(Now()) && handler.events == before + NameEvents(p.name)
      requires NextIs(FLOW_SEQ_START) || NextIs(BLOCK_SEQ_START)
      modifies this, handler
      ensures var st := old(Now());
              var r := if st.At(FLOW_SEQ_START) then SequenceOf(p, tag, Flow, ParseFlowEntries(st.Skip().Enter(FlowSeq)))
                       else SequenceOf(p, tag, Block, ParseBlockEntries(st.Skip().Enter(BlockSeq)));
              NodeOutcome(r, ok, tree, Now(), before, handler.events)
      decreases |tokens|, 1, 1
    {
      hide ParseFlowEntries, ParseBlockEntries;
      var style := if NextIs(FLOW_SEQ_START) then Flow else Block;
      handler.Record(SequenceStart(tag, p.anchor, style));
      ghost var items;
      if style == Flow {
        ok, items := HandleFlowSequence(handler);
      } else {
        ok, items := HandleBlockSequence(handler);
      }
      tree := SequenceNode(p.name, p.anchor, tag, style, items);
      if ok {
        handler.Record(SequenceEnd);
        Enclosed(before, NameEvents(p.name), SequenceStart(tag, p.anchor, style), FlattenAll(items), SequenceEnd);
      }
    }

    method HandleMap(p: Properties, tag: string, handler: EventLog, ghost before: seq<Event>)
      returns (ok: bool, ghost tree: Tree)
      requires Good(Now()) && handler.events == before + NameEvents(p.name)
      requires NextIs(FLOW_MAP_START) || NextIs(BLOCK_MAP_START)
      modifies this, handler
      ensures var st := old(Now());
              var r := if st.At(FLOW_MAP_START) then MapOf(p, tag, Flow, ParseFlowPairs(st.Skip().Enter(FlowMap)))
                       else MapOf(p, tag, Block, ParseBlockPairs(st.Skip().Enter(BlockMap)));
              NodeOutcome(r, ok, tree, Now(), before, handler.events)
      decreases |tokens|, 1, 1
    {
      hide ParseFlowPairs, ParseBlockPairs;
      var style := if NextIs(FLOW_MAP_START) then Flow else Block;
      handler.Record(MapStart(tag, p.anchor, style));
      ghost var items;
      if style == Flow {
        ok, items := HandleFlowMap(handler);
      } else {
        ok, items := HandleBlockMap(handler);
      }
      tree := MapNode(p.name, p.anchor, tag, style, items);
      if ok {
        handler.Record(MapEnd);
        Enclosed(before, NameEvents(p.name), MapStart(tag, p.anchor, style), FlattenAll(items), MapEnd);
      }
    }

    /** A key inside a flow sequence begins a map of one pair. */
    method HandlePairInSequence(p: Properties, tag: string, handler: EventLog, ghost before: seq<Event>)
      returns (ok: bool, ghost tree: Tree)
      requires Good(Now()) && handler.events == before + NameEvents(p.name) && NextIs(KEY)
      modifies this, handler
      ensures NodeOutcome(MapOf(p, tag, Flow, ParseCompactMap(old(Now()))), ok, tree, Now(), before, handler.events)
      decreases |tokens|, 1, 1
    {
      hide ParseCompactMap;
      handler.Record(MapStart(tag, p.anchor, Flow));
      ghost var items;
      ok, items := HandleCompactMap(handler);
      tree := MapNode(p.name, p.anchor, tag, Flow, items);
      if ok {
        handler.Record(MapEnd);
        Enclosed(before, NameEvents(p.name), MapStart(tag, p.anchor, Flow), FlattenAll(items), MapEnd);
      }
    }

    /** Splits on the kind of node; `before` is the log before the node's anchor was named. */
    method HandleContent(p: Properties, handler: EventLog, ghost before: seq<Event>)
      returns (ok: bool, ghost tree: Tree)
      requires Good(Now()) && handler.events == before + NameEvents(p.name)
      modifies this, handler
      ensures NodeOutcome(ParseContent(old(Now()), p), ok, tree, Now(), before, handler.events)
      decreases |tokens|, 2
    {
      hide ParseFlowEntries, ParseBlockEntries, ParseFlowPairs, ParseBlockPairs, ParseCompactMap;
      tree := NullNode(p.name, p.anchor);
      if tokens == [] {
        handler.Record(Null(p.anchor));
        return true, tree;
      }
      var token := tokens[0];
      var tag := if p.tag != "" then p.tag else if token.kindOf == NON_PLAIN_SCALAR then "!" else "?";
      if token.kindOf == PLAIN_SCALAR && tag == "?" && IsNullString(token.value) {
        handler.Record(Null(p.anchor));
        Pop();
        return true, tree;
      }
      match token.kindOf {
      case PLAIN_SCALAR | NON_PLAIN_SCALAR =>
        handler.Record(Scalar(tag, p.anchor, token.value));
        Pop();
        return true, ScalarNode(p.name, p.anchor, tag, token.value);
      case FLOW_SEQ_START | BLOCK_SEQ_START =>
        ok, tree := HandleSequence(p, tag, handler, before);
        return ok, tree;
      case FLOW_MAP_START | BLOCK_MAP_START =>
        ok, tree := HandleMap(p, tag, handler, before);
        return ok, tree;
      case KEY =>
        if collectionStack != [] && collectionStack[|collectionStack| - 1] == FlowSeq {
          ok, tree := HandlePairInSequence(p, tag, handler, before);
          return ok, tree;
        }
      case _ =>
      }
      if tag == "?" {
        handler.Record(Null(p.anchor));
      } else {
        handler.Record(Scalar(tag, p.anchor, ""));
        tree := ScalarNode(p.name, p.anchor, tag, "");
      }
      return true, tree;
    }

    /** One document. An exception leaves a log that starts like the document's. */
    method HandleDocument(handler: EventLog) returns (ok: bool, ghost tree: Tree)
      requires tokens != [] && collectionStack == [] && anchors == map[] && curAnchor == 0 && depth == 0
      modifies this, handler
      ensures old(handler.events) + [DocumentStart] <= handler.events
      ensures var st := if old(Now()).At(DOC_START) then old(Now()).Skip() else old(Now());
              match ParseNode(st)
              case Thrown => !ok
              case Parsed(t, rest) =>
                && ok && tree == t
                && handler.events == old(handler.events) + [DocumentStart] + Flatten(t) + [DocumentEnd]
                && Now() == rest.(tokens := DropDocEnds(rest.tokens))
      ensures ok ==> Paired(tree) && Numbered(tree, 0) && curAnchor == AnchorCount(tree)
      ensures ok ==> collectionStack == [] && depth == 0 && !NextIs(DOC_END)
    {
      hide ParseNode;
      handler.Record(DocumentStart);
      if NextIs(DOC_START) {
        Pop();
      }
      NodeIsWellNested(Now());
      ok, tree := HandleNode(handler);
      if !ok {
        return;
      }
      handler.Record(DocumentEnd);
      ghost var rest := Now();
      while NextIs(DOC_END)
        invariant Now() == rest.(tokens := tokens) && DropDocEnds(tokens) == DropDocEnds(rest.tokens)
        invariant handler.events == old(handler.events) + [DocumentStart] + Flatten(tree) + [DocumentEnd]
        decreases |tokens|
      {
        Pop();
      }
    }
  }

  function DropDocEnds(tokens: seq<Token>): seq<Token> {
    if tokens != [] && tokens[0].kindOf == DOC_END then DropDocEnds(tokens[1..]) else tokens
  }

  lemma Enclosed(before: seq<Event>, name: seq<Event>, start: Event, inner: seq<Event>, end: Event)
    ensures before + name + [start] + inner + [end] == before + (name + [start] + inner + [end])
  {
  }
}
