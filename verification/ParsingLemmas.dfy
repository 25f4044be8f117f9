/** What every successful parse delivers: one well-nested node, numbered anchors, the stack as on entry. */
module ParsingLemmas {
  import opened Events
  import opened Tokens
  import opened Parsing

  ghost predicate Good(st: State) {
    forall name :: name in st.anchors ==> 1 <= st.anchors[name] <= st.curAnchor
  }

  ghost predicate SameContext(st: State, rest: State) {
    rest.stack == st.stack && rest.depth == st.depth && rest.tags == st.tags && Good(rest)
  }

  ghost predicate OneNode(st: State, t: Tree, rest: State) {
    && SameContext(st, rest)
    && Paired(t) && Numbered(t, st.curAnchor) && rest.curAnchor == st.curAnchor + AnchorCount(t)
  }

  /** The nodes of a collection, and the collection's entry on the stack removed. */
  ghost predicate Nodes(st: State, ts: seq<Tree>, rest: State) {
    && st.stack != [] && SameContext(st.Leave(), rest) && NodesInside(st, ts, rest)
  }

  ghost predicate NodesInside(st: State, ts: seq<Tree>, rest: State) {
    && (forall i :: 0 <= i < |ts| ==> Paired(ts[i]))
    && NumberedAll(ts, st.curAnchor) && rest.curAnchor == st.curAnchor + AnchorCountAll(ts)
  }

  lemma NoNodes(st: State, rest: State)
    requires rest.curAnchor == st.curAnchor
    ensures NodesInside(st, [], rest)
  {
  }

  lemma ConsNode(st: State, t: Tree, mid: State, ts: seq<Tree>, rest: State)
    requires OneNode(st, t, mid) && NodesInside(mid, ts, rest)
    ensures NodesInside(st, [t] + ts, rest)
  {
    var all := [t] + ts;
    assert all[0] == t && all[1..] == ts;
  }

  lemma NullIsOneNode(st: State)
    requires Good(st)
    ensures OneNode(st, NullNode("", NULL_ANCHOR), st)
  {
  }

  /** The anchor of a node, if any, is the next number. */
  ghost predicate Announced(st: State, p: Properties, rest: State) {
    && SameContext(st, rest)
    && NextAnchor(p.anchor, st.curAnchor) && rest.curAnchor == st.curAnchor + OwnAnchor(p.anchor)
    && (p.anchor == NULL_ANCHOR <==> p.name == "")
  }

  lemma {:induction false} PropertiesAnnounce(start: State, st: State, p: Properties)
    requires Good(start) && Announced(start, p, st)
    ensures var r := ParseProperties(st, p); r.Parsed? ==> Announced(start, r.value, r.rest)
    decreases |st.tokens|
  {
    if st.At(TAG) && p.tag == "" {
      PropertiesAnnounce(start, st.Skip(), p.(tag := TranslateTag(st.tags, st.tokens[0])));
    } else if st.At(ANCHOR) && p.anchor == NULL_ANCHOR {
      var name := st.tokens[0].value;
      if name == "" {
        PropertiesAnnounce(start, st.Skip(), p.(name := name));
      } else {
        var next := st.Skip().(curAnchor := st.curAnchor + 1, anchors := st.anchors[name := st.curAnchor + 1]);
        PropertiesAnnounce(start, next, p.(name := name, anchor := next.curAnchor));
      }
    }
  }

  lemma {:induction false} NodeIsWellNested(st: State)
    requires Good(st)
    ensures var r := ParseNode(st); r.Parsed? ==> OneNode(st, r.value, r.rest)
    decreases |st.tokens|, 4
  {
    if st.depth + 1 < MAX_DEPTH {
      GuardedIsWellNested(st.(depth := st.depth + 1));
    }
  }

  lemma {:induction false} GuardedIsWellNested(st: State)
    requires Good(st)
    ensures var r := ParseGuarded(st); r.Parsed? ==> OneNode(st, r.value, r.rest)
    decreases |st.tokens|, 3
  {
    if st.tokens == [] {
    } else if st.At(VALUE) {
      CompactMapWithNoKeyIsWellNested(st);
    } else if !st.At(ALIAS) {
      PropertiesAnnounce(st, st, Properties("", NULL_ANCHOR, ""));
      var p := ParseProperties(st, Properties("", NULL_ANCHOR, ""));
      if p.Parsed? {
        ContentIsWellNested(st, p.rest, p.value);
      }
    }
  }

  lemma {:induction false} ContentIsWellNested(start: State, st: State, p: Properties)
    requires Good(st) && Announced(start, p, st)
    ensures var r := ParseContent(st, p); r.Parsed? ==> OneNode(start, r.value, r.rest)
    decreases |st.tokens|, 2
  {
    hide NodesInside, Numbered, NumberedAll, Paired, AnchorCount, AnchorCountAll, OneNode, Nodes, Announced, Good;
    hide ParseFlowEntries, ParseBlockEntries, ParseFlowPairs, ParseBlockPairs, ParseCompactMap;
    LeafIsOneNode(start, st, p);
    if st.tokens != [] {
      var token := st.tokens[0];
      if token.kindOf == FLOW_SEQ_START {
        CollectionEnters(st, FlowSeq);
        FlowEntriesAreWellNested(st.Skip().Enter(FlowSeq));
        CollectionIsOneNode(start, st, FlowSeq, p, ParseFlowEntries(st.Skip().Enter(FlowSeq)));
      } else if token.kindOf == BLOCK_SEQ_START {
        CollectionEnters(st, BlockSeq);
        BlockEntriesAreWellNested(st.Skip().Enter(BlockSeq));
        CollectionIsOneNode(start, st, BlockSeq, p, ParseBlockEntries(st.Skip().Enter(BlockSeq)));
      } else if token.kindOf == FLOW_MAP_START {
        CollectionEnters(st, FlowMap);
        FlowPairsAreWellNested(st.Skip().Enter(FlowMap));
        CollectionIsOneNode(start, st, FlowMap, p, ParseFlowPairs(st.Skip().Enter(FlowMap)));
      } else if token.kindOf == BLOCK_MAP_START {
        CollectionEnters(st, BlockMap);
        BlockPairsAreWellNested(st.Skip().Enter(BlockMap));
        CollectionIsOneNode(start, st, BlockMap, p, ParseBlockPairs(st.Skip().Enter(BlockMap)));
      } else if token.kindOf == KEY {
        CompactMapIsWellNested(st);
        CompactMapIsOneNode(start, st, p, ParseCompactMap(st));
      }
    }
  }

  lemma LeafIsOneNode(start: State, st: State, p: Properties)
    requires Good(st) && Announced(start, p, st)
    ensures OneNode(start, NullNode(p.name, p.anchor), st)
    ensures forall tag, value :: OneNode(start, ScalarNode(p.name, p.anchor, tag, value), st)
    ensures st.tokens != [] ==> OneNode(start, NullNode(p.name, p.anchor), st.Skip())
    ensures st.tokens != [] ==>
              forall tag, value :: OneNode(start, ScalarNode(p.name, p.anchor, tag, value), st.Skip())
  {
  }

  lemma CollectionEnters(st: State, c: CollectionType)
    requires Good(st) && st.tokens != []
    ensures Good(st.Skip().Enter(c))
  {
  }

  lemma SkippedStaysGood(st: State)
    requires Good(st) && st.tokens != []
    ensures Good(st.Skip())
  {
  }

  lemma CollectionIsOneNode(start: State, st: State, c: CollectionType, p: Properties, items: Parsed<seq<Tree>>)
    requires Announced(start, p, st) && st.tokens != []
    requires items.Parsed? ==> Nodes(st.Skip().Enter(c), items.value, items.rest)
    ensures items.Parsed? ==>
              forall tag, style ::
                && OneNode(start, SequenceNode(p.name, p.anchor, tag, style, items.value), items.rest)
                && (|items.value| % 2 == 0 ==>
                      OneNode(start, MapNode(p.name, p.anchor, tag, style, items.value), items.rest))
  {
    assert st.Skip().Enter(c).Leave().stack == st.stack;
  }

  lemma CompactMapIsOneNode(start: State, st: State, p: Properties, items: Parsed<seq<Tree>>)
    requires Announced(start, p, st)
    requires items.Parsed? ==> SameContext(st, items.rest) && NodesInside(st, items.value, items.rest) && |items.value| == 2
    ensures items.Parsed? ==>
              forall tag, style :: OneNode(start, MapNode(p.name, p.anchor, tag, style, items.value), items.rest)
  {
  }

  lemma {:induction false} BlockEntriesAreWellNested(st: State)
    requires Good(st) && st.stack != []
    ensures var r := ParseBlockEntries(st); r.Parsed? ==> Nodes(st, r.value, r.rest)
    decreases |st.tokens|, 0
  {
    if st.At(BLOCK_SEQ_END) {
      NoNodes(st, st.Skip().Leave());
    } else if st.At(BLOCK_ENTRY) {
      var next := st.Skip();
      if next.At(BLOCK_ENTRY) || next.At(BLOCK_SEQ_END) {
        NullIsOneNode(st);
        BlockEntriesAreWellNested(next);
        var more := ParseBlockEntries(next);
        if more.Parsed? {
          ConsNode(st, NullNode("", NULL_ANCHOR), next, more.value, more.rest);
        }
      } else {
        NodeIsWellNested(next);
        var t := ParseNode(next);
        if t.Parsed? {
          BlockEntriesAreWellNested(t.rest);
          var more := ParseBlockEntries(t.rest);
          if more.Parsed? {
            ConsNode(st, t.value, t.rest, more.value, more.rest);
          }
        }
      }
    }
  }

  lemma {:induction false} FlowEntriesAreWellNested(st: State)
    requires Good(st) && st.stack != []
    ensures var r := ParseFlowEntries(st); r.Parsed? ==> Nodes(st, r.value, r.rest)
    decreases |st.tokens|, 5
  {
    hide NodesInside, Numbered, NumberedAll, Paired, AnchorCount, AnchorCountAll, ParseNode;
    if st.tokens == [] {
    } else if st.At(FLOW_SEQ_END) {
      NoNodes(st, st.Skip().Leave());
    } else {
      NodeIsWellNested(st);
      var t := ParseNode(st);
      if t.Parsed? {
        if t.rest.At(FLOW_ENTRY) {
          FlowEntriesAreWellNested(t.rest.Skip());
          var more := ParseFlowEntries(t.rest.Skip());
          if more.Parsed? {
            ConsNode(st, t.value, t.rest.Skip(), more.value, more.rest);
          }
        } else if t.rest.At(FLOW_SEQ_END) {
          NoNodes(t.rest, t.rest.Skip().Leave());
          ConsNode(st, t.value, t.rest, [], t.rest.Skip().Leave());
          assert [t.value] + [] == [t.value];
        }
      }
    }
  }

  lemma {:induction false} OptionalValueIsWellNested(st: State)
    requires Good(st)
    ensures var r := ParseOptionalValue(st); r.Parsed? ==> OneNode(st, r.value, r.rest)
    decreases |st.tokens|, 5
  {
    if st.At(VALUE) {
      NodeIsWellNested(st.Skip());
    }
  }

  lemma {:induction false} OptionalKeyIsWellNested(st: State)
    requires Good(st)
    ensures var r := ParseOptionalKey(st); r.Parsed? ==> OneNode(st, r.value, r.rest)
    decreases |st.tokens|, 5
  {
    if st.At(KEY) {
      NodeIsWellNested(st.Skip());
    }
  }

  lemma TwoNodes(st: State, key: Tree, mid: State, value: Tree, rest: State, ts: seq<Tree>, end: State)
    requires OneNode(st, key, mid) && OneNode(mid, value, rest) && NodesInside(rest, ts, end)
    ensures NodesInside(st, [key, value] + ts, end)
  {
    ConsNode(mid, value, rest, ts, end);
    ConsNode(st, key, mid, [value] + ts, end);
    assert [key] + ([value] + ts) == [key, value] + ts;
  }

  /** An indicator is used up. */
  lemma PartGoesOn(st: State)
    ensures st.At(KEY) && ParseOptionalKey(st).Parsed? ==> |ParseOptionalKey(st).rest.tokens| < |st.tokens|
    ensures st.At(VALUE) && ParseOptionalValue(st).Parsed? ==> |ParseOptionalValue(st).rest.tokens| < |st.tokens|
    ensures !st.At(KEY) && ParseOptionalKey(st).Parsed? ==> ParseOptionalKey(st).rest == st
  {
    hide ParseNode;
  }

  lemma {:induction false} BlockPairsAreWellNested(st: State)
    requires Good(st) && st.stack != []
    ensures var r := ParseBlockPairs(st); r.Parsed? ==> Nodes(st, r.value, r.rest) && |r.value| % 2 == 0
    decreases |st.tokens|, 6
  {
    hide NodesInside, Numbered, NumberedAll, Paired, AnchorCount, AnchorCountAll, ParseNode, ParseOptionalKey, ParseOptionalValue;
    if st.At(BLOCK_MAP_END) {
      NoNodes(st, st.Skip().Leave());
    } else if st.At(KEY) || st.At(VALUE) {
      OptionalKeyIsWellNested(st);
      PartGoesOn(st);
      var key := ParseOptionalKey(st);
      if key.Parsed? {
        PartGoesOn(key.rest);
        OptionalValueIsWellNested(key.rest);
        var value := ParseOptionalValue(key.rest);
        if value.Parsed? {
          BlockPairsAreWellNested(value.rest);
          var more := ParseBlockPairs(value.rest);
          if more.Parsed? {
            TwoNodes(st, key.value, key.rest, value.value, value.rest, more.value, more.rest);
          }
        }
      }
    }
  }

  lemma {:induction false} FlowPairsAreWellNested(st: State)
    requires Good(st) && st.stack != []
    ensures var r := ParseFlowPairs(st); r.Parsed? ==> Nodes(st, r.value, r.rest) && |r.value| % 2 == 0
    decreases |st.tokens|, 6
  {
    hide NodesInside, Numbered, NumberedAll, Paired, AnchorCount, AnchorCountAll, ParseNode, ParseOptionalKey, ParseOptionalValue;
    if st.tokens == [] {
    } else if st.At(FLOW_MAP_END) {
      NoNodes(st, st.Skip().Leave());
    } else {
      OptionalKeyIsWellNested(st);
      var key := ParseOptionalKey(st);
      if key.Parsed? {
        OptionalValueIsWellNested(key.rest);
        var value := ParseOptionalValue(key.rest);
        if value.Parsed? {
          if value.rest.At(FLOW_ENTRY) {
            FlowPairsAreWellNested(value.rest.Skip());
            var more := ParseFlowPairs(value.rest.Skip());
            if more.Parsed? {
              TwoNodes(st, key.value, key.rest, value.value, value.rest.Skip(), more.value, more.rest);
            }
          } else if value.rest.At(FLOW_MAP_END) {
            NoNodes(value.rest, value.rest.Skip().Leave());
            TwoNodes(st, key.value, key.rest, value.value, value.rest, [], value.rest.Skip().Leave());
            assert [key.value, value.value] + [] == [key.value, value.value];
          }
        }
      }
    }
  }

  lemma {:induction false} CompactMapIsWellNested(st: State)
    requires Good(st) && st.At(KEY)
    ensures var r := ParseCompactMap(st);
            r.Parsed? ==> SameContext(st, r.rest) && NodesInside(st, r.value, r.rest) && |r.value| == 2
    decreases |st.tokens|, 0
  {
    var inside := st.Enter(CompactMap).Skip();
    NodeIsWellNested(inside);
    var key := ParseNode(inside);
    if key.Parsed? {
      OptionalValueIsWellNested(key.rest);
      var value := ParseOptionalValue(key.rest);
      if value.Parsed? {
        NoNodes(value.rest, value.rest.Leave());
        TwoNodes(inside, key.value, key.rest, value.value, value.rest, [], value.rest.Leave());
        assert [key.value, value.value] + [] == [key.value, value.value];
      }
    }
  }

  lemma {:induction false} CompactMapWithNoKeyIsWellNested(st: State)
    requires Good(st) && st.At(VALUE)
    ensures var r := ParseCompactMapWithNoKey(st);
            r.Parsed? ==> SameContext(st, r.rest) && NodesInside(st, r.value, r.rest) && |r.value| == 2
    decreases |st.tokens|, 0
  {
    var inside := st.Enter(CompactMap).Skip();
    NodeIsWellNested(inside);
    NullIsOneNode(inside);
    var value := ParseNode(inside);
    if value.Parsed? {
      var none := NullNode("", NULL_ANCHOR);
      NoNodes(value.rest, value.rest.Leave());
      TwoNodes(inside, none, inside, value.value, value.rest, [], value.rest.Leave());
      assert [none, value.value] + [] == [none, value.value];
    }
  }

  // One step of each loop of the parser

  lemma FlowEntriesStep(st: State, t: Tree, mid: State)
    requires st.tokens != [] && !st.At(FLOW_SEQ_END) && ParseNode(st) == Parsed(t, mid) && mid.stack != []
    ensures mid.At(FLOW_SEQ_END) ==> ParseFlowEntries(st) == Prepend([t], Parsed([], mid.Skip().Leave()))
    ensures mid.At(FLOW_ENTRY) ==> ParseFlowEntries(st) == Prepend([t], ParseFlowEntries(mid.Skip()))
  {
    assert [t] + [] == [t];
  }

  lemma BlockEntriesStep(st: State, t: Tree, mid: State)
    requires st.At(BLOCK_ENTRY) && !st.Skip().At(BLOCK_ENTRY) && !st.Skip().At(BLOCK_SEQ_END)
    requires ParseNode(st.Skip()) == Parsed(t, mid)
    ensures ParseBlockEntries(st) == Prepend([t], ParseBlockEntries(mid))
  {
  }

  lemma FlowPairsStep(st: State, key: Tree, mid: State, value: Tree, next: State)
    requires st.tokens != [] && !st.At(FLOW_MAP_END)
    requires ParseOptionalKey(st) == Parsed(key, mid) && ParseOptionalValue(mid) == Parsed(value, next)
    requires next.stack != []
    ensures next.At(FLOW_MAP_END) ==> ParseFlowPairs(st) == Prepend([key, value], Parsed([], next.Skip().Leave()))
    ensures next.At(FLOW_ENTRY) ==> ParseFlowPairs(st) == Prepend([key, value], ParseFlowPairs(next.Skip()))
    ensures !next.At(FLOW_MAP_END) && !next.At(FLOW_ENTRY) ==> ParseFlowPairs(st) == Thrown
  {
    hide ParseOptionalKey, ParseOptionalValue;
    assert [key, value] + [] == [key, value];
  }

  lemma BlockPairsStep(st: State, key: Tree, mid: State, value: Tree, next: State)
    requires st.At(KEY) || st.At(VALUE)
    requires ParseOptionalKey(st) == Parsed(key, mid) && ParseOptionalValue(mid) == Parsed(value, next)
    ensures ParseBlockPairs(st) == Prepend([key, value], ParseBlockPairs(next))
  {
    hide ParseOptionalKey, ParseOptionalValue;
  }

  lemma BlockEntriesEnd(st: State)
    requires st.stack != []
    ensures st.At(BLOCK_SEQ_END) ==> ParseBlockEntries(st) == Parsed([], st.Skip().Leave())
    ensures !st.At(BLOCK_SEQ_END) && !st.At(BLOCK_ENTRY) ==> ParseBlockEntries(st) == Thrown
    ensures st.At(BLOCK_ENTRY) && (st.Skip().At(BLOCK_ENTRY) || st.Skip().At(BLOCK_SEQ_END)) ==>
              ParseBlockEntries(st) == Prepend([NullNode("", NULL_ANCHOR)], ParseBlockEntries(st.Skip()))
    ensures st.At(BLOCK_ENTRY) && !st.Skip().At(BLOCK_ENTRY) && !st.Skip().At(BLOCK_SEQ_END) ==>
              ParseNode(st.Skip()).Thrown? ==> ParseBlockEntries(st) == Thrown
  {
  }

  lemma FlowEntriesEnd(st: State)
    requires st.stack != []
    ensures st.tokens == [] ==> ParseFlowEntries(st) == Thrown
    ensures st.At(FLOW_SEQ_END) ==> ParseFlowEntries(st) == Parsed([], st.Skip().Leave())
    ensures st.tokens != [] && !st.At(FLOW_SEQ_END) && ParseNode(st).Thrown? ==> ParseFlowEntries(st) == Thrown
    ensures st.tokens != [] && !st.At(FLOW_SEQ_END) && ParseNode(st).Parsed? ==>
              var rest := ParseNode(st).rest;
              !rest.At(FLOW_ENTRY) && !rest.At(FLOW_SEQ_END) ==> ParseFlowEntries(st) == Thrown
  {
  }

  lemma BlockPairsEnd(st: State)
    requires st.stack != []
    ensures st.At(BLOCK_MAP_END) ==> ParseBlockPairs(st) == Parsed([], st.Skip().Leave())
    ensures !st.At(BLOCK_MAP_END) && !st.At(KEY) && !st.At(VALUE) ==> ParseBlockPairs(st) == Thrown
  {
  }

  lemma FlowPairsEnd(st: State)
    requires st.stack != []
    ensures st.tokens == [] ==> ParseFlowPairs(st) == Thrown
    ensures st.At(FLOW_MAP_END) ==> ParseFlowPairs(st) == Parsed([], st.Skip().Leave())
  {
  }

  lemma PairsThrown(st: State)
    requires st.tokens != [] && ParseOptionalKey(st).Parsed? ==> ParseOptionalValue(ParseOptionalKey(st).rest).Thrown?
    ensures (st.At(KEY) || st.At(VALUE)) ==> ParseBlockPairs(st) == Thrown
    ensures !st.At(FLOW_MAP_END) ==> ParseFlowPairs(st) == Thrown
  {
  }
}
