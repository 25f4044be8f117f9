/** The parser looks at one token behind what it has read, and at no other. */
module ParsingAhead {
  import opened Events
  import opened Tokens
  import opened Parsing

  /** The same state, with more tokens behind those there are. */
  function More(st: State, more: seq<Token>): State {
    st.(tokens := st.tokens + more)
  }

  /** With more tokens the result is the same, if some token was left over without them. */
  ghost predicate Same<T(!new)>(r: Parsed<T>, r': Parsed<T>, more: seq<Token>) {
    r.Parsed? && r.rest.tokens != [] ==> r' == Parsed(r.value, More(r.rest, more))
  }

  lemma SkipsAlike(st: State, more: seq<Token>)
    requires st.tokens != []
    ensures More(st, more).tokens != [] && More(st, more).tokens[0] == st.tokens[0]
    ensures More(st, more).Skip() == More(st.Skip(), more)
  {
    assert (st.tokens + more)[1..] == st.tokens[1..] + more;
  }

  lemma {:induction false} PropertiesLookAhead(st: State, p: Properties, more: seq<Token>)
    ensures Same(ParseProperties(st, p), ParseProperties(More(st, more), p), more)
    decreases |st.tokens|
  {
    if st.tokens != [] {
      SkipsAlike(st, more);
      if st.At(TAG) && p.tag == "" {
        PropertiesLookAhead(st.Skip(), p.(tag := TranslateTag(st.tags, st.tokens[0])), more);
      } else if st.At(ANCHOR) && p.anchor == NULL_ANCHOR {
        var name := st.tokens[0].value;
        if name == "" {
          PropertiesLookAhead(st.Skip(), p.(name := name), more);
        } else {
          var next := st.Skip().(curAnchor := st.curAnchor + 1, anchors := st.anchors[name := st.curAnchor + 1]);
          PropertiesLookAhead(next, p.(name := name, anchor := next.curAnchor), more);
        }
      }
    }
  }

  /** What a node is does not depend on what stands behind the token after it. */
  lemma {:induction false} NodeLooksAhead(st: State, more: seq<Token>)
    ensures Same(ParseNode(st), ParseNode(More(st, more)), more)
    decreases |st.tokens|, 4
  {
    if st.depth + 1 < MAX_DEPTH {
      GuardedLooksAhead(st.(depth := st.depth + 1), more);
    }
  }

  lemma {:induction false} GuardedLooksAhead(st: State, more: seq<Token>)
    ensures Same(ParseGuarded(st), ParseGuarded(More(st, more)), more)
    decreases |st.tokens|, 3
  {
    hide ParseContent, ParseCompactMapWithNoKey, ParseProperties;
    if st.tokens != [] {
      SkipsAlike(st, more);
      if st.At(VALUE) {
        NoKeyLooksAhead(st, more);
      } else if !st.At(ALIAS) {
        var none := Properties("", NULL_ANCHOR, "");
        PropertiesLookAhead(st, none, more);
        var p := ParseProperties(st, none);
        if p.Parsed? {
          ContentLooksAhead(p.rest, p.value, more);
        }
      }
    }
  }

  lemma {:induction false} ContentLooksAhead(st: State, p: Properties, more: seq<Token>)
    ensures Same(ParseContent(st, p), ParseContent(More(st, more), p), more)
    decreases |st.tokens|, 2
  {
    hide ParseFlowEntries, ParseBlockEntries, ParseFlowPairs, ParseBlockPairs, ParseCompactMap;
    if st.tokens != [] {
      SkipsAlike(st, more);
      var kindOf := st.tokens[0].kindOf;
      if kindOf == FLOW_SEQ_START {
        FlowEntriesLookAhead(st.Skip().Enter(FlowSeq), more);
      } else if kindOf == BLOCK_SEQ_START {
        BlockEntriesLookAhead(st.Skip().Enter(BlockSeq), more);
      } else if kindOf == FLOW_MAP_START {
        FlowPairsLookAhead(st.Skip().Enter(FlowMap), more);
      } else if kindOf == BLOCK_MAP_START {
        BlockPairsLookAhead(st.Skip().Enter(BlockMap), more);
      } else if kindOf == KEY && st.CurCollection() == FlowSeq {
        CompactMapLooksAhead(st, more);
      }
    }
  }

  lemma {:induction false} BlockEntriesLookAhead(st: State, more: seq<Token>)
    ensures Same(ParseBlockEntries(st), ParseBlockEntries(More(st, more)), more)
    decreases |st.tokens|, 0
  {
    hide ParseNode;
    if st.tokens != [] {
      SkipsAlike(st, more);
      if st.At(BLOCK_ENTRY) {
        var next := st.Skip();
        if next.tokens != [] {
          SkipsAlike(next, more);
          if next.At(BLOCK_ENTRY) || next.At(BLOCK_SEQ_END) {
            BlockEntriesLookAhead(next, more);
          } else {
            NodeLooksAhead(next, more);
            var node := ParseNode(next);
            if node.Parsed? {
              BlockEntriesLookAhead(node.rest, more);
            }
          }
        }
      }
    }
  }

  lemma {:induction false} FlowEntriesLookAhead(st: State, more: seq<Token>)
    ensures Same(ParseFlowEntries(st), ParseFlowEntries(More(st, more)), more)
    decreases |st.tokens|, 5
  {
    hide ParseNode;
    if st.tokens != [] {
      SkipsAlike(st, more);
      if !st.At(FLOW_SEQ_END) {
        NodeLooksAhead(st, more);
        var node := ParseNode(st);
        if node.Parsed? && node.rest.tokens != [] {
          SkipsAlike(node.rest, more);
          if node.rest.At(FLOW_ENTRY) {
            FlowEntriesLookAhead(node.rest.Skip(), more);
          }
        }
      }
    }
  }

  lemma {:induction false} KeyLooksAhead(st: State, more: seq<Token>)
    ensures Same(ParseOptionalKey(st), ParseOptionalKey(More(st, more)), more)
    decreases |st.tokens|, 5
  {
    hide ParseNode;
    if st.tokens != [] {
      SkipsAlike(st, more);
      NodeLooksAhead(st.Skip(), more);
    }
  }

  lemma {:induction false} ValueLooksAhead(st: State, more: seq<Token>)
    ensures Same(ParseOptionalValue(st), ParseOptionalValue(More(st, more)), more)
    decreases |st.tokens|, 5
  {
    hide ParseNode;
    if st.tokens != [] {
      SkipsAlike(st, more);
      NodeLooksAhead(st.Skip(), more);
    }
  }

  lemma {:induction false} BlockPairsLookAhead(st: State, more: seq<Token>)
    ensures Same(ParseBlockPairs(st), ParseBlockPairs(More(st, more)), more)
    decreases |st.tokens|, 6
  {
    hide ParseNode, ParseOptionalKey, ParseOptionalValue;
    if st.tokens != [] {
      SkipsAlike(st, more);
      if st.At(KEY) || st.At(VALUE) {
        KeyLooksAhead(st, more);
        var key := ParseOptionalKey(st);
        if key.Parsed? && key.rest.tokens != [] {
          ValueLooksAhead(key.rest, more);
          var value := ParseOptionalValue(key.rest);
          if value.Parsed? {
            PairShortens(st, key, value);
            BlockPairsLookAhead(value.rest, more);
          }
        }
      }
    }
  }

  /** A pair that begins with its key or its value takes a token. */
  lemma PairShortens(st: State, key: Parsed<Tree>, value: Parsed<Tree>)
    requires st.At(KEY) || st.At(VALUE)
    requires key == ParseOptionalKey(st) && key.Parsed? && value == ParseOptionalValue(key.rest) && value.Parsed?
    ensures |value.rest.tokens| < |st.tokens|
  {
  }

  lemma {:induction false} FlowPairsLookAhead(st: State, more: seq<Token>)
    ensures Same(ParseFlowPairs(st), ParseFlowPairs(More(st, more)), more)
    decreases |st.tokens|, 6
  {
    hide ParseNode, ParseOptionalKey, ParseOptionalValue;
    if st.tokens != [] {
      SkipsAlike(st, more);
      if !st.At(FLOW_MAP_END) {
        KeyLooksAhead(st, more);
        var key := ParseOptionalKey(st);
        if key.Parsed? && key.rest.tokens != [] {
          ValueLooksAhead(key.rest, more);
          var value := ParseOptionalValue(key.rest);
          if value.Parsed? && value.rest.tokens != [] {
            SkipsAlike(value.rest, more);
            if value.rest.At(FLOW_ENTRY) {
              FlowPairsLookAhead(value.rest.Skip(), more);
            }
          }
        }
      }
    }
  }

  lemma {:induction false} CompactMapLooksAhead(st: State, more: seq<Token>)
    requires st.At(KEY)
    ensures Same(ParseCompactMap(st), ParseCompactMap(More(st, more)), more)
    decreases |st.tokens|, 0
  {
    hide ParseNode;
    SkipsAlike(st, more);
    SkipsAlike(st.Enter(CompactMap), more);
    NodeLooksAhead(st.Enter(CompactMap).Skip(), more);
    var key := ParseNode(st.Enter(CompactMap).Skip());
    if key.Parsed? && key.rest.tokens != [] {
      ValueLooksAhead(key.rest, more);
    }
    hide ParseOptionalValue;
  }

  lemma {:induction false} NoKeyLooksAhead(st: State, more: seq<Token>)
    requires st.At(VALUE)
    ensures Same(ParseCompactMapWithNoKey(st), ParseCompactMapWithNoKey(More(st, more)), more)
    decreases |st.tokens|, 0
  {
    hide ParseNode;
    SkipsAlike(st, more);
    SkipsAlike(st.Enter(CompactMap), more);
    NodeLooksAhead(st.Enter(CompactMap).Skip(), more);
  }
}
