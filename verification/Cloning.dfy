/** Clone: the events of a graph rebuild an isomorphic graph. */
module Cloning {
  import opened Events
  import opened NodeBuilding
  import opened TreeBuilding
  import opened NodeEventing
  import opened RefCounts

  /** Position ids[k] stands for the node ns[k]. */
  ghost predicate Names(origin: seq<Id>, ids: seq<Id>, ns: seq<Id>) {
    |ids| == |ns| && forall k :: 0 <= k < |ids| ==> ids[k] < |origin| && origin[ids[k]] == ns[k]
  }

  /** The copy has the kind, tag, style, scalar and, in order, the children of the original; null has no tag. */
  ghost predicate Copies(origin: seq<Id>, original: NodeData, copy: NodeData) {
    match original
    case NullData => copy.NullData?
    case ScalarData(_, _) => copy == original
    case SequenceData(tag, style, items) =>
      copy.SequenceData? && copy.tag == tag && copy.style == style && Names(origin, copy.items, items)
    case MapData(tag, style, pairs) =>
      copy.MapData? && copy.tag == tag && copy.style == style && Names(origin, Unpair(copy.pairs), Unpair(pairs))
  }

  ghost predicate Distinct(origin: seq<Id>) {
    forall i, j :: 0 <= i < j < |origin| ==> origin[i] != origin[j]
  }

  /** origin is a bijection from the nodes of m to the nodes reachable from root, under which m is a copy. */
  ghost predicate Isomorphic(g: Memory, root: Id, m: Memory, copyRoot: Id, origin: seq<Id>)
    requires Closed(g)
  {
    && |origin| == |m| && Distinct(origin)
    && (forall x :: x in origin <==> Reachable(g, root, x))
    && copyRoot < |m| && origin[copyRoot] == root
    && (forall j :: 0 <= j < |m| ==> origin[j] < |g| && Copies(origin, g[origin[j]], m[j]))
  }

  // The walk and the building advance together

  /** Position i of the rebuilt memory stands for w.order[i], and every anchor points at its node. */
  ghost predicate Mirrors(g: Memory, w: Walk, a: seq<Pointer>) {
    && Distinct(w.order)
    && (forall x :: x in w.order <==> x in w.counts)
    && (forall i :: 0 <= i < |w.order| ==> w.order[i] < |g|)
    && |a| == w.last + 1
    && (forall x :: x in w.anchors ==>
          w.anchors[x] < |a| && a[w.anchors[x]].At? && a[w.anchors[x]].id < |w.order| && w.order[a[w.anchors[x]].id] == x)
  }

  ghost predicate AllCopied(g: Memory, order: seq<Id>, base: nat, created: Memory) {
    && |order| == base + |created|
    && forall j :: 0 <= j < |created| ==> IsCopied(g, order, order[base + j], created[j])
  }

  ghost predicate IsCopied(g: Memory, order: seq<Id>, origin: Id, copy: NodeData) {
    origin < |g| && Copies(order, g[origin], copy)
  }

  ghost predicate Follows(g: Memory, refs: Counts, w: Walk, a: seq<Pointer>, w': Walk, created: Memory, a': seq<Pointer>) {
    && Consistent(refs, w') && Mirrors(g, w', a') && w.order <= w'.order
    && AllCopied(g, w'.order, |w.order|, created)
  }

  lemma NamesGrow(origin: seq<Id>, more: seq<Id>, ids: seq<Id>, ns: seq<Id>)
    requires Names(origin, ids, ns) && origin <= more
    ensures Names(more, ids, ns)
  {
  }

  lemma CopiesGrow(origin: seq<Id>, more: seq<Id>, original: NodeData, copy: NodeData)
    requires Copies(origin, original, copy) && origin <= more
    ensures Copies(more, original, copy)
  {
    match original
    case SequenceData(_, _, items) => NamesGrow(origin, more, copy.items, items);
    case MapData(_, _, pairs) => NamesGrow(origin, more, Unpair(copy.pairs), Unpair(pairs));
    case _ =>
  }

  lemma AllCopiedGrow(g: Memory, order: seq<Id>, base: nat, created: Memory, order': seq<Id>, more: Memory)
    requires AllCopied(g, order, base, created) && order <= order' && AllCopied(g, order', |order|, more)
    ensures AllCopied(g, order', base, created + more)
  {
    hide Copies;
    var all := created + more;
    assert |order'| == base + |all|;
    forall j | 0 <= j < |all|
      ensures IsCopied(g, order', order'[base + j], all[j])
    {
      if j < |created| {
        assert order'[base + j] == order[base + j] && all[j] == created[j];
        CopiesGrow(order, order', g[order[base + j]], created[j]);
      } else {
        var i := j - |created|;
        assert |order| + i == base + j && all[j] == more[i];
        assert IsCopied(g, order', order'[|order| + i], more[i]);
      }
    }
  }

  lemma {:induction false} UnpairPairUp(nodes: seq<Id>)
    requires |nodes| % 2 == 0
    ensures Unpair(PairUp(nodes)) == nodes
    decreases |nodes|
  {
    if nodes != [] {
      UnpairPairUp(nodes[2..]);
      assert PairUp(nodes)[1..] == PairUp(nodes[2..]);
      assert nodes == [nodes[0], nodes[1]] + nodes[2..];
    }
  }

  lemma EnterMirrors(g: Memory, refs: Counts, n: Id, w: Walk, a: seq<Pointer>)
    requires n < |g| && n !in w.counts && Consistent(refs, w) && Mirrors(g, w, a)
    ensures var w1 := Enter(refs, n, w);
            Mirrors(g, w1, Announce(a, if Shared(refs, n) then w1.last else NULL_ANCHOR, |w.order|))
  {
    var w1 := Enter(refs, n, w);
    assert forall i :: 0 <= i < |w.order| ==> w1.order[i] == w.order[i] && w.order[i] in w.order;
  }

  lemma RevisitMirrors(g: Memory, refs: Counts, n: Id, w: Walk, a: seq<Pointer>)
    requires n in w.counts && Consistent(refs, w) && Mirrors(g, w, a)
    ensures Follows(g, refs, w, a, w.(counts := Bump(w.counts, n)), [], a)
  {
  }

  function CopyOf(original: NodeData, nodes: seq<Id>): NodeData {
    match original
    case SequenceData(tag, style, _) => SequenceData(tag, style, nodes)
    case MapData(tag, style, _) => MapData(tag, style, PairUp(nodes))
    case _ => original
  }

  lemma FirstVisitFollows(g: Memory, refs: Counts, n: Id, w: Walk, a: seq<Pointer>, w': Walk, inner: BuiltAll)
    requires n < |g| && n !in w.counts && Consistent(refs, w) && Mirrors(g, w, a)
    requires var w1 := Enter(refs, n, w);
             var a1 := Announce(a, if Shared(refs, n) then w1.last else NULL_ANCHOR, |w.order|);
             Follows(g, refs, w1, a1, w', inner.created, inner.anchors)
    requires Names(w'.order, inner.nodes, Children(g[n]))
    ensures Follows(g, refs, w, a, w', [CopyOf(g[n], inner.nodes)] + inner.created, inner.anchors)
    ensures |w.order| < |w'.order| && w'.order[|w.order|] == n
  {
    var w1, copy := Enter(refs, n, w), CopyOf(g[n], inner.nodes);
    assert w1.order[|w.order|] == n;
    if g[n].MapData? {
      UnpairPairUp(inner.nodes);
    }
    assert Copies(w'.order, g[n], copy);
    FirstCopied(g, w'.order, |w.order|, copy, inner.created);
  }

  lemma FirstCopied(g: Memory, order: seq<Id>, base: nat, copy: NodeData, created: Memory)
    requires AllCopied(g, order, base + 1, created) && IsCopied(g, order, order[base], copy)
    ensures AllCopied(g, order, base, [copy] + created)
  {
    hide IsCopied;
    forall j | 0 <= j < |[copy] + created|
      ensures IsCopied(g, order, order[base + j], ([copy] + created)[j])
    {
      if j > 0 {
        assert order[base + 1 + (j - 1)] == order[base + j] && ([copy] + created)[j] == created[j - 1];
      }
    }
  }

  /** The tree t of a walk from w to w' means r: the original's nodes, copied, with n at r.node. */
  ghost predicate Rebuilt(
      g: Memory, refs: Counts, n: Id, w: Walk, a: seq<Pointer>, t: Tree, w': Walk, r: Built)
  {
    && Paired(t) && Numbered(t, w.last) && AnchorCount(t) == w'.last - w.last
    && Follows(g, refs, w, a, w', r.created, r.anchors)
    && r.node < |w'.order| && w'.order[r.node] == n
  }

  ghost predicate AllRebuilt(
      g: Memory, refs: Counts, ns: seq<Id>, w: Walk, a: seq<Pointer>, ts: seq<Tree>, w': Walk, r: BuiltAll)
  {
    && (forall i :: 0 <= i < |ts| ==> Paired(ts[i])) && NumberedAll(ts, w.last)
    && AnchorCountAll(ts) == w'.last - w.last && |ts| == |ns|
    && Follows(g, refs, w, a, w', r.created, r.anchors)
    && Names(w'.order, r.nodes, ns)
  }

  lemma {:induction false} SpanRebuilds(g: Memory, refs: Counts, n: Id, w: Walk, a: seq<Pointer>)
    requires Closed(g) && n < |g| && Consistent(refs, w) && Mirrors(g, w, a)
    requires Within(SetupCounts(g, n, w.counts), refs)
    ensures var (t, w') := Span(g, refs, n, w); Rebuilt(g, refs, n, w, a, t, w', Build(t, |w.order|, a))
    decreases Unvisited(g, w.counts), 0
  {
    hide Span, SpanAll, Build, BuildAll, SetupCounts, SetupCountsAll, Rebuilt, Mirrors, Consistent, Within, Follows, Names;
    if n in w.counts {
      RevisitRebuilds(g, refs, n, w, a);
    } else {
      var w1 := Enter(refs, n, w);
      EnterStaysConsistent(refs, n, w);
      EnterMirrors(g, refs, n, w, a);
      SpanFirstVisit(g, refs, n, w);
      var a1 := Announce(a, if Shared(refs, n) then w1.last else NULL_ANCHOR, |w.order|);
      SpanAllRebuilds(g, refs, Children(g[n]), w1, a1);
      var (items, w') := SpanAll(g, refs, Children(g[n]), w1);
      FirstVisitRebuilds(g, refs, n, w, a, items, w');
    }
  }

  lemma RevisitRebuilds(g: Memory, refs: Counts, n: Id, w: Walk, a: seq<Pointer>)
    requires Closed(g) && n < |g| && n in w.counts && Consistent(refs, w) && Mirrors(g, w, a)
    requires Within(SetupCounts(g, n, w.counts), refs)
    ensures var (t, w') := Span(g, refs, n, w); Rebuilt(g, refs, n, w, a, t, w', Build(t, |w.order|, a))
  {
    VisitIsCounted(g, refs, n, w);
    RevisitMirrors(g, refs, n, w, a);
    AliasPointsAt(g, refs, n, w, a);
  }

  lemma FirstVisitRebuilds(g: Memory, refs: Counts, n: Id, w: Walk, a: seq<Pointer>, items: seq<Tree>, w': Walk)
    requires n < |g| && n !in w.counts && Consistent(refs, w) && Mirrors(g, w, a)
    requires var w1 := Enter(refs, n, w);
             var a1 := Announce(a, if Shared(refs, n) then w1.last else NULL_ANCHOR, |w.order|);
             AllRebuilt(g, refs, Children(g[n]), w1, a1, items, w', BuildAll(items, |w1.order|, a1))
    ensures var t := NodeTree(g[n], if Shared(refs, n) then w.last + 1 else NULL_ANCHOR, items);
            Rebuilt(g, refs, n, w, a, t, w', Build(t, |w.order|, a))
  {
    hide Build, BuildAll, NumberedAll, Numbered, Paired, AnchorCount, AnchorCountAll, Follows, Mirrors, Consistent;
    var w1 := Enter(refs, n, w);
    var a1 := Announce(a, if Shared(refs, n) then w1.last else NULL_ANCHOR, |w.order|);
    FirstVisitFollows(g, refs, n, w, a, w', BuildAll(items, |w1.order|, a1));
    NodeTreeRebuilds(g[n], items, w.last, Shared(refs, n), |w.order|, a);
  }

  lemma AliasPointsAt(g: Memory, refs: Counts, n: Id, w: Walk, a: seq<Pointer>)
    requires Consistent(refs, w) && Mirrors(g, w, a) && n in w.anchors
    ensures var k := w.anchors[n];
            1 <= k <= w.last && k < |a| && a[k].At? && a[k].id < |w.order| && w.order[a[k].id] == n
  {
  }

  /** The tree of one node: its numbering, pairing and meaning from those of its children. */
  lemma NodeTreeRebuilds(d: NodeData, items: seq<Tree>, last: nat, shared: bool, base: nat, a: seq<Pointer>)
    requires |items| == |Children(d)| && forall i :: 0 <= i < |items| ==> Paired(items[i])
    requires NumberedAll(items, if shared then last + 1 else last)
    ensures var anchor := if shared then last + 1 else NULL_ANCHOR;
            var t := NodeTree(d, anchor, items);
            var inner := BuildAll(items, base + 1, Announce(a, anchor, base));
            && Paired(t) && Numbered(t, last)
            && AnchorCount(t) == (if shared then 1 else 0) + AnchorCountAll(items)
            && Build(t, base, a) == Built([CopyOf(d, inner.nodes)] + inner.created, inner.anchors, base)
  {
    if items == [] {
      var anchor := if shared then last + 1 else NULL_ANCHOR;
      assert BuildAll(items, base + 1, Announce(a, anchor, base)) == BuiltAll([], Announce(a, anchor, base), []);
    }
  }

  lemma {:induction false} SpanAllRebuilds(g: Memory, refs: Counts, ns: seq<Id>, w: Walk, a: seq<Pointer>)
    requires Closed(g) && Inside(g, ns) && Consistent(refs, w) && Mirrors(g, w, a)
    requires Within(SetupCountsAll(g, ns, w.counts), refs)
    ensures var (ts, w') := SpanAll(g, refs, ns, w); AllRebuilt(g, refs, ns, w, a, ts, w', BuildAll(ts, |w.order|, a))
    decreases Unvisited(g, w.counts), |ns|
  {
    hide Build, BuildAll, Rebuilt, AllRebuilt, Mirrors, Consistent, Span, SpanAll, Follows;
    if ns == [] {
      NothingRebuilds(g, refs, w, a);
    } else {
      SpanAllCons(g, refs, ns, w);
      var (first, w1) := Span(g, refs, ns[0], w);
      SpanRebuilds(g, refs, ns[0], w, a);
      var r1 := Build(first, |w.order|, a);
      RebuiltIsReady(g, refs, ns[0], w, a, first, w1, r1);
      SpanAllRebuilds(g, refs, ns[1..], w1, r1.anchors);
      var (rest, w2) := SpanAll(g, refs, ns[1..], w1);
      ConsRebuilt(g, refs, ns, w, a, first, w1, rest, w2);
    }
  }

  lemma NothingRebuilds(g: Memory, refs: Counts, w: Walk, a: seq<Pointer>)
    requires Closed(g) && Consistent(refs, w) && Mirrors(g, w, a)
    ensures var (ts, w') := SpanAll(g, refs, [], w); AllRebuilt(g, refs, [], w, a, ts, w', BuildAll(ts, |w.order|, a))
  {
    NothingFollows(g, refs, w, a);
  }

  lemma RebuiltIsReady(
      g: Memory, refs: Counts, n: Id, w: Walk, a: seq<Pointer>, t: Tree, w': Walk, r: Built)
    requires Rebuilt(g, refs, n, w, a, t, w', r)
    ensures Consistent(refs, w') && Mirrors(g, w', r.anchors)
  {
  }

  lemma ConsRebuilt(
      g: Memory, refs: Counts, ns: seq<Id>, w: Walk, a: seq<Pointer>, first: Tree, w1: Walk, rest: seq<Tree>, w2: Walk)
    requires ns != []
    requires Rebuilt(g, refs, ns[0], w, a, first, w1, Build(first, |w.order|, a))
    requires var r1 := Build(first, |w.order|, a);
             AllRebuilt(g, refs, ns[1..], w1, r1.anchors, rest, w2, BuildAll(rest, |w1.order|, r1.anchors))
    ensures AllRebuilt(g, refs, ns, w, a, [first] + rest, w2, BuildAll([first] + rest, |w.order|, a))
  {
    hide Build, BuildAll, NumberedAll, Numbered, Paired, AnchorCount, AnchorCountAll;
    var r1 := Build(first, |w.order|, a);
    FollowsTwice(g, refs, ns, w, a, w1, r1, w2, BuildAll(rest, |w1.order|, r1.anchors));
    ConsRebuilds(first, rest, w.last, |w.order|, a);
  }

  lemma NothingFollows(g: Memory, refs: Counts, w: Walk, a: seq<Pointer>)
    requires Consistent(refs, w) && Mirrors(g, w, a)
    ensures Follows(g, refs, w, a, w, [], a)
  {
  }

  lemma FollowsTwice(
      g: Memory, refs: Counts, ns: seq<Id>, w: Walk, a: seq<Pointer>, w1: Walk, r1: Built, w2: Walk, r2: BuiltAll)
    requires ns != []
    requires Follows(g, refs, w, a, w1, r1.created, r1.anchors) && r1.node < |w1.order| && w1.order[r1.node] == ns[0]
    requires Follows(g, refs, w1, r1.anchors, w2, r2.created, r2.anchors) && Names(w2.order, r2.nodes, ns[1..])
    ensures |w1.order| == |w.order| + |r1.created|
    ensures Follows(g, refs, w, a, w2, r1.created + r2.created, r2.anchors)
    ensures Names(w2.order, [r1.node] + r2.nodes, ns)
  {
    AllCopiedGrow(g, w1.order, |w.order|, r1.created, w2.order, r2.created);
  }

  lemma ConsRebuilds(first: Tree, rest: seq<Tree>, last: nat, base: nat, a: seq<Pointer>)
    requires Paired(first) && forall i :: 0 <= i < |rest| ==> Paired(rest[i])
    requires Numbered(first, last) && NumberedAll(rest, last + AnchorCount(first))
    ensures var ts := [first] + rest;
            var r1 := Build(first, base, a);
            var r2 := BuildAll(rest, base + |r1.created|, r1.anchors);
            && (forall i :: 0 <= i < |ts| ==> Paired(ts[i])) && NumberedAll(ts, last)
            && AnchorCountAll(ts) == AnchorCount(first) + AnchorCountAll(rest)
            && BuildAll(ts, base, a) == BuiltAll(r1.created + r2.created, r2.anchors, [r1.node] + r2.nodes)
  {
    var ts := [first] + rest;
    assert ts[0] == first && ts[1..] == rest;
  }

  // Clone

  /** The events of a whole document, replayed by a fresh builder. */
  lemma DocumentBuilds(t: Tree)
    requires Paired(t) && Numbered(t, 0)
    ensures WellFormed(FRESH)
    ensures var r := Build(t, 0, [Nil]);
            Replay(FRESH, [DocumentStart] + Flatten(t) + [DocumentEnd]) ==
            Running(Builder(r.created, At(r.node), [], r.anchors, [], 0))
  {
    var r := Build(t, 0, [Nil]);
    BuilderRefinesBuild(FRESH, t);
    hide Build, Flatten;
    assert [] + r.created == r.created;
    assert [DocumentStart] + Flatten(t) + [DocumentEnd] == [DocumentStart] + (Flatten(t) + [DocumentEnd]);
    assert ([DocumentStart] + (Flatten(t) + [DocumentEnd]))[1..] == Flatten(t) + [DocumentEnd];
    ReplayConcat(FRESH, Flatten(t), [DocumentEnd]);
    ReplayOne(Replay(FRESH, Flatten(t)).builder, DocumentEnd);
  }

  /** The rebuilt nodes are the reachable ones, in the order of their first visit. */
  lemma SpanIsIsomorphic(g: Memory, root: Id)
    requires Closed(g) && root < |g|
    ensures var (t, w) := Span(g, SetupCounts(g, root, map[]), root, START);
            var r := Build(t, 0, [Nil]);
            Paired(t) && Numbered(t, 0) && Isomorphic(g, root, r.created, r.node, w.order)
  {
    var refs := SetupCounts(g, root, map[]);
    SpanRebuilds(g, refs, root, START, [Nil]);
    hide Build;
    var (t, w) := Span(g, refs, root, START);
    forall x
      ensures x in w.order <==> Reachable(g, root, x)
    {
      RefCountsAreEdges(g, root, x);
    }
    var r := Build(t, 0, [Nil]);
    forall j | 0 <= j < |r.created|
      ensures w.order[j] < |g| && Copies(w.order, g[w.order[j]], r.created[j])
    {
      assert w.order[0 + j] == w.order[j];
    }
  }

  /**
   * YAML::Clone. Whatever the graph shares or cycles through, no assert of the builder fails and the
   * result is isomorphic to the part of the graph reachable from the root.
   */
  method Clone(memory: Memory, root: Pointer) returns (copy: Memory, copyRoot: Pointer, ghost origin: seq<Id>)
    requires Closed(memory) && (root.At? ==> root.id < |memory|)
    ensures root.Nil? ==> copyRoot.Nil? && copy == []
    ensures root.At? ==> copyRoot.At? && Isomorphic(memory, root.id, copy, copyRoot.id, origin)
  {
    hide Span, Build, Isomorphic, SetupCounts;
    var events := new NodeEvents(memory, root);
    var builder := new NodeBuilder();
    var log := new EventLog();
    events.Emit(log);
    if root.At? {
      ghost var span := Span(memory, events.refCount, root.id, START);
      origin := span.1.order;
      SpanIsIsomorphic(memory, root.id);
      DocumentBuilds(span.0);
      assert log.events == [DocumentStart] + Flatten(span.0) + [DocumentEnd];
    } else {
      origin := [];
      assert log.events == [DocumentStart, DocumentEnd];
      assert log.events[1..] == [DocumentEnd];
      ReplayOne(FRESH, DocumentEnd);
    }
    builder.ReceiveAll(log.events);
    copy, copyRoot := builder.memory, builder.root;
  }
}
