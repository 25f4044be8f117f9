/**
 * NodeEvents: reference counting of a possibly cyclic, shared graph, and the walk that turns the
 * graph into events. The walk keeps no visited set: only counts above one decide where an alias goes.
 */
module NodeEventing {
  import opened Events
  import opened NodeBuilding

  // Graphs

  function Unpair(pairs: seq<(Id, Id)>): (nodes: seq<Id>)
    ensures |nodes| == 2 * |pairs|
  {
    if pairs == [] then [] else [pairs[0].0, pairs[0].1] + Unpair(pairs[1..])
  }

  /** The children in iteration order; a map yields key, value, key, value, ... */
  function Children(d: NodeData): seq<Id> {
    match d
    case SequenceData(_, _, items) => items
    case MapData(_, _, pairs) => Unpair(pairs)
    case _ => []
  }

  ghost predicate Inside(g: Memory, ns: seq<Id>) {
    forall k :: 0 <= k < |ns| ==> ns[k] < |g|
  }

  /** No pointer leads out of the memory. */
  ghost predicate Closed(g: Memory) {
    forall n :: 0 <= n < |g| ==> Inside(g, Children(g[n]))
  }

  // What Setup computes

  /** An entry exists once its node was visited, and then counts the visits. */
  type Visits = n: nat | n >= 1 witness 1

  type Counts = map<Id, Visits>

  ghost function Unvisited(g: Memory, c: Counts): set<Id> {
    set n: Id | n < |g| && n !in c
  }

  function CountOf(c: Counts, n: Id): nat {
    if n in c then c[n] else 0
  }

  function Bump(c: Counts, n: Id): Counts {
    c[n := CountOf(c, n) + 1]
  }

  function SetupCounts(g: Memory, n: Id, c: Counts): (c': Counts)
    requires Closed(g) && n < |g|
    ensures c.Keys <= c'.Keys
    decreases Unvisited(g, c), 0
  {
    var c1 := Bump(c, n);
    if n in c then c1
    else
      assert n in Unvisited(g, c) && n !in Unvisited(g, c1);
      SetupCountsAll(g, Children(g[n]), c1)
  }

  function SetupCountsAll(g: Memory, ns: seq<Id>, c: Counts): (c': Counts)
    requires Closed(g) && Inside(g, ns)
    ensures c.Keys <= c'.Keys
    decreases Unvisited(g, c), |ns|
  {
    if ns == [] then c
    else
      var c1 := SetupCounts(g, ns[0], c);
      assert Unvisited(g, c1) <= Unvisited(g, c);
      SetupCountsAll(g, ns[1..], c1)
  }

  /** Every count of c is part of a count in refs. */
  ghost predicate Within(c: Counts, refs: Counts) {
    forall x :: x in c ==> x in refs && c[x] <= refs[x]
  }

  lemma {:induction false} SetupGrows(g: Memory, n: Id, c: Counts)
    requires Closed(g) && n < |g|
    ensures Within(Bump(c, n), SetupCounts(g, n, c))
    ensures forall x :: x in SetupCounts(g, n, c) ==> x in c || x < |g|
    decreases Unvisited(g, c), 0
  {
    var c1 := Bump(c, n);
    if n !in c {
      assert n in Unvisited(g, c) && n !in Unvisited(g, c1);
      SetupAllGrows(g, Children(g[n]), c1);
    }
  }

  lemma {:induction false} SetupAllGrows(g: Memory, ns: seq<Id>, c: Counts)
    requires Closed(g) && Inside(g, ns)
    ensures Within(c, SetupCountsAll(g, ns, c))
    ensures forall x :: x in SetupCountsAll(g, ns, c) ==> x in c || x < |g|
    decreases Unvisited(g, c), |ns|
  {
    if ns != [] {
      var c1 := SetupCounts(g, ns[0], c);
      SetupGrows(g, ns[0], c);
      assert Unvisited(g, c1) <= Unvisited(g, c);
      SetupAllGrows(g, ns[1..], c1);
    }
  }

  // The walk, with a visited set: the reference for Emit

  /** How far a walk has come: visits so far, nodes in the order of their first visit, anchors handed out. */
  datatype Walk = Walk(counts: Counts, order: seq<Id>, anchors: map<Id, Anchor>, last: Anchor)

  const START := Walk(map[], [], map[], 0)

  predicate Shared(refs: Counts, n: Id) {
    CountOf(refs, n) > 1
  }

  function Enter(refs: Counts, n: Id, w: Walk): Walk {
    var w1 := Walk(Bump(w.counts, n), w.order + [n], w.anchors, w.last);
    if Shared(refs, n) then w1.(anchors := w.anchors[n := w.last + 1], last := w.last + 1) else w1
  }

  function NodeTree(d: NodeData, anchor: Anchor, items: seq<Tree>): Tree {
    match d
    case NullData => NullNode("", anchor)
    case ScalarData(tag, value) => ScalarNode("", anchor, tag, value)
    case SequenceData(tag, style, _) => SequenceNode("", anchor, tag, style, items)
    case MapData(tag, style, _) => MapNode("", anchor, tag, style, items)
  }

  /** First visit: the node and its children, in order. Later visit: an alias. */
  function Span(g: Memory, refs: Counts, n: Id, w: Walk): (r: (Tree, Walk))
    requires Closed(g) && n < |g|
    ensures r.1.counts == SetupCounts(g, n, w.counts)
    decreases Unvisited(g, w.counts), 0
  {
    if n in w.counts then
      (AliasOf(if n in w.anchors then w.anchors[n] else NULL_ANCHOR), w.(counts := Bump(w.counts, n)))
    else
      var w1 := Enter(refs, n, w);
      assert n in Unvisited(g, w.counts) && n !in Unvisited(g, w1.counts);
      var (items, w2) := SpanAll(g, refs, Children(g[n]), w1);
      (NodeTree(g[n], if Shared(refs, n) then w1.last else NULL_ANCHOR, items), w2)
  }

  function SpanAll(g: Memory, refs: Counts, ns: seq<Id>, w: Walk): (r: (seq<Tree>, Walk))
    requires Closed(g) && Inside(g, ns)
    ensures r.1.counts == SetupCountsAll(g, ns, w.counts) && |r.0| == |ns|
    decreases Unvisited(g, w.counts), |ns|
  {
    if ns == [] then ([], w)
    else
      var (first, w1) := Span(g, refs, ns[0], w);
      assert Unvisited(g, w1.counts) <= Unvisited(g, w.counts);
      var (rest, w2) := SpanAll(g, refs, ns[1..], w1);
      ([first] + rest, w2)
  }

  // The classes

  class AliasManager {
    var anchorByIdentity: map<Id, Anchor>
    var curAnchor: Anchor

    constructor ()
      ensures anchorByIdentity == map[] && curAnchor == 0
    {
      anchorByIdentity, curAnchor := map[], 0;
    }

    /** Like std::map::insert, a second registration of a node changes no entry but uses up an anchor. */
    method RegisterReference(node: Id)
      modifies this
      ensures curAnchor == old(curAnchor) + 1
      ensures anchorByIdentity ==
              if node in old(anchorByIdentity) then old(anchorByIdentity)
              else old(anchorByIdentity)[node := curAnchor]
    {
      curAnchor := curAnchor + 1;
      if node !in anchorByIdentity {
        anchorByIdentity := anchorByIdentity[node := curAnchor];
      }
    }

    function LookupAnchor(node: Id): Anchor
      reads this
    {
      if node in anchorByIdentity then anchorByIdentity[node] else NULL_ANCHOR
    }
  }

  /** The anchors of w are those of the visited shared nodes. */
  ghost predicate Consistent(refs: Counts, w: Walk) {
    && (forall x :: x in w.anchors <==> x in w.counts && Shared(refs, x))
    && (forall x :: x in w.anchors ==> 1 <= w.anchors[x] <= w.last)
  }

  lemma EnterStaysConsistent(refs: Counts, n: Id, w: Walk)
    requires Consistent(refs, w) && n !in w.counts
    ensures Consistent(refs, Enter(refs, n, w))
  {
  }

  class NodeEvents {
    const memory: Memory
    const root: Pointer
    var refCount: Counts

    constructor (memory: Memory, root: Pointer)
      requires Closed(memory) && (root.At? ==> root.id < |memory|)
      ensures this.memory == memory && this.root == root
      ensures refCount == if root.At? then SetupCounts(memory, root.id, map[]) else map[]
    {
      this.memory, this.root, refCount := memory, root, map[];
      new;
      if root.At? {
        Setup(root.id);
      }
    }

    method Setup(node: Id)
      requires Closed(memory) && node < |memory|
      modifies this
      ensures refCount == SetupCounts(memory, node, old(refCount))
      decreases Unvisited(memory, refCount), 0
    {
      ghost var before := refCount;
      refCount := Bump(refCount, node);
      if refCount[node] > 1 {
        return;
      }
      assert node in Unvisited(memory, before) && node !in Unvisited(memory, refCount);
      match memory[node]
      case SequenceData(_, _, items) => SetupElements(items);
      case MapData(_, _, pairs) => SetupPairs(pairs);
      case _ =>
    }

    method SetupElements(items: seq<Id>)
      requires Closed(memory) && Inside(memory, items)
      modifies this
      ensures refCount == SetupCountsAll(memory, items, old(refCount))
      decreases Unvisited(memory, refCount), |items|
    {
      ghost var before := refCount;
      assert items[0..] == items;
      for i := 0 to |items|
        invariant Unvisited(memory, refCount) <= Unvisited(memory, before)
        invariant SetupCountsAll(memory, items[i..], refCount) == SetupCountsAll(memory, items, before)
      {
        assert items[i..][0] == items[i] && items[i..][1..] == items[i + 1..];
        Setup(items[i]);
      }
    }

    method SetupPairs(pairs: seq<(Id, Id)>)
      requires Closed(memory) && Inside(memory, Unpair(pairs))
      modifies this
      ensures refCount == SetupCountsAll(memory, Unpair(pairs), old(refCount))
      decreases Unvisited(memory, refCount), |Unpair(pairs)|
    {
      ghost var before := refCount;
      assert pairs[0..] == pairs;
      for i := 0 to |pairs|
        invariant Unvisited(memory, refCount) <= Unvisited(memory, before)
        invariant Inside(memory, Unpair(pairs[i..]))
        invariant SetupCountsAll(memory, Unpair(pairs[i..]), refCount) == SetupCountsAll(memory, Unpair(pairs), before)
      {
        ghost var key, value, rest := pairs[i].0, pairs[i].1, Unpair(pairs[i + 1..]);
        UnpairStep(pairs, i);
        SetupTwo(memory, key, value, rest, refCount);
        Setup(pairs[i].0);
        Setup(pairs[i].1);
      }
    }

    predicate IsAliased(node: Id)
      reads this
    {
      node in refCount && refCount[node] > 1
    }

    /** The events of the whole graph; a null root gives an empty document. */
    method Emit(handler: EventLog)
      requires Closed(memory) && (root.At? ==> root.id < |memory|)
      requires root.At? ==> refCount == SetupCounts(memory, root.id, map[])
      modifies handler
      ensures handler.events == old(handler.events) + [DocumentStart] +
              (if root.At? then Flatten(Span(memory, refCount, root.id, START).0) else []) + [DocumentEnd]
    {
      var am := new AliasManager();
      handler.Record(DocumentStart);
      if root.At? {
        EmitNode(root.id, handler, am, START);
      }
      handler.Record(DocumentEnd);
    }

    ghost predicate Tracks(am: AliasManager, w: Walk)
      reads this, am
    {
      am.anchorByIdentity == w.anchors && am.curAnchor == w.last && Consistent(refCount, w)
    }

    method EmitNode(node: Id, handler: EventLog, am: AliasManager, ghost w: Walk)
      requires Closed(memory) && node < |memory|
      requires Tracks(am, w) && Within(SetupCounts(memory, node, w.counts), refCount)
      modifies handler, am
      ensures var (tree, w') := Span(memory, refCount, node, w);
              handler.events == old(handler.events) + Flatten(tree) && Tracks(am, w')
      decreases Unvisited(memory, w.counts), 0
    {
      var anchor := NULL_ANCHOR;
      VisitIsCounted(memory, refCount, node, w);
      if IsAliased(node) {
        anchor := am.LookupAnchor(node);
        if anchor != NULL_ANCHOR {
          handler.Record(Alias(anchor));
          return;
        }
        am.RegisterReference(node);
        anchor := am.LookupAnchor(node);
      }
      ghost var w1 := Enter(refCount, node, w);
      EnterStaysConsistent(refCount, node, w);
      SpanFirstVisit(memory, refCount, node, w);
      hide Span, SpanAll, SetupCounts, SetupCountsAll, Flatten;
      EmitContents(node, anchor, handler, am, w1);
    }

    /** The part of EmitNode that describes a node met for the first time. */
    method EmitContents(node: Id, anchor: Anchor, handler: EventLog, am: AliasManager, ghost w: Walk)
      requires Closed(memory) && node < |memory|
      requires Tracks(am, w) && Within(SetupCountsAll(memory, Children(memory[node]), w.counts), refCount)
      modifies handler, am
      ensures var (items, w') := SpanAll(memory, refCount, Children(memory[node]), w);
              && handler.events == old(handler.events) + Flatten(NodeTree(memory[node], anchor, items))
              && Tracks(am, w')
      decreases Unvisited(memory, w.counts), |Children(memory[node])| + 1
    {
      assert SpanAll(memory, refCount, [], w) == ([], w);
      hide SpanAll, SetupCountsAll, Flatten, FlattenAll, Consistent, Within, Unpair;
      ghost var trees := SpanAll(memory, refCount, Children(memory[node]), w).0;
      FlattenNodeTree(memory[node], anchor, trees);
      match memory[node]
      case NullData => handler.Record(Null(anchor));
      case ScalarData(tag, value) => handler.Record(Scalar(tag, anchor, value));
      case SequenceData(tag, style, items) =>
        handler.Record(SequenceStart(tag, anchor, style));
        EmitElements(items, handler, am, w);
        handler.Record(SequenceEnd);
        Bracketed(old(handler.events), SequenceStart(tag, anchor, style), FlattenAll(trees), SequenceEnd);
      case MapData(tag, style, pairs) =>
        handler.Record(MapStart(tag, anchor, style));
        EmitPairs(pairs, handler, am, w);
        handler.Record(MapEnd);
        Bracketed(old(handler.events), MapStart(tag, anchor, style), FlattenAll(trees), MapEnd);
    }

    method EmitElements(items: seq<Id>, handler: EventLog, am: AliasManager, ghost w: Walk)
      requires Closed(memory) && Inside(memory, items)
      requires Tracks(am, w) && Within(SetupCountsAll(memory, items, w.counts), refCount)
      modifies handler, am
      ensures var (trees, w') := SpanAll(memory, refCount, items, w);
              handler.events == old(handler.events) + FlattenAll(trees) && Tracks(am, w')
      decreases Unvisited(memory, w.counts), |items|
    {
      hide Span, SpanAll, SetupCounts, SetupCountsAll, Remaining, FlattenAll;
      assert FlattenAll([]) == [] by { FlattenAllNone(); }
      ghost var walk, done := w, [];
      assert items[0..] == items;
      RemainingAtFirst(memory, refCount, items, w);
      for i := 0 to |items|
        invariant Remaining(memory, refCount, items, w, done, items[i..], walk)
        invariant handler.events == old(handler.events) + FlattenAll(done) && Tracks(am, walk)
      {
        assert items[i..] == [items[i]] + items[i + 1..];
        RemainingStep(memory, refCount, items, w, done, items[i], items[i + 1..], walk);
        EmitNode(items[i], handler, am, walk);
        ghost var (tree, next) := Span(memory, refCount, items[i], walk);
        FlattenAllAppend(done, tree);
        walk, done := next, done + [tree];
      }
      RemainingAtLast(memory, refCount, items, w, done, walk);
    }

    method EmitPairs(pairs: seq<(Id, Id)>, handler: EventLog, am: AliasManager, ghost w: Walk)
      requires Closed(memory) && Inside(memory, Unpair(pairs))
      requires Tracks(am, w) && Within(SetupCountsAll(memory, Unpair(pairs), w.counts), refCount)
      modifies handler, am
      ensures var (trees, w') := SpanAll(memory, refCount, Unpair(pairs), w);
              handler.events == old(handler.events) + FlattenAll(trees) && Tracks(am, w')
      decreases Unvisited(memory, w.counts), |Unpair(pairs)|
    {
      hide Span, SpanAll, SetupCounts, SetupCountsAll, Remaining, FlattenAll;
      assert FlattenAll([]) == [] by { FlattenAllNone(); }
      ghost var walk, done := w, [];
      assert pairs[0..] == pairs;
      RemainingAtFirst(memory, refCount, Unpair(pairs), w);
      for i := 0 to |pairs|
        invariant Remaining(memory, refCount, Unpair(pairs), w, done, Unpair(pairs[i..]), walk)
        invariant handler.events == old(handler.events) + FlattenAll(done) && Tracks(am, walk)
      {
        ghost var key, value, rest := pairs[i].0, pairs[i].1, Unpair(pairs[i + 1..]);
        UnpairStep(pairs, i);
        RemainingStep(memory, refCount, Unpair(pairs), w, done, key, [value] + rest, walk);
        ghost var (keyTree, next) := Span(memory, refCount, key, walk);
        RemainingStep(memory, refCount, Unpair(pairs), w, done + [keyTree], value, rest, next);
        ghost var (valueTree, next') := Span(memory, refCount, value, next);
        FlattenAllAppend(done, keyTree);
        FlattenAllAppend(done + [keyTree], valueTree);
        EmitNode(pairs[i].0, handler, am, walk);
        EmitNode(pairs[i].1, handler, am, next);
        walk, done := next', done + [keyTree] + [valueTree];
      }
      RemainingAtLast(memory, refCount, Unpair(pairs), w, done, walk);
    }
  }

  lemma Bracketed(before: seq<Event>, start: Event, inner: seq<Event>, end: Event)
    ensures before + [start] + inner + [end] == before + ([start] + inner + [end])
  {
  }

  lemma FlattenNodeTree(d: NodeData, anchor: Anchor, items: seq<Tree>)
    ensures Flatten(NodeTree(d, anchor, items)) ==
            match d
            case NullData => [Null(anchor)]
            case ScalarData(tag, value) => [Scalar(tag, anchor, value)]
            case SequenceData(tag, style, _) => [SequenceStart(tag, anchor, style)] + FlattenAll(items) + [SequenceEnd]
            case MapData(tag, style, _) => [MapStart(tag, anchor, style)] + FlattenAll(items) + [MapEnd]
  {
  }

  /** Inside a loop over the children `all`: the trees `done` were emitted, `rest` is still to be visited. */
  ghost predicate Remaining(g: Memory, refs: Counts, all: seq<Id>, start: Walk, done: seq<Tree>, rest: seq<Id>, w: Walk)
    requires Closed(g) && Inside(g, all)
  {
    && Inside(g, rest) && |rest| <= |all|
    && Unvisited(g, w.counts) <= Unvisited(g, start.counts)
    && Within(SetupCountsAll(g, rest, w.counts), refs)
    && var (trees, last) := SpanAll(g, refs, rest, w);
       SpanAll(g, refs, all, start) == (done + trees, last)
  }

  lemma FlattenAllNone()
    ensures FlattenAll([]) == []
  {
  }

  lemma RemainingAtFirst(g: Memory, refs: Counts, all: seq<Id>, start: Walk)
    requires Closed(g) && Inside(g, all) && Within(SetupCountsAll(g, all, start.counts), refs)
    ensures Remaining(g, refs, all, start, [], all, start)
  {
    hide SpanAll, SetupCountsAll;
    assert [] + SpanAll(g, refs, all, start).0 == SpanAll(g, refs, all, start).0;
  }

  lemma RemainingAtLast(g: Memory, refs: Counts, all: seq<Id>, start: Walk, done: seq<Tree>, w: Walk)
    requires Closed(g) && Inside(g, all) && Remaining(g, refs, all, start, done, [], w)
    ensures SpanAll(g, refs, all, start) == (done, w)
  {
    assert done + [] == done;
  }

  lemma RemainingStep(g: Memory, refs: Counts, all: seq<Id>, start: Walk, done: seq<Tree>, n: Id, rest: seq<Id>, w: Walk)
    requires Closed(g) && Inside(g, all) && Remaining(g, refs, all, start, done, [n] + rest, w)
    ensures n < |g| && all != [] && Within(SetupCounts(g, n, w.counts), refs)
    ensures Unvisited(g, w.counts) <= Unvisited(g, start.counts)
    ensures var (tree, next) := Span(g, refs, n, w); Remaining(g, refs, all, start, done + [tree], rest, next)
  {
    assert ([n] + rest)[0] == n && ([n] + rest)[1..] == rest;
    var (tree, next) := Span(g, refs, n, w);
    var (trees, last) := SpanAll(g, refs, rest, next);
    assert done + ([tree] + trees) == done + [tree] + trees;
    SetupGrows(g, n, w.counts);
    SetupAllGrows(g, rest, next.counts);
    assert Unvisited(g, next.counts) <= Unvisited(g, w.counts);
  }

  lemma SpanFirstVisit(g: Memory, refs: Counts, n: Id, w: Walk)
    requires Closed(g) && n < |g| && n !in w.counts
    requires Within(SetupCounts(g, n, w.counts), refs)
    ensures Unvisited(g, Enter(refs, n, w).counts) < Unvisited(g, w.counts)
    ensures var w1 := Enter(refs, n, w);
            var (items, w2) := SpanAll(g, refs, Children(g[n]), w1);
            && Within(SetupCountsAll(g, Children(g[n]), w1.counts), refs)
            && Span(g, refs, n, w) == (NodeTree(g[n], if Shared(refs, n) then w1.last else NULL_ANCHOR, items), w2)
  {
    assert n in Unvisited(g, w.counts) && n !in Unvisited(g, Enter(refs, n, w).counts);
  }

  /** A node met again is one the counts call shared, since all visits still to come were counted. */
  lemma VisitIsCounted(g: Memory, refs: Counts, n: Id, w: Walk)
    requires Closed(g) && n < |g| && Consistent(refs, w)
    requires Within(SetupCounts(g, n, w.counts), refs)
    ensures n in w.counts ==> Shared(refs, n) && n in w.anchors
  {
    SetupGrows(g, n, w.counts);
  }

  lemma UnpairStep(pairs: seq<(Id, Id)>, i: nat)
    requires i < |pairs|
    ensures Unpair(pairs[i..]) == [pairs[i].0, pairs[i].1] + Unpair(pairs[i + 1..])
    ensures Unpair(pairs[i..]) == [pairs[i].0] + ([pairs[i].1] + Unpair(pairs[i + 1..]))
  {
    assert pairs[i..][0] == pairs[i] && pairs[i..][1..] == pairs[i + 1..];
    var rest := Unpair(pairs[i + 1..]);
    assert [pairs[i].0, pairs[i].1] + rest == [pairs[i].0] + ([pairs[i].1] + rest);
  }

  lemma SetupTwo(g: Memory, key: Id, value: Id, rest: seq<Id>, c: Counts)
    requires Closed(g) && Inside(g, [key, value] + rest)
    ensures key < |g| && value < |g| && Inside(g, rest)
    ensures SetupCountsAll(g, [key, value] + rest, c) ==
            SetupCountsAll(g, rest, SetupCounts(g, value, SetupCounts(g, key, c)))
  {
    var all := [key, value] + rest;
    assert all[0] == key && all[1] == value && all[1..] == [value] + rest && all[2..] == rest;
    assert ([value] + rest)[1..] == rest;
    assert forall k :: 0 <= k < |rest| ==> rest[k] == all[k + 2];
  }

  lemma SpanAllCons(g: Memory, refs: Counts, ns: seq<Id>, w: Walk)
    requires Closed(g) && Inside(g, ns) && ns != [] && Within(SetupCountsAll(g, ns, w.counts), refs)
    ensures var (first, w1) := Span(g, refs, ns[0], w);
            var (rest, w2) := SpanAll(g, refs, ns[1..], w1);
            && SpanAll(g, refs, ns, w) == ([first] + rest, w2)
            && Unvisited(g, w1.counts) <= Unvisited(g, w.counts)
            && Within(SetupCounts(g, ns[0], w.counts), refs)
            && Within(SetupCountsAll(g, ns[1..], w1.counts), refs)
  {
    SetupAllGrows(g, ns[1..], Span(g, refs, ns[0], w).1.counts);
  }
}
