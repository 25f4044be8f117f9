/** What the reference counts mean: which nodes have one, and that it is the number of ways into the node. */
module RefCounts {
  import opened Events
  import opened NodeBuilding
  import opened NodeEventing

  function Occurrences(ns: seq<Id>, x: Id): nat {
    if ns == [] then 0 else (if ns[0] == x then 1 else 0) + Occurrences(ns[1..], x)
  }

  /** Edges into x from the nodes of `from` below position k. */
  ghost function EdgesInto(g: Memory, from: set<Id>, x: Id, k: nat): nat
    requires k <= |g|
  {
    if k == 0 then 0
    else EdgesInto(g, from, x, k - 1) + (if k - 1 in from then Occurrences(Children(g[k - 1]), x) else 0)
  }

  lemma {:induction false} EdgesIntoNone(g: Memory, from: set<Id>, x: Id, k: nat)
    requires k <= |g| && forall m :: m in from ==> k <= m
    ensures EdgesInto(g, from, x, k) == 0
  {
    if k > 0 {
      EdgesIntoNone(g, from, x, k - 1);
    }
  }

  lemma {:induction false} EdgesIntoUnion(g: Memory, from: set<Id>, more: set<Id>, x: Id, k: nat)
    requires k <= |g| && from !! more
    ensures EdgesInto(g, from + more, x, k) == EdgesInto(g, from, x, k) + EdgesInto(g, more, x, k)
  {
    if k > 0 {
      EdgesIntoUnion(g, from, more, x, k - 1);
    }
  }

  lemma {:induction false} EdgesIntoOne(g: Memory, n: Id, x: Id, k: nat)
    requires k <= |g|
    ensures EdgesInto(g, {n}, x, k) == if n < k then Occurrences(Children(g[n]), x) else 0
  {
    if k > 0 {
      EdgesIntoOne(g, n, x, k - 1);
    }
  }

  /** Setup of one node adds one for the call and one for each edge out of a node it met first. */
  lemma {:induction false} SetupCountsEdges(g: Memory, n: Id, c: Counts, x: Id)
    requires Closed(g) && n < |g|
    ensures var c' := SetupCounts(g, n, c);
            CountOf(c', x) == CountOf(c, x) + (if x == n then 1 else 0) + EdgesInto(g, c'.Keys - c.Keys, x, |g|)
    decreases Unvisited(g, c), 0
  {
    var c1, c' := Bump(c, n), SetupCounts(g, n, c);
    if n in c {
      assert c'.Keys - c.Keys == {};
      EdgesIntoNone(g, {}, x, |g|);
    } else {
      assert n in Unvisited(g, c) && n !in Unvisited(g, c1);
      SetupCountsAllEdges(g, Children(g[n]), c1, x);
      assert c'.Keys - c.Keys == {n} + (c'.Keys - c1.Keys);
      EdgesIntoUnion(g, {n}, c'.Keys - c1.Keys, x, |g|);
      EdgesIntoOne(g, n, x, |g|);
    }
  }

  lemma {:induction false} SetupCountsAllEdges(g: Memory, ns: seq<Id>, c: Counts, x: Id)
    requires Closed(g) && Inside(g, ns)
    ensures var c' := SetupCountsAll(g, ns, c);
            CountOf(c', x) == CountOf(c, x) + Occurrences(ns, x) + EdgesInto(g, c'.Keys - c.Keys, x, |g|)
    decreases Unvisited(g, c), |ns|
  {
    var c' := SetupCountsAll(g, ns, c);
    if ns == [] {
      assert c'.Keys - c.Keys == {};
      EdgesIntoNone(g, {}, x, |g|);
    } else {
      var c1 := SetupCounts(g, ns[0], c);
      assert Unvisited(g, c1) <= Unvisited(g, c);
      SetupCountsEdges(g, ns[0], c, x);
      SetupCountsAllEdges(g, ns[1..], c1, x);
      assert c'.Keys - c.Keys == (c1.Keys - c.Keys) + (c'.Keys - c1.Keys);
      EdgesIntoUnion(g, c1.Keys - c.Keys, c'.Keys - c1.Keys, x, |g|);
    }
  }

  // Reachability

  /** p leads along edges from its first node to its last. */
  ghost predicate IsPath(g: Memory, p: seq<Id>)
    requires Closed(g)
  {
    && p != [] && Inside(g, p)
    && forall i :: 0 < i < |p| ==> p[i] in Children(g[p[i - 1]])
  }

  ghost predicate Reachable(g: Memory, from: Id, to: Id)
    requires Closed(g)
  {
    exists p :: IsPath(g, p) && p[0] == from && p[|p| - 1] == to
  }

  lemma ReachableSelf(g: Memory, n: Id)
    requires Closed(g) && n < |g|
    ensures Reachable(g, n, n)
  {
    assert IsPath(g, [n]);
  }

  lemma ReachableStep(g: Memory, from: Id, n: Id, child: Id)
    requires Closed(g) && Reachable(g, from, n) && n < |g| && child in Children(g[n])
    ensures Reachable(g, from, child)
  {
    var p :| IsPath(g, p) && p[0] == from && p[|p| - 1] == n;
    assert IsPath(g, p + [child]);
  }

  /** The nodes met between c and c' are reachable, and every child of theirs was met. */
  ghost predicate Met(g: Memory, root: Id, c: Counts, c': Counts)
    requires Closed(g)
  {
    forall m :: m in c' && m !in c ==>
      m < |g| && Reachable(g, root, m) && forall k :: 0 <= k < |Children(g[m])| ==> Children(g[m])[k] in c'
  }

  lemma MetBoth(g: Memory, root: Id, c: Counts, c1: Counts, c': Counts)
    requires Closed(g) && Met(g, root, c, c1) && Met(g, root, c1, c') && c1.Keys <= c'.Keys
    ensures Met(g, root, c, c')
  {
    hide Reachable;
  }

  /** The first visit meets the node itself. */
  lemma MetFirst(g: Memory, root: Id, n: Id, c: Counts, c': Counts)
    requires Closed(g) && n < |g| && Reachable(g, root, n) && n !in c && Bump(c, n).Keys <= c'.Keys
    requires Met(g, root, Bump(c, n), c') && forall k :: 0 <= k < |Children(g[n])| ==> Children(g[n])[k] in c'
    ensures n in c' && Met(g, root, c, c')
  {
    hide Reachable;
  }

  lemma {:induction false} SetupMeets(g: Memory, root: Id, n: Id, c: Counts)
    requires Closed(g) && n < |g| && Reachable(g, root, n)
    ensures n in SetupCounts(g, n, c) && Met(g, root, c, SetupCounts(g, n, c))
    decreases Unvisited(g, c), 0
  {
    hide Reachable, Met;
    var c1, c' := Bump(c, n), SetupCounts(g, n, c);
    if n in c {
      NothingMet(g, root, c, c1);
    } else {
      assert n in Unvisited(g, c) && n !in Unvisited(g, c1);
      forall k | 0 <= k < |Children(g[n])|
        ensures Reachable(g, root, Children(g[n])[k])
      {
        ReachableStep(g, root, n, Children(g[n])[k]);
      }
      SetupAllMeets(g, root, Children(g[n]), c1);
      MetFirst(g, root, n, c, c');
    }
  }

  lemma NothingMet(g: Memory, root: Id, c: Counts, c': Counts)
    requires Closed(g) && c'.Keys <= c.Keys
    ensures Met(g, root, c, c')
  {
  }

  lemma {:induction false} SetupAllMeets(g: Memory, root: Id, ns: seq<Id>, c: Counts)
    requires Closed(g) && Inside(g, ns) && forall k :: 0 <= k < |ns| ==> Reachable(g, root, ns[k])
    ensures (forall k :: 0 <= k < |ns| ==> ns[k] in SetupCountsAll(g, ns, c)) && Met(g, root, c, SetupCountsAll(g, ns, c))
    decreases Unvisited(g, c), |ns|
  {
    hide Reachable, Met;
    if ns == [] {
      NothingMet(g, root, c, c);
    } else {
      var c1 := SetupCounts(g, ns[0], c);
      SetupMeets(g, root, ns[0], c);
      assert Unvisited(g, c1) <= Unvisited(g, c);
      SetupAllMeets(g, root, ns[1..], c1);
      MetBoth(g, root, c, c1, SetupCountsAll(g, ns, c));
    }
  }

  lemma {:induction false} ClosedSetHoldsPaths(g: Memory, s: set<Id>, p: seq<Id>)
    requires Closed(g) && IsPath(g, p) && p[0] in s
    requires forall m :: m in s ==> m < |g| && forall k :: 0 <= k < |Children(g[m])| ==> Children(g[m])[k] in s
    ensures p[|p| - 1] in s
    decreases |p|
  {
    if |p| > 1 {
      var q := p[..|p| - 1];
      assert IsPath(g, q);
      ClosedSetHoldsPaths(g, s, q);
      assert p[|p| - 1] in Children(g[p[|p| - 2]]);
    }
  }

  /**
   * The counts Setup leaves for a graph: exactly the reachable nodes have one, and it is the number of
   * edges from reachable nodes, plus one for the root.
   */
  lemma RefCountsAreEdges(g: Memory, root: Id, x: Id)
    requires Closed(g) && root < |g|
    ensures var refs := SetupCounts(g, root, map[]);
            && (x in refs <==> Reachable(g, root, x))
            && CountOf(refs, x) == EdgesInto(g, refs.Keys, x, |g|) + (if x == root then 1 else 0)
  {
    var refs := SetupCounts(g, root, map[]);
    ReachableSelf(g, root);
    SetupMeets(g, root, root, map[]);
    if Reachable(g, root, x) {
      var p :| IsPath(g, p) && p[0] == root && p[|p| - 1] == x;
      ClosedSetHoldsPaths(g, refs.Keys, p);
    }
    SetupCountsEdges(g, root, map[], x);
    var none: Counts := map[];
    assert refs.Keys - none.Keys == refs.Keys;
  }

  // Aliases

  function AliasesTo(t: Tree, k: Anchor): nat
    decreases t, 1
  {
    match t
    case AliasOf(target) => if target == k then 1 else 0
    case SequenceNode(_, _, _, _, items) => AliasesToAll(items, k)
    case MapNode(_, _, _, _, items) => AliasesToAll(items, k)
    case _ => 0
  }

  function AliasesToAll(ts: seq<Tree>, k: Anchor): nat
    decreases ts, 0
  {
    if ts == [] then 0 else AliasesTo(ts[0], k) + AliasesToAll(ts[1..], k)
  }

  ghost predicate Injective(w: Walk) {
    forall x, y :: x in w.anchors && y in w.anchors && w.anchors[x] == w.anchors[y] ==> x == y
  }

  /** From w to w' the anchors only grew, and the aliases in ts account for the visits of x. */
  ghost predicate Accounts(refs: Counts, x: Id, w: Walk, w': Walk, ts: seq<Tree>) {
    && Consistent(refs, w') && Injective(w') && w.last <= w'.last && w.counts.Keys <= w'.counts.Keys
    && (forall k :: k > w'.last ==> AliasesToAll(ts, k) == 0)
    && (x in w.anchors ==> x in w'.anchors && w'.anchors[x] == w.anchors[x])
    && (x in w'.anchors && x !in w.anchors ==> w'.anchors[x] > w.last)
    && (x in w'.anchors ==>
          CountOf(w'.counts, x) ==
          CountOf(w.counts, x) + AliasesToAll(ts, w'.anchors[x]) + (if x in w.anchors then 0 else 1))
  }

  lemma {:induction false} SpanAliases(g: Memory, refs: Counts, n: Id, w: Walk, x: Id)
    requires Closed(g) && n < |g| && Consistent(refs, w) && Injective(w)
    requires Within(SetupCounts(g, n, w.counts), refs)
    ensures var (t, w') := Span(g, refs, n, w); Accounts(refs, x, w, w', [t])
    decreases Unvisited(g, w.counts), 0
  {
    hide Accounts, SpanAll, SetupCounts, SetupCountsAll;
    var (t, w') := Span(g, refs, n, w);
    VisitIsCounted(g, refs, n, w);
    if n in w.counts {
      AliasAccounts(refs, n, w, x);
    } else {
      var w1 := Enter(refs, n, w);
      EnterStaysConsistent(refs, n, w);
      SpanFirstVisit(g, refs, n, w);
      SpanAllAliases(g, refs, Children(g[n]), w1, x);
      var items := SpanAll(g, refs, Children(g[n]), w1).0;
      EnterAccounts(refs, n, w, w', x, g[n], items);
    }
  }

  lemma AliasAccounts(refs: Counts, n: Id, w: Walk, x: Id)
    requires n in w.counts && n in w.anchors && Consistent(refs, w) && Injective(w)
    ensures Accounts(refs, x, w, w.(counts := Bump(w.counts, n)), [AliasOf(w.anchors[n])])
  {
    assert forall k :: AliasesToAll([AliasOf(w.anchors[n])], k) == AliasesTo(AliasOf(w.anchors[n]), k);
  }

  lemma EnterAccounts(refs: Counts, n: Id, w: Walk, w': Walk, x: Id, d: NodeData, items: seq<Tree>)
    requires n !in w.counts && Consistent(refs, w) && Injective(w) && |items| == |Children(d)|
    requires Accounts(refs, x, Enter(refs, n, w), w', items)
    ensures Accounts(refs, x, w, w', [NodeTree(d, if Shared(refs, n) then w.last + 1 else NULL_ANCHOR, items)])
  {
    var t := NodeTree(d, if Shared(refs, n) then w.last + 1 else NULL_ANCHOR, items);
    forall k
      ensures AliasesToAll([t], k) == AliasesToAll(items, k)
    {
      assert AliasesToAll([t], k) == AliasesTo(t, k);
    }
  }

  lemma {:induction false} SpanAllAliases(g: Memory, refs: Counts, ns: seq<Id>, w: Walk, x: Id)
    requires Closed(g) && Inside(g, ns) && Consistent(refs, w) && Injective(w)
    requires Within(SetupCountsAll(g, ns, w.counts), refs)
    ensures var (ts, w') := SpanAll(g, refs, ns, w); Accounts(refs, x, w, w', ts)
    decreases Unvisited(g, w.counts), |ns|
  {
    if ns == [] {
      assert forall k :: AliasesToAll([], k) == 0;
    } else {
      SpanAllCons(g, refs, ns, w);
      var (first, w1) := Span(g, refs, ns[0], w);
      SpanAliases(g, refs, ns[0], w, x);
      SpanAllAliases(g, refs, ns[1..], w1, x);
      var (rest, w2) := SpanAll(g, refs, ns[1..], w1);
      AccountsTwice(refs, x, w, w1, w2, first, rest);
    }
  }

  lemma AccountsTwice(refs: Counts, x: Id, w: Walk, w1: Walk, w2: Walk, first: Tree, rest: seq<Tree>)
    requires Accounts(refs, x, w, w1, [first]) && Accounts(refs, x, w1, w2, rest)
    ensures Accounts(refs, x, w, w2, [first] + rest)
  {
    var ts := [first] + rest;
    assert ts[0] == first && ts[1..] == rest;
    forall k
      ensures AliasesToAll(ts, k) == AliasesToAll([first], k) + AliasesToAll(rest, k)
    {
      assert AliasesToAll([first], k) == AliasesTo(first, k);
    }
  }

  /** Emit describes a shared node once and answers each of its other visits with an alias. */
  lemma SharedNodesAreAliased(g: Memory, root: Id, x: Id)
    requires Closed(g) && root < |g| && Reachable(g, root, x)
    ensures var refs := SetupCounts(g, root, map[]);
            var (t, w) := Span(g, refs, root, START);
            && x in refs && (x in w.anchors <==> refs[x] > 1)
            && (x in w.anchors ==> AliasesTo(t, w.anchors[x]) == refs[x] - 1)
  {
    var refs := SetupCounts(g, root, map[]);
    RefCountsAreEdges(g, root, x);
    SpanAliases(g, refs, root, START, x);
    var (t, w) := Span(g, refs, root, START);
    if x in w.anchors {
      assert AliasesToAll([t], w.anchors[x]) == AliasesTo(t, w.anchors[x]);
    }
  }
}
