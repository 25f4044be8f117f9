/**
 * Dump and Emitter << Node: when the emitter takes a whole graph, and which punctuation it writes for it.
 */
module Dumping {
  import opened Events
  import opened NodeBuilding
  import opened NodeEventing
  import opened RefCounts
  import opened EmitterRuns
  import opened EventEmitting
  import opened EmittedMarks
  import opened Cloning
  import Emitting

  // Graphs

  function DataTag(d: NodeData): string {
    match d
    case NullData => ""
    case ScalarData(tag, _) => tag
    case SequenceData(tag, _, _) => tag
    case MapData(tag, _, _) => tag
  }

  /** The tags of the nodes met between c and c' can be written. */
  ghost predicate TagsMet(g: Memory, c: Counts, c': Counts) {
    forall m :: m in c' && m !in c && m < |g| ==> TagIsTaken(DataTag(g[m]))
  }

  lemma TagsMetBoth(g: Memory, c: Counts, c1: Counts, c': Counts)
    requires c.Keys <= c1.Keys <= c'.Keys
    ensures TagsMet(g, c, c') <==> TagsMet(g, c, c1) && TagsMet(g, c1, c')
  {
    hide TagIsTaken;
    if TagsMet(g, c, c1) && TagsMet(g, c1, c') {
      forall m | m in c' && m !in c && m < |g|
        ensures TagIsTaken(DataTag(g[m]))
      {
        assert m in c1 || m !in c1;
      }
    }
  }

  /** The tree of a walk holds the tags of the nodes first met in it. */
  lemma {:induction false} SpanTags(g: Memory, refs: Counts, n: Id, w: Walk)
    requires Closed(g) && n < |g| && Within(SetupCounts(g, n, w.counts), refs)
    ensures var (t, w') := Span(g, refs, n, w); TagsTaken(t) <==> TagsMet(g, w.counts, w'.counts)
    decreases Unvisited(g, w.counts), 0
  {
    hide TagIsTaken, SetupCountsAll, SpanAll;
    if n !in w.counts {
      var w1 := Enter(refs, n, w);
      SpanFirstVisit(g, refs, n, w);
      SpanAllTags(g, refs, Children(g[n]), w1);
      var (items, w2) := SpanAll(g, refs, Children(g[n]), w1);
      TagsMetBoth(g, w.counts, w1.counts, w2.counts);
      FirstTagMet(g, n, w.counts);
      NodeTags(g[n], if Shared(refs, n) then w1.last else NULL_ANCHOR, items);
    } else {
      NoTagMet(g, n, w.counts);
    }
  }

  lemma NoTagMet(g: Memory, n: Id, c: Counts)
    requires n in c
    ensures TagsMet(g, c, Bump(c, n)) && TagIsTaken("")
  {
  }

  lemma FirstTagMet(g: Memory, n: Id, c: Counts)
    requires n !in c && n < |g|
    ensures TagsMet(g, c, Bump(c, n)) <==> TagIsTaken(DataTag(g[n]))
  {
    hide TagIsTaken;
    assert n in Bump(c, n);
  }

  lemma NodeTags(d: NodeData, anchor: Anchor, items: seq<Tree>)
    requires |items| == |Children(d)|
    ensures TagsTaken(NodeTree(d, anchor, items)) <==> TagIsTaken(DataTag(d)) && AllTagsTaken(items)
    ensures TagOf(NodeTree(d, anchor, items)) == DataTag(d)
  {
    hide TagIsTaken;
  }

  lemma {:induction false} SpanAllTags(g: Memory, refs: Counts, ns: seq<Id>, w: Walk)
    requires Closed(g) && Inside(g, ns) && Within(SetupCountsAll(g, ns, w.counts), refs)
    ensures var (ts, w') := SpanAll(g, refs, ns, w); AllTagsTaken(ts) <==> TagsMet(g, w.counts, w'.counts)
    decreases Unvisited(g, w.counts), |ns|
  {
    hide TagIsTaken;
    if ns != [] {
      SpanAllCons(g, refs, ns, w);
      var (first, w1) := Span(g, refs, ns[0], w);
      SpanTags(g, refs, ns[0], w);
      SpanAllTags(g, refs, ns[1..], w1);
      var (rest, w2) := SpanAll(g, refs, ns[1..], w1);
      TagsMetBoth(g, w.counts, w1.counts, w2.counts);
      hide Span, SpanAll, TagsMet, SetupCounts, SetupCountsAll;
      var ts := [first] + rest;
      assert ts[0] == first && ts[1..] == rest;
    }
  }

  /** The tag of every reachable node can be written. */
  ghost predicate ReachableTagsTaken(g: Memory, root: Id)
    requires Closed(g)
  {
    forall m: Id :: m < |g| && Reachable(g, root, m) ==> TagIsTaken(DataTag(g[m]))
  }

  /** A graph's events have writable tags exactly if every reachable node has. */
  lemma GraphTags(g: Memory, root: Id)
    requires Closed(g) && root < |g|
    ensures var t := Span(g, SetupCounts(g, root, map[]), root, START).0;
            TagsTaken(t) <==> ReachableTagsTaken(g, root)
  {
    hide TagIsTaken, Span, SetupCounts, Reachable;
    var refs := SetupCounts(g, root, map[]);
    SpanTags(g, refs, root, START);
    forall m: Id
      ensures m in refs <==> Reachable(g, root, m)
    {
      RefCountsAreEdges(g, root, m);
    }
  }

  /** The tree whose events a graph is reported as. */
  ghost function TreeOf(g: Memory, root: Id): Tree
    requires Closed(g) && root < |g|
  {
    Span(g, SetupCounts(g, root, map[]), root, START).0
  }

  lemma DocumentIsWritten(p: Emitting.Pen, t: Tree, midLine: bool)
    requires Paired(t)
    ensures Quiet(p) ==> OneWritten(p, EventsPen(p, [DocumentStart] + Flatten(t) + [DocumentEnd], midLine), t)
  {
    var start, end := [DocumentStart], [DocumentEnd];
    PensOn(p, start + Flatten(t), end, midLine);
    PensOn(p, start, Flatten(t), midLine);
    hide Flatten, Paired, Quiet, OneWritten;
    assert start[1..] == [] && end[1..] == [];
    if Quiet(p) {
      TreeWritten(p, t, midLine);
    }
  }

  /**
   * A node is written to an emitter: as many groups are open as before, and one node more is written, with the
   * punctuation that the styles of its nodes ask for, unless the emitter was bad, the root's properties do not fit
   * where it stands, or a tag cannot be written.
   */
  method EmitNode(emitter: Emitting.Emitter, memory: Memory, root: Pointer, midLine: bool)
    requires emitter.Valid() && Closed(memory) && (root.At? ==> root.id < |memory|)
    modifies emitter
    ensures emitter.Valid()
    ensures root.Nil? ==> ShapeOf(emitter) == old(ShapeOf(emitter))
    ensures root.At? ==>
              var anchor := if Shared(SetupCounts(memory, root.id, map[]), root.id) then 1 else NULL_ANCHOR;
              var s := old(ShapeOf(emitter));
              ShapeOf(emitter) ==
              if s.Shape? && PropsFit(s, DataTag(memory[root.id]), anchor, midLine) && ReachableTagsTaken(memory, root.id)
              then OneMore(s) else Bad
    ensures root.At? && emitter.isGood && Quiet(old(emitter.AsPen())) ==>
              OneWritten(old(emitter.AsPen()), emitter.AsPen(), TreeOf(memory, root.id))
  {
    hide Span, SetupCounts, Reachable, TagIsTaken, ReachableTagsTaken, PropsFit, Flatten, EventsAfter, StacksAfter, TagsTaken,
         EventsPen, OneWritten, Quiet;
    var events := new NodeEvents(memory, root);
    var log := new EventLog();
    events.Emit(log);
    var handler := new EmitFromEvents(emitter);
    if root.At? {
      GraphTags(memory, root.id);
      SpanIsIsomorphic(memory, root.id);
      RootOfSpan(memory, root.id);
      ghost var t := Span(memory, events.refCount, root.id, START).0;
      DocumentIsEmitted(ShapeOf(emitter), t, midLine);
      DocumentIsWritten(emitter.AsPen(), t, midLine);
      assert log.events == [DocumentStart] + Flatten(t) + [DocumentEnd];
    } else {
      NothingIsEmitted(ShapeOf(emitter), midLine);
      assert log.events == [DocumentStart, DocumentEnd];
    }
    handler.ReceiveAll(log.events, midLine);
  }

  lemma RootOfSpan(g: Memory, root: Id)
    requires Closed(g) && root < |g|
    ensures var refs := SetupCounts(g, root, map[]);
            var t := Span(g, refs, root, START).0;
            && !t.AliasOf? && TagOf(t) == DataTag(g[root])
            && AnchorOf(t) == if Shared(refs, root) then 1 else NULL_ANCHOR
  {
    hide SpanAll, SetupCountsAll;
  }

  lemma DocumentIsEmitted(s: Shape, t: Tree, midLine: bool)
    requires Paired(t)
    ensures var es := [DocumentStart] + Flatten(t) + [DocumentEnd];
            EventsAfter(s, es, midLine) == TreeAfter(s, t, midLine) && StacksAfter(Stacked([]), es) == Stacked([])
  {
    var start, end := [DocumentStart], [DocumentEnd];
    EventsOn(s, start + Flatten(t), end, midLine);
    EventsOn(s, start, Flatten(t), midLine);
    TreeIsEmitted(s, t, midLine);
    StacksOn(Stacked([]), start + Flatten(t), end);
    StacksOn(Stacked([]), start, Flatten(t));
    TreeOnStack([], t);
    hide TreeAfter, Flatten, Paired;
    assert start[1..] == [] && end[1..] == [];
  }

  lemma NothingIsEmitted(s: Shape, midLine: bool)
    ensures var es := [DocumentStart, DocumentEnd];
            EventsAfter(s, es, midLine) == s && StacksAfter(Stacked([]), es) == Stacked([])
  {
    var es := [DocumentStart, DocumentEnd];
    assert es[1..] == [DocumentEnd] && es[1..][1..] == [];
  }

  /** A tagged scalar "b" behind a node "a" is refused, wherever the stream stands; in the first document it is not. */
  lemma SecondRootIsRefused(midLine: bool)
    ensures var a, b := ScalarNode("", NULL_ANCHOR, "", "a"), ScalarNode("", NULL_ANCHOR, "t", "b");
            && EventsAfter(EventsAfter(EmitterRuns.FRESH, Flatten(a), false), Flatten(b), midLine) == Bad
            && EventsAfter(EmitterRuns.FRESH, Flatten(b), midLine).Shape?
  {
    var a, b := ScalarNode("", NULL_ANCHOR, "", "a"), ScalarNode("", NULL_ANCHOR, "t", "b");
    TreeIsEmitted(EmitterRuns.FRESH, a, false);
    TreeIsEmitted(OneMore(EmitterRuns.FRESH), b, midLine);
    TreeIsEmitted(EmitterRuns.FRESH, b, midLine);
    hide EventsAfter;
    assert Exp.URI("t", 0) == 1 && IsUriFrom("t", 1);
  }

  /** The formats of an emitter that nobody has set up. */
  const DEFAULT_SETTINGS := Emitting.Settings(false, false, false, 2)

  /** With them, a collection is flow exactly if it, or one around it, has the style Flow. */
  lemma StylesAlone(t: Tree, inFlow: bool)
    requires t.SequenceNode? || t.MapNode?
    ensures IsFlow(t, inFlow, DEFAULT_SETTINGS, []) <==> inFlow || t.style == Flow
    ensures t.style != Flow ==> SettingsIn(DEFAULT_SETTINGS, t.style, []) == DEFAULT_SETTINGS
  {
  }

  /**
   * Dump: any finite graph, cyclic or shared, leaves the emitter good exactly if every reachable node's tag can be
   * written; and then every bracket of the text is matched, one pair for each collection that is flow or empty, and
   * its punctuation is that of the tree the graph is reported as, with its styles.
   */
  method Dump(memory: Memory, root: Pointer) returns (emitter: Emitting.Emitter)
    requires Closed(memory) && (root.At? ==> root.id < |memory|)
    ensures fresh(emitter)
    ensures emitter.isGood <==> root.Nil? || ReachableTagsTaken(memory, root.id)
    ensures emitter.isGood ==> emitter.groups == [] && emitter.docCount == if root.At? then 1 else 0
    ensures emitter.isGood && root.At? ==> emitter.out == Marks(TreeOf(memory, root.id), false, DEFAULT_SETTINGS, [])
    ensures emitter.isGood ==>
              && Emitting.Unclosed(emitter.out) == Emitting.Open([])
              && Emitting.Openings(emitter.out) == Emitting.Pairs(emitter.out) == emitter.flowCollections
  {
    hide Reachable, ReachableTagsTaken, TagIsTaken, Emitting.Unclosed, Emitting.Pairs, Emitting.Openings, TreeOf, Marks;
    emitter := new Emitting.Emitter(DEFAULT_SETTINGS);
    ghost var p := emitter.AsPen();
    EmitNode(emitter, memory, root, false);
    if emitter.isGood {
      emitter.BracketsArePaired();
      if root.At? {
        NothingInFront(Marks(TreeOf(memory, root.id), false, DEFAULT_SETTINGS, []));
      }
    }
  }

  lemma NothingInFront(marks: string)
    ensures "" + ("" + marks) == marks
  {
  }
}
