/**
 * What a tree of events means as a graph, defined without stacks or pending keys, and the theorem
 * that NodeBuilder's stack machine computes it.
 */
module TreeBuilding {
  import opened Events
  import opened NodeBuilding

  /** The nodes a tree creates (placed from position `base` on), the anchors afterwards, and its node. */
  datatype Built = Built(created: Memory, anchors: seq<Pointer>, node: Id)

  datatype BuiltAll = BuiltAll(created: Memory, anchors: seq<Pointer>, nodes: seq<Id>)

  function Announce(anchors: seq<Pointer>, anchor: Anchor, node: Id): seq<Pointer> {
    if anchor == NULL_ANCHOR then anchors else anchors + [At(node)]
  }

  function PairUp(nodes: seq<Id>): seq<(Id, Id)>
    decreases |nodes|
  {
    if |nodes| < 2 then [] else [(nodes[0], nodes[1])] + PairUp(nodes[2..])
  }

  /** The graph of a tree: a node per tree node, created in the order the nodes start; an alias is its target. */
  function Build(t: Tree, base: nat, a: seq<Pointer>): (r: Built)
    ensures a <= r.anchors
    ensures |r.anchors| == |a| + AnchorCount(t)
    decreases t, 1
  {
    match t
    case AliasOf(target) => Built([], a, if target < |a| && a[target].At? then a[target].id else 0)
    case NullNode(_, anchor) => Built([NullData], Announce(a, anchor, base), base)
    case ScalarNode(_, anchor, tag, value) => Built([ScalarData(tag, value)], Announce(a, anchor, base), base)
    case SequenceNode(_, anchor, tag, style, items) =>
      var inner := BuildAll(items, base + 1, Announce(a, anchor, base));
      Built([SequenceData(tag, style, inner.nodes)] + inner.created, inner.anchors, base)
    case MapNode(_, anchor, tag, style, items) =>
      var inner := BuildAll(items, base + 1, Announce(a, anchor, base));
      Built([MapData(tag, style, PairUp(inner.nodes))] + inner.created, inner.anchors, base)
  }

  function BuildAll(ts: seq<Tree>, base: nat, a: seq<Pointer>): (r: BuiltAll)
    ensures a <= r.anchors && |r.nodes| == |ts|
    ensures |r.anchors| == |a| + AnchorCountAll(ts)
    decreases ts, 0
  {
    if ts == [] then BuiltAll([], a, [])
    else
      var first := Build(ts[0], base, a);
      var rest := BuildAll(ts[1..], base + |first.created|, first.anchors);
      BuiltAll(first.created + rest.created, rest.anchors, [first.node] + rest.nodes)
  }

  ghost predicate PointersInside(a: seq<Pointer>, size: nat) {
    |a| >= 1 && forall i :: 1 <= i < |a| ==> a[i].At? && a[i].id < size
  }

  lemma {:induction false} BuildStaysInside(t: Tree, base: nat, a: seq<Pointer>)
    requires PointersInside(a, base) && Numbered(t, |a| - 1)
    ensures var r := Build(t, base, a);
            PointersInside(r.anchors, base + |r.created|) && r.node < base + |r.created|
    decreases t, 1
  {
    match t
    case SequenceNode(_, anchor, tag, style, items) => BuildAllStaysInside(items, base + 1, Announce(a, anchor, base));
    case MapNode(_, anchor, tag, style, items) => BuildAllStaysInside(items, base + 1, Announce(a, anchor, base));
    case _ =>
  }

  lemma {:induction false} BuildAllStaysInside(ts: seq<Tree>, base: nat, a: seq<Pointer>)
    requires PointersInside(a, base) && NumberedAll(ts, |a| - 1)
    ensures var r := BuildAll(ts, base, a);
            && PointersInside(r.anchors, base + |r.created|)
            && forall i :: 0 <= i < |r.nodes| ==> r.nodes[i] < base + |r.created|
    decreases ts, 0
  {
    if ts != [] {
      BuildStaysInside(ts[0], base, a);
      var first := Build(ts[0], base, a);
      BuildAllStaysInside(ts[1..], base + |first.created|, first.anchors);
    }
  }

  // The stack machine against that meaning

  /** b once the nodes `created` exist and the anchors are `a`. */
  function Grow(b: Builder, created: Memory, a: seq<Pointer>): Builder {
    b.(memory := b.memory + created, anchors := a)
  }

  function AttachAll(b: Builder, nodes: seq<Id>): Outcome
    requires WellFormed(b) && forall i :: 0 <= i < |nodes| ==> nodes[i] < |b.memory|
    decreases |nodes|
  {
    if nodes == [] then Running(b)
    else
      match Attach(b, nodes[0])
      case AssertionFailed => AssertionFailed
      case Running(next) => AttachKeepsWellFormed(b, nodes[0]); AttachAll(next, nodes[1..])
  }

  /** Attaching to a ready builder never fails, and leaves it ready. */
  lemma AttachStaysReady(b: Builder, node: Id)
    requires Ready(b) && node < |b.memory|
    ensures Attach(b, node).Running?
    ensures Ready(Attach(b, node).builder)
    ensures |Attach(b, node).builder.memory| == |b.memory|
    ensures Attach(b, node).builder.stack == b.stack
    ensures Attach(b, node).builder.anchors == b.anchors
  {
    var pushed := Push(b, node);
    assert pushed.stack[..|b.stack|] == b.stack;
  }

  lemma GrowStaysReady(b: Builder, created: Memory, a: seq<Pointer>)
    requires Ready(b) && PointersInside(a, |b.memory| + |created|)
    ensures Ready(Grow(b, created, a))
  {
  }

  lemma AttachCommutesWithGrow(b: Builder, node: Id, created: Memory, a: seq<Pointer>)
    requires Ready(b) && node < |b.memory| && PointersInside(a, |b.memory| + |created|)
    ensures Ready(Grow(b, created, a)) && Attach(b, node).Running?
    ensures Attach(Grow(b, created, a), node) == Running(Grow(Attach(b, node).builder, created, a))
  {
    AttachStaysReady(b, node);
    GrowStaysReady(b, created, a);
    AttachStaysReady(Grow(b, created, a), node);
    AttachGrows(b, node, created, a);
  }

  lemma AttachGrows(b: Builder, node: Id, created: Memory, a: seq<Pointer>)
    requires Ready(b) && node < |b.memory| && Ready(Grow(b, created, a))
    ensures Attach(b, node).Running? && Attach(Grow(b, created, a), node) == Running(Grow(Attach(b, node).builder, created, a))
  {
    assert Push(b, node).stack[..|b.stack|] == b.stack;
    if b.stack != [] {
      var top := b.stack[|b.stack| - 1];
      var d := Attach(b, node).builder.memory[top];
      assert (b.memory + created)[top := d] == b.memory[top := d] + created;
    }
  }

  lemma ReplayConcat(b: Builder, xs: seq<Event>, ys: seq<Event>)
    requires WellFormed(b) && Replay(b, xs).Running?
    ensures WellFormed(Replay(b, xs).builder)
    ensures Replay(b, xs + ys) == Replay(Replay(b, xs).builder, ys)
    decreases |xs|
  {
    if xs == [] {
      assert xs + ys == ys;
    } else {
      HandleKeepsWellFormed(b, xs[0]);
      assert (xs + ys)[1..] == xs[1..] + ys;
      ReplayConcat(Handle(b, xs[0]).builder, xs[1..], ys);
    }
  }

  lemma ReplayOne(b: Builder, event: Event)
    requires WellFormed(b)
    ensures Replay(b, [event]) == Handle(b, event)
  {
    HandleKeepsWellFormed(b, event);
  }

  lemma ReplayName(b: Builder, name: string, rest: seq<Event>)
    requires WellFormed(b)
    ensures Replay(b, NameEvents(name) + rest) == Replay(b, rest)
  {
    if name == "" {
      assert NameEvents(name) + rest == rest;
    } else {
      assert (NameEvents(name) + rest)[1..] == rest;
    }
  }

  /** Start, children, end: the three parts of a collection's events replayed in turn. */
  lemma ReplayCollection(b: Builder, name: string, start: Event, inner: seq<Event>, end: Event)
    requires WellFormed(b)
    requires Handle(b, start).Running? && WellFormed(Handle(b, start).builder)
    requires Replay(Handle(b, start).builder, inner).Running?
    ensures WellFormed(Replay(Handle(b, start).builder, inner).builder)
    ensures Replay(b, NameEvents(name) + [start] + inner + [end]) ==
            Handle(Replay(Handle(b, start).builder, inner).builder, end)
  {
    var open := Handle(b, start).builder;
    ReplayConcat(open, inner, [end]);
    ReplayOne(Replay(open, inner).builder, end);
    ReplayName(b, name, [start] + (inner + [end]));
    assert NameEvents(name) + [start] + inner + [end] == NameEvents(name) + ([start] + (inner + [end]));
    assert ([start] + (inner + [end]))[1..] == inner + [end];
  }

  /** In a sequence the attached nodes become its last items. */
  lemma {:induction false} AttachAllToSequence(b: Builder, nodes: seq<Id>)
    requires Ready(b) && b.stack != [] && forall i :: 0 <= i < |nodes| ==> nodes[i] < |b.memory|
    requires b.memory[b.stack[|b.stack| - 1]].SequenceData?
    ensures var top := b.stack[|b.stack| - 1];
            var d := b.memory[top];
            AttachAll(b, nodes) == Running(b.(memory := b.memory[top := SequenceData(d.tag, d.style, d.items + nodes)]))
    decreases |nodes|
  {
    var top := b.stack[|b.stack| - 1];
    var d := b.memory[top];
    if nodes == [] {
      assert d.items + nodes == d.items;
    } else {
      AttachStaysReady(b, nodes[0]);
      assert Push(b, nodes[0]).stack[..|b.stack|] == b.stack;
      var next := Attach(b, nodes[0]).builder;
      AttachAllToSequence(next, nodes[1..]);
      assert d.items + [nodes[0]] + nodes[1..] == d.items + nodes;
    }
  }

  /** In a map whose last key has its value, an even number of attached nodes become its last pairs. */
  lemma {:induction false} AttachAllToMap(b: Builder, nodes: seq<Id>)
    requires Ready(b) && b.stack != [] && forall i :: 0 <= i < |nodes| ==> nodes[i] < |b.memory|
    requires b.memory[b.stack[|b.stack| - 1]].MapData?
    requires |nodes| % 2 == 0 && b.mapDepth == |b.keys| + 1
    ensures var top := b.stack[|b.stack| - 1];
            var d := b.memory[top];
            AttachAll(b, nodes) == Running(b.(memory := b.memory[top := MapData(d.tag, d.style, d.pairs + PairUp(nodes))]))
    decreases |nodes|
  {
    hide Attach;
    var top := b.stack[|b.stack| - 1];
    var d := b.memory[top];
    if nodes == [] {
      assert d.pairs + PairUp(nodes) == d.pairs;
    } else {
      AttachPairToMap(b, nodes[0], nodes[1]);
      var keyed := Attach(b, nodes[0]).builder;
      AttachStaysReady(b, nodes[0]);
      AttachStaysReady(keyed, nodes[1]);
      var next := Attach(keyed, nodes[1]).builder;
      assert nodes[1..][1..] == nodes[2..];
      assert AttachAll(b, nodes) == AttachAll(next, nodes[2..]);
      AttachAllToMap(next, nodes[2..]);
      assert d.pairs + [(nodes[0], nodes[1])] + PairUp(nodes[2..]) == d.pairs + PairUp(nodes);
    }
  }

  lemma AttachPairToMap(b: Builder, key: Id, value: Id)
    requires Ready(b) && b.stack != [] && key < |b.memory| && value < |b.memory|
    requires b.memory[b.stack[|b.stack| - 1]].MapData? && b.mapDepth == |b.keys| + 1
    ensures Attach(b, key).Running? && WellFormed(Attach(b, key).builder)
    ensures var top := b.stack[|b.stack| - 1];
            var d := b.memory[top];
            Attach(Attach(b, key).builder, value) ==
            Running(b.(memory := b.memory[top := MapData(d.tag, d.style, d.pairs + [(key, value)])]))
  {
    AttachStaysReady(b, key);
    assert Push(b, key).stack[..|b.stack|] == b.stack;
    var keyed := Attach(b, key).builder;
    assert keyed == b.(keys := b.keys + [PushedKey(key, true)]);
    assert Push(keyed, value).stack[..|b.stack|] == b.stack;
    assert keyed.keys[..|b.keys|] == b.keys;
  }

  lemma LeafRefines(b: Builder, t: Tree)
    requires Ready(b) && Numbered(t, |b.anchors| - 1) && (t.AliasOf? || t.NullNode? || t.ScalarNode?)
    ensures var r := Build(t, |b.memory|, b.anchors);
            WellFormed(Grow(b, r.created, r.anchors)) && r.node < |b.memory| + |r.created| &&
            Replay(b, Flatten(t)) == Attach(Grow(b, r.created, r.anchors), r.node)
  {
    hide Replay, Attach;
    var r := Build(t, |b.memory|, b.anchors);
    BuildStaysInside(t, |b.memory|, b.anchors);
    GrowStaysReady(b, r.created, r.anchors);
    match t
    case AliasOf(target) =>
      assert Grow(b, [], b.anchors) == b by { assert b.memory + [] == b.memory; }
      ReplayOne(b, Alias(target));
    case NullNode(name, anchor) =>
      ReplayName(b, name, [Null(anchor)]);
      ReplayOne(b, Null(anchor));
    case ScalarNode(name, anchor, tag, value) =>
      ReplayName(b, name, [Scalar(tag, anchor, value)]);
      ReplayOne(b, Scalar(tag, anchor, value));
  }

  /** Replaying one node's events is creating its nodes and attaching the result, with no other effect. */
  lemma {:induction false} BuilderRefinesBuild(b: Builder, t: Tree)
    requires Ready(b) && Paired(t) && Numbered(t, |b.anchors| - 1)
    ensures var r := Build(t, |b.memory|, b.anchors);
            && Ready(Grow(b, r.created, r.anchors)) && r.node < |b.memory| + |r.created|
            && Replay(b, Flatten(t)) == Attach(Grow(b, r.created, r.anchors), r.node)
    decreases t, 1
  {
    hide Replay, Attach, Attaches, FlattenAll, BuildAll, AttachAll;
    BuildStaysInside(t, |b.memory|, b.anchors);
    var r := Build(t, |b.memory|, b.anchors);
    GrowStaysReady(b, r.created, r.anchors);
    match t
    case AliasOf(_) => LeafRefines(b, t);
    case NullNode(_, _) => LeafRefines(b, t);
    case ScalarNode(_, _, _, _) => LeafRefines(b, t);
    case SequenceNode(name, anchor, tag, style, items) =>
      OpenSequence(b, tag, anchor, style);
      BuilderRefinesBuildAll(OpenedSequence(b, tag, anchor, style), items);
      SequenceRefines(b, name, tag, anchor, style, FlattenAll(items), BuildAll(items, |b.memory| + 1, Announce(b.anchors, anchor, |b.memory|)));
    case MapNode(name, anchor, tag, style, items) =>
      OpenMap(b, tag, anchor, style);
      BuilderRefinesBuildAll(OpenedMap(b, tag, anchor, style), items);
      MapRefines(b, name, tag, anchor, style, FlattenAll(items), BuildAll(items, |b.memory| + 1, Announce(b.anchors, anchor, |b.memory|)));
  }

  /** Replaying `events` on b creates the nodes of r and attaches r.nodes to the open collection. */
  ghost predicate Attaches(b: Builder, events: seq<Event>, r: BuiltAll) {
    && Ready(b)
    && Ready(Grow(b, r.created, r.anchors))
    && (forall i :: 0 <= i < |r.nodes| ==> r.nodes[i] < |b.memory| + |r.created|)
    && Replay(b, events) == AttachAll(Grow(b, r.created, r.anchors), r.nodes)
    && Replay(b, events).Running?
  }

  ghost predicate ChildrenRefine(b: Builder, items: seq<Tree>) {
    Attaches(b, FlattenAll(items), BuildAll(items, |b.memory|, b.anchors))
  }

  lemma SequenceRefines(b: Builder, name: string, tag: string, anchor: Anchor, style: Style, events: seq<Event>, r: BuiltAll)
    requires Ready(b) && NextAnchor(anchor, |b.anchors| - 1)
    requires Attaches(OpenedSequence(b, tag, anchor, style), events, r)
    ensures var data := SequenceData(tag, style, r.nodes);
            WellFormed(Grow(b, [data] + r.created, r.anchors)) &&
            Replay(b, NameEvents(name) + [SequenceStart(tag, anchor, style)] + events + [SequenceEnd]) ==
            Attach(Grow(b, [data] + r.created, r.anchors), |b.memory|)
  {
    hide Replay, AttachAll, Handle, Attach;
    var open := OpenedSequence(b, tag, anchor, style);
    OpenSequence(b, tag, anchor, style);
    AttachAllToSequence(Grow(open, r.created, r.anchors), r.nodes);
    assert [] + r.nodes == r.nodes;
    ReplayCollection(b, name, SequenceStart(tag, anchor, style), events, SequenceEnd);
    CloseSequence(b, tag, anchor, style, r.created, r.anchors, r.nodes);
  }

  lemma MapRefines(b: Builder, name: string, tag: string, anchor: Anchor, style: Style, events: seq<Event>, r: BuiltAll)
    requires Ready(b) && NextAnchor(anchor, |b.anchors| - 1) && |r.nodes| % 2 == 0
    requires Attaches(OpenedMap(b, tag, anchor, style), events, r)
    ensures var data := MapData(tag, style, PairUp(r.nodes));
            WellFormed(Grow(b, [data] + r.created, r.anchors)) &&
            Replay(b, NameEvents(name) + [MapStart(tag, anchor, style)] + events + [MapEnd]) ==
            Attach(Grow(b, [data] + r.created, r.anchors), |b.memory|)
  {
    hide Replay, AttachAll, Handle, Attach;
    var open := OpenedMap(b, tag, anchor, style);
    OpenMap(b, tag, anchor, style);
    AttachAllToMap(Grow(open, r.created, r.anchors), r.nodes);
    assert [] + PairUp(r.nodes) == PairUp(r.nodes);
    ReplayCollection(b, name, MapStart(tag, anchor, style), events, MapEnd);
    CloseMap(b, tag, anchor, style, r.created, r.anchors, PairUp(r.nodes));
  }

  lemma {:induction false} BuilderRefinesBuildAll(b: Builder, ts: seq<Tree>)
    requires Ready(b) && b.stack != [] && NumberedAll(ts, |b.anchors| - 1)
    requires forall i :: 0 <= i < |ts| ==> Paired(ts[i])
    ensures ChildrenRefine(b, ts)
    decreases ts, 0
  {
    hide Replay, AttachAll, Attach, Attaches, Build, Flatten, Numbered, Paired;
    if ts == [] {
      NothingRefines(b);
    } else {
      BuilderRefinesBuild(b, ts[0]);
      var first := Build(ts[0], |b.memory|, b.anchors);
      var grown := Grow(b, first.created, first.anchors);
      AttachStaysReady(grown, first.node);
      var next := Attach(grown, first.node).builder;
      BuilderRefinesBuildAll(next, ts[1..]);
      AttachesCons(b, first, Flatten(ts[0]), next, BuildAll(ts[1..], |next.memory|, next.anchors), FlattenAll(ts[1..]));
    }
  }

  lemma NothingRefines(b: Builder)
    requires Ready(b)
    ensures ChildrenRefine(b, [])
  {
    assert b.memory + [] == b.memory;
  }

  /** From one child replayed to the first child of several. */
  lemma AttachesCons(b: Builder, first: Built, firstEvents: seq<Event>, next: Builder, rest: BuiltAll, events: seq<Event>)
    requires Ready(b) && Ready(Grow(b, first.created, first.anchors)) && first.node < |b.memory| + |first.created|
    requires Replay(b, firstEvents) == Attach(Grow(b, first.created, first.anchors), first.node) == Running(next)
    requires Attaches(next, events, rest)
    ensures Attaches(b, firstEvents + events,
                     BuiltAll(first.created + rest.created, rest.anchors, [first.node] + rest.nodes))
  {
    hide Attach, Replay, AttachAll;
    var grown := Grow(b, first.created, first.anchors);
    AttachStaysReady(grown, first.node);
    GrowTwice(b, first.created, first.anchors, rest.created, rest.anchors);
    AttachFirst(grown, first.node, next, rest);
    ReplayConcat(b, firstEvents, events);
  }

  lemma GrowTwice(b: Builder, created: Memory, a: seq<Pointer>, more: Memory, a': seq<Pointer>)
    ensures Grow(Grow(b, created, a), more, a') == Grow(b, created + more, a')
  {
    assert b.memory + created + more == b.memory + (created + more);
  }

  lemma AttachFirst(b: Builder, node: Id, next: Builder, rest: BuiltAll)
    requires Ready(b) && node < |b.memory| && Attach(b, node) == Running(next)
    requires PointersInside(rest.anchors, |b.memory| + |rest.created|)
    requires forall i :: 0 <= i < |rest.nodes| ==> rest.nodes[i] < |b.memory| + |rest.created|
    ensures Ready(Grow(b, rest.created, rest.anchors)) && WellFormed(Grow(next, rest.created, rest.anchors))
    ensures |next.memory| == |b.memory|
    ensures AttachAll(Grow(b, rest.created, rest.anchors), [node] + rest.nodes) ==
            AttachAll(Grow(next, rest.created, rest.anchors), rest.nodes)
  {
    AttachCommutesWithGrow(b, node, rest.created, rest.anchors);
    AttachStaysReady(b, node);
    AttachStaysReady(Grow(b, rest.created, rest.anchors), node);
    assert ([node] + rest.nodes)[1..] == rest.nodes;
  }

  // Opening and closing a collection around nodes that were created meanwhile

  lemma OpenSequence(b: Builder, tag: string, anchor: Anchor, style: Style)
    requires Ready(b) && NextAnchor(anchor, |b.anchors| - 1)
    ensures Handle(b, SequenceStart(tag, anchor, style)) == Running(OpenedSequence(b, tag, anchor, style))
    ensures Ready(OpenedSequence(b, tag, anchor, style))
  {
  }

  function OpenedSequence(b: Builder, tag: string, anchor: Anchor, style: Style): Builder
    requires Ready(b)
  {
    Push(Create(b, SequenceData(tag, style, []), anchor), |b.memory|)
  }

  function OpenedMap(b: Builder, tag: string, anchor: Anchor, style: Style): Builder
    requires Ready(b)
  {
    var pushed := Push(Create(b, MapData(tag, style, []), anchor), |b.memory|);
    pushed.(mapDepth := pushed.mapDepth + 1)
  }

  lemma OpenMap(b: Builder, tag: string, anchor: Anchor, style: Style)
    requires Ready(b) && NextAnchor(anchor, |b.anchors| - 1)
    ensures Handle(b, MapStart(tag, anchor, style)) == Running(OpenedMap(b, tag, anchor, style))
    ensures Ready(OpenedMap(b, tag, anchor, style))
    ensures OpenedMap(b, tag, anchor, style).mapDepth == |OpenedMap(b, tag, anchor, style).keys| + 1
  {
  }

  /** The node opened first is filled last. */
  lemma Filled(memory: Memory, empty: NodeData, created: Memory, data: NodeData)
    ensures (memory + [empty] + created)[|memory| := data] == memory + ([data] + created)
  {
  }

  lemma CloseSequence(b: Builder, tag: string, anchor: Anchor, style: Style, created: Memory, a: seq<Pointer>, items: seq<Id>)
    requires Ready(b) && PointersInside(a, |b.memory| + 1 + |created|)
    ensures var open := Grow(OpenedSequence(b, tag, anchor, style), created, a);
            var data := SequenceData(tag, style, items);
            var whole := Grow(b, [data] + created, a);
            && WellFormed(open.(memory := open.memory[|b.memory| := data])) && Ready(whole)
            && Handle(open.(memory := open.memory[|b.memory| := data]), SequenceEnd) == Attach(whole, |b.memory|)
  {
    var data := SequenceData(tag, style, items);
    var open := Grow(OpenedSequence(b, tag, anchor, style), created, a);
    Filled(b.memory, SequenceData(tag, style, []), created, data);
  }

  lemma CloseMap(b: Builder, tag: string, anchor: Anchor, style: Style, created: Memory, a: seq<Pointer>, pairs: seq<(Id, Id)>)
    requires Ready(b) && PointersInside(a, |b.memory| + 1 + |created|)
    ensures var open := Grow(OpenedMap(b, tag, anchor, style), created, a);
            var data := MapData(tag, style, pairs);
            var whole := Grow(b, [data] + created, a);
            && WellFormed(open.(memory := open.memory[|b.memory| := data])) && Ready(whole)
            && Handle(open.(memory := open.memory[|b.memory| := data]), MapEnd) == Attach(whole, |b.memory|)
  {
    var data := MapData(tag, style, pairs);
    var open := Grow(OpenedMap(b, tag, anchor, style), created, a);
    Filled(b.memory, MapData(tag, style, []), created, data);
  }
}
