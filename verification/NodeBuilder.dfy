/**
 * Node graphs and NodeBuilder, the handler that rebuilds one from events. A memory holder is the
 * sequence of the nodes it created, and a node pointer is a position in that sequence.
 */
module NodeBuilding {
  import opened Events

  type Id = nat

  datatype Pointer = Nil | At(id: Id)

  datatype NodeData =
    | NullData
    | ScalarData(tag: string, value: string)
    | SequenceData(tag: string, style: Style, items: seq<Id>)
    | MapData(tag: string, style: Style, pairs: seq<(Id, Id)>)

  type Memory = seq<NodeData>

  datatype PushedKey = PushedKey(node: Id, complete: bool)

  /** The fields of a NodeBuilder. */
  datatype Builder = Builder(
    memory: Memory, root: Pointer, stack: seq<Id>, anchors: seq<Pointer>, keys: seq<PushedKey>, mapDepth: nat)

  datatype Outcome = Running(builder: Builder) | AssertionFailed

  ghost predicate WellFormed(b: Builder) {
    && (forall i :: 0 <= i < |b.stack| ==> b.stack[i] < |b.memory|)
    && |b.anchors| >= 1
    && (forall i :: 1 <= i < |b.anchors| ==> b.anchors[i].At? && b.anchors[i].id < |b.memory|)
  }

  predicate TopIsMap(b: Builder)
    requires WellFormed(b)
  {
    b.stack != [] && b.memory[b.stack[|b.stack| - 1]].MapData?
  }

  /**
   * No child of the innermost open collection is open. In a map, either its next child is a key and
   * every enclosing map has its own key pending, or its key is complete and waits for the value.
   */
  ghost predicate Ready(b: Builder) {
    && WellFormed(b)
    && (b.stack != [] ==>
          var top := b.memory[b.stack[|b.stack| - 1]];
          top.SequenceData? || top.MapData?)
    && (if TopIsMap(b)
        then b.mapDepth == |b.keys| + 1 || (b.mapDepth == |b.keys| > 0 && b.keys[|b.keys| - 1].complete)
        else b.mapDepth == |b.keys|)
  }

  // The private steps of the handlers

  function Create(b: Builder, data: NodeData, anchor: Anchor): Builder {
    b.(memory := b.memory + [data],
       anchors := if anchor == NULL_ANCHOR then b.anchors else b.anchors + [At(|b.memory|)])
  }

  function Push(b: Builder, node: Id): Builder
    requires WellFormed(b)
  {
    b.(stack := b.stack + [node],
       keys := if TopIsMap(b) && |b.keys| < b.mapDepth then b.keys + [PushedKey(node, false)] else b.keys)
  }

  function Pop(b: Builder): Outcome
    requires forall i :: 0 <= i < |b.stack| ==> b.stack[i] < |b.memory|
  {
    if |b.stack| == 0 then AssertionFailed
    else if |b.stack| == 1 then Running(b.(root := At(b.stack[0]), stack := []))
    else
      var node := b.stack[|b.stack| - 1];
      var rest := b.stack[..|b.stack| - 1];
      var top := rest[|rest| - 1];
      match b.memory[top]
      case SequenceData(tag, style, items) =>
        Running(b.(stack := rest, memory := b.memory[top := SequenceData(tag, style, items + [node])]))
      case MapData(tag, style, pairs) =>
        if b.keys == [] then AssertionFailed
        else
          var last := |b.keys| - 1;
          if b.keys[last].complete then
            Running(b.(stack := rest, keys := b.keys[..last],
                       memory := b.memory[top := MapData(tag, style, pairs + [(b.keys[last].node, node)])]))
          else
            Running(b.(stack := rest, keys := b.keys[last := b.keys[last].(complete := true)]))
      case _ => AssertionFailed
  }

  function Attach(b: Builder, node: Id): Outcome
    requires WellFormed(b) && node < |b.memory|
  {
    Pop(Push(b, node))
  }

  predicate AnchorInOrder(b: Builder, anchor: Anchor) {
    anchor == NULL_ANCHOR || anchor == |b.anchors|
  }

  /** What one call does to the fields; AssertionFailed where the C++ would stop on an assert. */
  function Handle(b: Builder, event: Event): Outcome
    requires WellFormed(b)
  {
    match event
    case DocumentStart => Running(b)
    case DocumentEnd => Running(b)
    case AnchorName(_) => Running(b)
    case Null(anchor) =>
      if AnchorInOrder(b, anchor) then Attach(Create(b, NullData, anchor), |b.memory|) else AssertionFailed
    case Scalar(tag, anchor, value) =>
      if AnchorInOrder(b, anchor) then Attach(Create(b, ScalarData(tag, value), anchor), |b.memory|)
      else AssertionFailed
    case Alias(anchor) =>
      if 1 <= anchor < |b.anchors| then Attach(b, b.anchors[anchor].id) else AssertionFailed
    case SequenceStart(tag, anchor, style) =>
      if AnchorInOrder(b, anchor) then
        Running(Push(Create(b, SequenceData(tag, style, []), anchor), |b.memory|))
      else AssertionFailed
    case SequenceEnd => Pop(b)
    case MapStart(tag, anchor, style) =>
      if AnchorInOrder(b, anchor) then
        var pushed := Push(Create(b, MapData(tag, style, []), anchor), |b.memory|);
        Running(pushed.(mapDepth := pushed.mapDepth + 1))
      else AssertionFailed
    case MapEnd =>
      if b.mapDepth > 0 then Pop(b.(mapDepth := b.mapDepth - 1)) else AssertionFailed
  }

  function Replay(b: Builder, events: seq<Event>): Outcome
    requires WellFormed(b)
    decreases |events|
  {
    if events == [] then Running(b)
    else
      match Handle(b, events[0])
      case AssertionFailed => AssertionFailed
      case Running(next) => HandleKeepsWellFormed(b, events[0]); Replay(next, events[1..])
  }

  lemma PopKeepsWellFormed(b: Builder)
    requires WellFormed(b)
    ensures var next := Pop(b); next.Running? ==> WellFormed(next.builder)
  {
  }

  lemma PushKeepsWellFormed(b: Builder, node: Id)
    requires WellFormed(b) && node < |b.memory|
    ensures WellFormed(Push(b, node))
  {
  }

  lemma HandleKeepsWellFormed(b: Builder, event: Event)
    requires WellFormed(b)
    ensures var next := Handle(b, event); next.Running? ==> WellFormed(next.builder)
  {
    match event
    case DocumentStart =>
    case DocumentEnd =>
    case AnchorName(_) =>
    case Null(anchor) => AttachKeepsWellFormed(Create(b, NullData, anchor), |b.memory|);
    case Scalar(tag, anchor, value) => AttachKeepsWellFormed(Create(b, ScalarData(tag, value), anchor), |b.memory|);
    case Alias(anchor) =>
      if 1 <= anchor < |b.anchors| {
        AttachKeepsWellFormed(b, b.anchors[anchor].id);
      }
    case SequenceStart(tag, anchor, style) =>
      PushKeepsWellFormed(Create(b, SequenceData(tag, style, []), anchor), |b.memory|);
    case SequenceEnd => PopKeepsWellFormed(b);
    case MapStart(tag, anchor, style) =>
      PushKeepsWellFormed(Create(b, MapData(tag, style, []), anchor), |b.memory|);
    case MapEnd =>
      if b.mapDepth > 0 {
        PopKeepsWellFormed(b.(mapDepth := b.mapDepth - 1));
      }
  }

  lemma AttachKeepsWellFormed(b: Builder, node: Id)
    requires WellFormed(b) && node < |b.memory|
    ensures var next := Attach(b, node); next.Running? ==> WellFormed(next.builder)
  {
    PushKeepsWellFormed(b, node);
    PopKeepsWellFormed(Push(b, node));
  }

  /** A node is pushed empty and gets its data afterwards. */
  lemma FilledAfterPush(b: Builder, empty: NodeData, data: NodeData, anchor: Anchor)
    requires WellFormed(b)
    ensures var pushed := Push(Create(b, NullData, anchor), |b.memory|);
            && |pushed.memory| == |b.memory| + 1
            && pushed.(memory := pushed.memory[|b.memory| := empty][|b.memory| := data])
               == Push(Create(b, data, anchor), |b.memory|)
  {
    assert (b.memory + [NullData])[|b.memory| := empty][|b.memory| := data] == b.memory + [data];
  }

  const FRESH := Builder([], Nil, [], [Nil], [], 0)

  /** The handler itself. Each call requires exactly that none of the asserts on its way fails. */
  class NodeBuilder {
    var memory: Memory
    var root: Pointer
    var stack: seq<Id>
    var anchors: seq<Pointer>
    var keys: seq<PushedKey>
    var mapDepth: nat

    ghost function State(): Builder
      reads this
    {
      Builder(memory, root, stack, anchors, keys, mapDepth)
    }

    ghost predicate Accepts(event: Event)
      reads this
    {
      WellFormed(State()) && Handle(State(), event).Running?
    }

    constructor ()
      ensures State() == FRESH && WellFormed(State())
    {
      memory, root, stack, anchors, keys, mapDepth := [], Nil, [], [Nil], [], 0;
    }

    method OnNull(anchor: Anchor)
      requires Accepts(Null(anchor))
      modifies this
      ensures Running(State()) == Handle(old(State()), Null(anchor)) && WellFormed(State())
    {
      HandleKeepsWellFormed(State(), Null(anchor));
      var node := PushNew(anchor);
      memory := memory[node := NullData];
      PopNode();
    }

    method OnAlias(anchor: Anchor)
      requires Accepts(Alias(anchor))
      modifies this
      ensures Running(State()) == Handle(old(State()), Alias(anchor)) && WellFormed(State())
    {
      HandleKeepsWellFormed(State(), Alias(anchor));
      var node := anchors[anchor].id;
      PushNode(node);
      PopNode();
    }

    method OnScalar(tag: string, anchor: Anchor, value: string)
      requires Accepts(Scalar(tag, anchor, value))
      modifies this
      ensures Running(State()) == Handle(old(State()), Scalar(tag, anchor, value)) && WellFormed(State())
    {
      hide Push;
      HandleKeepsWellFormed(State(), Scalar(tag, anchor, value));
      FilledAfterPush(State(), ScalarData("", value), ScalarData(tag, value), anchor);
      PushKeepsWellFormed(Create(State(), ScalarData(tag, value), anchor), |memory|);
      var node := PushNew(anchor);
      memory := memory[node := ScalarData("", value)];
      memory := memory[node := ScalarData(tag, value)];
      PopNode();
    }

    method OnSequenceStart(tag: string, anchor: Anchor, style: Style)
      requires Accepts(SequenceStart(tag, anchor, style))
      modifies this
      ensures Running(State()) == Handle(old(State()), SequenceStart(tag, anchor, style)) && WellFormed(State())
    {
      HandleKeepsWellFormed(State(), SequenceStart(tag, anchor, style));
      var node := PushNew(anchor);
      memory := memory[node := SequenceData(tag, style, [])];
    }

    method OnSequenceEnd()
      requires Accepts(SequenceEnd)
      modifies this
      ensures Running(State()) == Handle(old(State()), SequenceEnd) && WellFormed(State())
    {
      HandleKeepsWellFormed(State(), SequenceEnd);
      PopNode();
    }

    method OnMapStart(tag: string, anchor: Anchor, style: Style)
      requires Accepts(MapStart(tag, anchor, style))
      modifies this
      ensures Running(State()) == Handle(old(State()), MapStart(tag, anchor, style)) && WellFormed(State())
    {
      HandleKeepsWellFormed(State(), MapStart(tag, anchor, style));
      var node := PushNew(anchor);
      memory := memory[node := MapData(tag, style, [])];
      mapDepth := mapDepth + 1;
    }

    method OnMapEnd()
      requires Accepts(MapEnd)
      modifies this
      ensures Running(State()) == Handle(old(State()), MapEnd) && WellFormed(State())
    {
      HandleKeepsWellFormed(State(), MapEnd);
      mapDepth := mapDepth - 1;
      PopNode();
    }

    /** One call made through the EventHandler interface. */
    method Receive(event: Event)
      requires Accepts(event)
      modifies this
      ensures Running(State()) == Handle(old(State()), event) && WellFormed(State())
    {
      match event
      case Null(anchor) => OnNull(anchor);
      case Alias(anchor) => OnAlias(anchor);
      case Scalar(tag, anchor, value) => OnScalar(tag, anchor, value);
      case SequenceStart(tag, anchor, style) => OnSequenceStart(tag, anchor, style);
      case SequenceEnd => OnSequenceEnd();
      case MapStart(tag, anchor, style) => OnMapStart(tag, anchor, style);
      case MapEnd => OnMapEnd();
      case DocumentStart =>
      case DocumentEnd =>
      case AnchorName(_) =>
    }

    /** All calls of a run, in order. */
    method ReceiveAll(events: seq<Event>)
      requires WellFormed(State()) && Replay(State(), events).Running?
      modifies this
      ensures Running(State()) == Replay(old(State()), events) && WellFormed(State())
    {
      var i := 0;
      assert events[0..] == events;
      while i < |events|
        invariant 0 <= i <= |events| && WellFormed(State())
        invariant Replay(State(), events[i..]) == Replay(old(State()), events)
      {
        assert events[i..][0] == events[i] && events[i..][1..] == events[i + 1..];
        Receive(events[i]);
        i := i + 1;
      }
    }

    method PushNew(anchor: Anchor) returns (node: Id)
      requires WellFormed(State()) && AnchorInOrder(State(), anchor)
      modifies this
      ensures node == |old(memory)|
      ensures State() == Push(Create(old(State()), NullData, anchor), node)
    {
      node := |memory|;
      memory := memory + [NullData];
      if anchor != NULL_ANCHOR {
        anchors := anchors + [At(node)];
      }
      PushNode(node);
    }

    method PushNode(node: Id)
      requires WellFormed(State())
      modifies this
      ensures State() == Push(old(State()), node)
    {
      var needsKey := stack != [] && memory[stack[|stack| - 1]].MapData? && |keys| < mapDepth;
      stack := stack + [node];
      if needsKey {
        keys := keys + [PushedKey(node, false)];
      }
    }

    method PopNode()
      requires (forall i :: 0 <= i < |stack| ==> stack[i] < |memory|) && Pop(State()).Running?
      modifies this
      ensures Running(State()) == Pop(old(State()))
    {
      if |stack| == 1 {
        root := At(stack[0]);
        stack := [];
        return;
      }
      var node := stack[|stack| - 1];
      stack := stack[..|stack| - 1];
      var collection := stack[|stack| - 1];
      match memory[collection]
      case SequenceData(tag, style, items) =>
        memory := memory[collection := SequenceData(tag, style, items + [node])];
      case MapData(tag, style, pairs) =>
        var last := |keys| - 1;
        if keys[last].complete {
          memory := memory[collection := MapData(tag, style, pairs + [(keys[last].node, node)])];
          keys := keys[..last];
        } else {
          keys := keys[last := keys[last].(complete := true)];
        }
      case _ =>
        assert false;
    }
  }
}
