/** The calls an EventHandler receives for one document, and the trees those calls spell out. */
module Events {
  type Anchor = nat

  const NULL_ANCHOR: Anchor := 0

  datatype Style = Default | Block | Flow

  datatype Event =
    | DocumentStart
    | DocumentEnd
    | AnchorName(name: string)
    | Null(anchor: Anchor)
    | Alias(anchor: Anchor)
    | Scalar(tag: string, anchor: Anchor, value: string)
    | SequenceStart(tag: string, anchor: Anchor, style: Style)
    | SequenceEnd
    | MapStart(tag: string, anchor: Anchor, style: Style)
    | MapEnd

  /** What a handler is told about one node. The children of a map alternate key, value, key, ... */
  datatype Tree =
    | AliasOf(target: Anchor)
    | NullNode(name: string, anchor: Anchor)
    | ScalarNode(name: string, anchor: Anchor, tag: string, value: string)
    | SequenceNode(name: string, anchor: Anchor, tag: string, style: Style, items: seq<Tree>)
    | MapNode(name: string, anchor: Anchor, tag: string, style: Style, items: seq<Tree>)

  function NameEvents(name: string): seq<Event> {
    if name == "" then [] else [AnchorName(name)]
  }

  function Flatten(t: Tree): seq<Event>
    decreases t, 1
  {
    match t
    case AliasOf(target) => [Alias(target)]
    case NullNode(name, anchor) => NameEvents(name) + [Null(anchor)]
    case ScalarNode(name, anchor, tag, value) => NameEvents(name) + [Scalar(tag, anchor, value)]
    case SequenceNode(name, anchor, tag, style, items) =>
      NameEvents(name) + [SequenceStart(tag, anchor, style)] + FlattenAll(items) + [SequenceEnd]
    case MapNode(name, anchor, tag, style, items) =>
      NameEvents(name) + [MapStart(tag, anchor, style)] + FlattenAll(items) + [MapEnd]
  }

  function FlattenAll(ts: seq<Tree>): seq<Event>
    decreases ts, 0
  {
    if ts == [] then [] else Flatten(ts[0]) + FlattenAll(ts[1..])
  }

  /** Every map holds whole key-value pairs. */
  ghost predicate Paired(t: Tree) {
    match t
    case SequenceNode(_, _, _, _, items) => forall i :: 0 <= i < |items| ==> Paired(items[i])
    case MapNode(_, _, _, _, items) => |items| % 2 == 0 && forall i :: 0 <= i < |items| ==> Paired(items[i])
    case _ => true
  }

  /** How many nodes of the tree carry an anchor. */
  function AnchorCount(t: Tree): nat
    decreases t, 1
  {
    match t
    case AliasOf(_) => 0
    case NullNode(_, anchor) => OwnAnchor(anchor)
    case ScalarNode(_, anchor, _, _) => OwnAnchor(anchor)
    case SequenceNode(_, anchor, _, _, items) => OwnAnchor(anchor) + AnchorCountAll(items)
    case MapNode(_, anchor, _, _, items) => OwnAnchor(anchor) + AnchorCountAll(items)
  }

  function OwnAnchor(anchor: Anchor): nat {
    if anchor == NULL_ANCHOR then 0 else 1
  }

  function AnchorCountAll(ts: seq<Tree>): nat
    decreases ts, 0
  {
    if ts == [] then 0 else AnchorCount(ts[0]) + AnchorCountAll(ts[1..])
  }

  /**
   * After k anchors have been announced, the tree announces k+1, k+2, ... in the order its nodes
   * start, and every alias names an anchor announced before it.
   */
  ghost predicate Numbered(t: Tree, k: nat)
    decreases t, 1
  {
    match t
    case AliasOf(target) => 1 <= target <= k
    case NullNode(_, anchor) => NextAnchor(anchor, k)
    case ScalarNode(_, anchor, _, _) => NextAnchor(anchor, k)
    case SequenceNode(_, anchor, _, _, items) =>
      NextAnchor(anchor, k) && NumberedAll(items, k + OwnAnchor(anchor))
    case MapNode(_, anchor, _, _, items) =>
      NextAnchor(anchor, k) && NumberedAll(items, k + OwnAnchor(anchor))
  }

  ghost predicate NextAnchor(anchor: Anchor, k: nat) {
    anchor == NULL_ANCHOR || anchor == k + 1
  }

  ghost predicate NumberedAll(ts: seq<Tree>, k: nat)
    decreases ts, 0
  {
    ts == [] || (Numbered(ts[0], k) && NumberedAll(ts[1..], k + AnchorCount(ts[0])))
  }

  lemma FlattenAllAppend(ts: seq<Tree>, t: Tree)
    ensures FlattenAll(ts + [t]) == FlattenAll(ts) + Flatten(t)
  {
    if ts == [] {
      assert FlattenAll([t]) == Flatten(t) + FlattenAll([]);
    } else {
      assert (ts + [t])[0] == ts[0] && (ts + [t])[1..] == ts[1..] + [t];
      FlattenAllAppend(ts[1..], t);
    }
  }

  lemma NumberedAllAppend(ts: seq<Tree>, t: Tree, k: nat)
    requires NumberedAll(ts, k) && Numbered(t, k + AnchorCountAll(ts))
    ensures NumberedAll(ts + [t], k)
    ensures AnchorCountAll(ts + [t]) == AnchorCountAll(ts) + AnchorCount(t)
  {
    if ts == [] {
      assert ts + [t] == [t];
    } else {
      assert (ts + [t])[0] == ts[0] && (ts + [t])[1..] == ts[1..] + [t];
      NumberedAllAppend(ts[1..], t, k + AnchorCount(ts[0]));
    }
  }

  /** An EventHandler that keeps every call it receives, in order. */
  class EventLog {
    var events: seq<Event>

    constructor ()
      ensures events == []
    {
      events := [];
    }

    method Record(event: Event)
      modifies this
      ensures events == old(events) + [event]
    {
      events := events + [event];
    }
  }
}
