/** EmitFromEvents, which drives an emitter by the events of a node: when they are taken, and what each of them writes. */
module EventEmitting {
  import opened Events
  import opened EmitterRuns
  import Emitting
  import Exp
  import TokenText

  // Properties

  /** The tags that the handler writes. */
  predicate HasTag(tag: string) {
    tag != "" && tag != "?" && tag != "!"
  }

  /** Behind position i, what a verbatim tag may hold: characters of a URI. */
  predicate IsUriFrom(tag: string, i: nat)
    decreases |tag| - i
  {
    i == |tag| || (i < |tag| && Exp.URI(tag, i) > 0 && IsUriFrom(tag, i + Exp.URI(tag, i)))
  }

  predicate TagIsTaken(tag: string) {
    HasTag(tag) ==> IsUriFrom(tag, 0)
  }

  /** The loop that writes a verbatim tag. */
  method WriteVerbatimTag(tag: string) returns (ok: bool, text: string)
    ensures ok <==> IsUriFrom(tag, 0)
    ensures ok ==> text == "!<" + tag + ">"
  {
    text := "!<";
    var i := 0;
    while i < |tag|
      invariant i <= |tag| && (IsUriFrom(tag, i) <==> IsUriFrom(tag, 0)) && text == "!<" + tag[..i]
    {
      var n := Exp.URI(tag, i);
      if n == 0 {
        return false, text;
      }
      assert tag[..i + n] == tag[..i] + tag[i..i + n];
      text := text + tag[i..i + n];
      i := i + n;
    }
    ok, text := true, text + ">";
  }

  /** The scanner finds the end of such a tag again. */
  lemma {:induction false} VerbatimTagReads(tag: string, i: nat, rest: string)
    requires i <= |tag| && IsUriFrom(tag, i)
    ensures TokenText.VerbatimEnd(tag + ">" + rest, i) == |tag|
    decreases |tag| - i
  {
    var t := tag + ">" + rest;
    if i < |tag| {
      var n := Exp.URI(tag, i);
      assert forall k :: 0 <= k < |tag| ==> t[k] == tag[k];
      assert t[i] != '>';
      assert Exp.URI(t, i) == n;
      VerbatimTagReads(tag, i + n, rest);
    }
  }

  function TagOf(t: Tree): string {
    match t
    case ScalarNode(_, _, tag, _) => tag
    case SequenceNode(_, _, tag, _, _) => tag
    case MapNode(_, _, tag, _, _) => tag
    case _ => ""
  }

  function AnchorOf(t: Tree): Anchor {
    match t
    case AliasOf(_) => NULL_ANCHOR
    case NullNode(_, anchor) => anchor
    case ScalarNode(_, anchor, _, _) => anchor
    case SequenceNode(_, anchor, _, _, _) => anchor
    case MapNode(_, anchor, _, _, _) => anchor
  }

  // The emitter's part

  /** EmitProps: the tag, then the anchor, whose decimal digits can always be written. */
  function PropsAfter(s: Shape, tag: string, anchor: Anchor, midLine: bool): Shape {
    var s1 := if HasTag(tag) then Next(s, Tagged(IsUriFrom(tag, 0)), midLine) else s;
    if anchor != NULL_ANCHOR then Next(s1, Anchored(true), midLine || HasTag(tag)) else s1
  }

  /** A node behind its properties, which leave the stream in mid line. */
  function NodeAfter(s: Shape, tag: string, anchor: Anchor, call: Call, midLine: bool): Shape {
    Next(PropsAfter(s, tag, anchor, midLine), call, midLine || HasTag(tag) || anchor != NULL_ANCHOR)
  }

  /** Such a string is written as a long key; no string is written as a literal one unless the emitter was told so. */
  predicate IsLong(value: string) {
    |value| > 1024
  }

  /** `midLine` is where the stream stands before the event. */
  function EventAfter(s: Shape, e: Event, midLine: bool): Shape {
    match e
    case DocumentStart => s
    case DocumentEnd => s
    case AnchorName(_) => s
    case Null(anchor) => NodeAfter(s, "", anchor, Content(false), midLine)
    case Alias(_) => Next(s, Reference(true), midLine)
    case Scalar(tag, anchor, value) => NodeAfter(s, tag, anchor, Content(IsLong(value)), midLine)
    case SequenceStart(tag, anchor, _) => NodeAfter(s, tag, anchor, Begin(Emitting.Seq), midLine)
    case SequenceEnd => Next(s, End(Emitting.Seq), midLine)
    case MapStart(tag, anchor, _) => NodeAfter(s, tag, anchor, Begin(Emitting.Map), midLine)
    case MapEnd => Next(s, End(Emitting.Map), midLine)
  }

  /** The events of one document; where the stream stands matters in front of its first node alone. */
  function EventsAfter(s: Shape, es: seq<Event>, midLine: bool): Shape
    decreases |es|
  {
    if es == [] then s else EventsAfter(EventAfter(s, es[0], midLine), es[1..], midLine)
  }

  // What is written

  function PropsPen(p: Emitting.Pen, tag: string, anchor: Anchor, midLine: bool): Emitting.Pen {
    var p1 := if HasTag(tag) then PenAfter(p, Tagged(IsUriFrom(tag, 0)), midLine) else p;
    if anchor != NULL_ANCHOR then PenAfter(p1, Anchored(true), midLine || HasTag(tag)) else p1
  }

  /** The style of a collection is set for it and what is in it, where no setting of the emitter as a whole forbids it. */
  function StylePen(p: Emitting.Pen, style: Style): Emitting.Pen {
    var p1 := match style
      case Block => PenAfter(p, Local(Emitting.UseBlock), false)
      case Flow => PenAfter(p, Local(Emitting.UseFlow), false)
      case Default => p;
    PenAfter(p1, RestoreGlobals, false)
  }

  function NodePen(p: Emitting.Pen, tag: string, anchor: Anchor, call: Call, midLine: bool): Emitting.Pen {
    PenAfter(PropsPen(p, tag, anchor, midLine), call, midLine || HasTag(tag) || anchor != NULL_ANCHOR)
  }

  function CollectionPen(p: Emitting.Pen, tag: string, anchor: Anchor, style: Style, kind: Emitting.Kind, midLine: bool): Emitting.Pen {
    PenAfter(StylePen(PropsPen(p, tag, anchor, midLine), style), Begin(kind), midLine || HasTag(tag) || anchor != NULL_ANCHOR)
  }

  /** The pen behind an event that is taken. */
  function EventPen(p: Emitting.Pen, e: Event, midLine: bool): Emitting.Pen {
    match e
    case DocumentStart => p
    case DocumentEnd => p
    case AnchorName(_) => p
    case Null(anchor) => NodePen(p, "", anchor, Content(false), midLine)
    case Alias(_) => PenAfter(p, Reference(true), midLine)
    case Scalar(tag, anchor, value) => NodePen(p, tag, anchor, Content(IsLong(value)), midLine)
    case SequenceStart(tag, anchor, style) => CollectionPen(p, tag, anchor, style, Emitting.Seq, midLine)
    case SequenceEnd => PenAfter(p, End(Emitting.Seq), midLine)
    case MapStart(tag, anchor, style) => CollectionPen(p, tag, anchor, style, Emitting.Map, midLine)
    case MapEnd => PenAfter(p, End(Emitting.Map), midLine)
  }

  function EventsPen(p: Emitting.Pen, es: seq<Event>, midLine: bool): Emitting.Pen
    decreases |es|
  {
    if es == [] then p else EventsPen(EventPen(p, es[0], midLine), es[1..], midLine)
  }

  predicate TagsTaken(t: Tree)
    decreases t, 1
  {
    TagIsTaken(TagOf(t)) &&
    match t
    case SequenceNode(_, _, _, _, items) => AllTagsTaken(items)
    case MapNode(_, _, _, _, items) => AllTagsTaken(items)
    case _ => true
  }

  predicate AllTagsTaken(ts: seq<Tree>)
    decreases ts, 0
  {
    ts == [] || (TagsTaken(ts[0]) && AllTagsTaken(ts[1..]))
  }

  /** A node's properties may not meet pending ones, nor stand where a second document begins by itself. */
  predicate PropsFit(s: Shape, tag: string, anchor: Anchor, midLine: bool)
    requires s.Shape?
  {
    && !(HasTag(tag) && s.tag) && !(anchor != NULL_ANCHOR && s.anchor) && !CutsOff(s, midLine)
    && !(s.kinds == [] && s.docs > 0 && (HasTag(tag) || anchor != NULL_ANCHOR))
  }

  predicate NodeIsTaken(s: Shape, t: Tree, midLine: bool)
    requires s.Shape?
  {
    if t.AliasOf? then !s.anchor && !s.tag else PropsFit(s, TagOf(t), AnchorOf(t), midLine)
  }

  /** A scalar or the beginning of a group, behind its properties. */
  lemma NodeFits(s: Shape, tag: string, anchor: Anchor, call: Call, midLine: bool)
    requires s.Shape? && (call.Content? || call.Begin?)
    ensures NodeAfter(s, tag, anchor, call, midLine) ==
            if !TagIsTaken(tag) || !PropsFit(s, tag, anchor, midLine) then Bad
            else if call.Begin? then OneGroup(s, call.kind)
            else OneMore(s)
  {
    hide IsUriFrom, HasTag;
  }

  function TreeAfter(s: Shape, t: Tree, midLine: bool): Shape {
    if s.Shape? && TagsTaken(t) && NodeIsTaken(s, t, midLine) then OneMore(s) else Bad
  }

  lemma {:induction false} BadStays(es: seq<Event>, midLine: bool)
    ensures EventsAfter(Bad, es, midLine) == Bad
    decreases |es|
  {
    if es != [] {
      BadStays(es[1..], midLine);
    }
  }

  lemma {:induction false} EventsOn(s: Shape, es: seq<Event>, more: seq<Event>, midLine: bool)
    ensures EventsAfter(s, es + more, midLine) == EventsAfter(EventsAfter(s, es, midLine), more, midLine)
    decreases |es|
  {
    if es == [] {
      assert es + more == more;
    } else {
      assert (es + more)[0] == es[0] && (es + more)[1..] == es[1..] + more;
      EventsOn(EventAfter(s, es[0], midLine), es[1..], more, midLine);
    }
  }

  /** The events of any tree: the emitter is bad behind them, or has one node more and its groups as before. */
  lemma {:induction false} TreeIsEmitted(s: Shape, t: Tree, midLine: bool)
    ensures EventsAfter(s, Flatten(t), midLine) == TreeAfter(s, t, midLine)
    decreases t, 1
  {
    hide EventsAfter, NodeAfter, Next, PropsFit, OneMore;
    if s.Bad? {
      BadStays(Flatten(t), midLine);
    } else {
      match t
      case SequenceNode(_, anchor, tag, _, items) =>
        CollectionFits(s, tag, anchor, Emitting.Seq, midLine);
        ItemsAreEmitted(NodeAfter(s, tag, anchor, Begin(Emitting.Seq), midLine), items, midLine);
        SequenceIsEmitted(s, t, midLine);
      case MapNode(_, anchor, tag, _, items) =>
        CollectionFits(s, tag, anchor, Emitting.Map, midLine);
        ItemsAreEmitted(NodeAfter(s, tag, anchor, Begin(Emitting.Map), midLine), items, midLine);
        MapIsEmitted(s, t, midLine);
      case _ => LeafIsEmitted(s, t, midLine);
    }
  }

  lemma SequenceIsEmitted(s: Shape, t: Tree, midLine: bool)
    requires s.Shape? && t.SequenceNode?
    requires var inside := NodeAfter(s, t.tag, t.anchor, Begin(Emitting.Seq), midLine);
             EventsAfter(inside, FlattenAll(t.items), midLine) == if AllTagsTaken(t.items) then inside else Bad
    ensures EventsAfter(s, Flatten(t), midLine) == TreeAfter(s, t, midLine)
  {
    hide EventsAfter, NodeAfter, Next, PropsFit, OneMore;
    CollectionFits(s, t.tag, t.anchor, Emitting.Seq, midLine);
    GroupIsEmitted(s, t.name, SequenceStart(t.tag, t.anchor, t.style), t.items, SequenceEnd, midLine);
  }

  lemma MapIsEmitted(s: Shape, t: Tree, midLine: bool)
    requires s.Shape? && t.MapNode?
    requires var inside := NodeAfter(s, t.tag, t.anchor, Begin(Emitting.Map), midLine);
             EventsAfter(inside, FlattenAll(t.items), midLine) == if AllTagsTaken(t.items) then inside else Bad
    ensures EventsAfter(s, Flatten(t), midLine) == TreeAfter(s, t, midLine)
  {
    hide EventsAfter, NodeAfter, Next, PropsFit, OneMore;
    CollectionFits(s, t.tag, t.anchor, Emitting.Map, midLine);
    GroupIsEmitted(s, t.name, MapStart(t.tag, t.anchor, t.style), t.items, MapEnd, midLine);
  }

  lemma LeafIsEmitted(s: Shape, t: Tree, midLine: bool)
    requires s.Shape? && (t.AliasOf? || t.NullNode? || t.ScalarNode?)
    ensures EventsAfter(s, Flatten(t), midLine) == TreeAfter(s, t, midLine)
  {
    hide NodeAfter, PropsFit, TagIsTaken, CutsOff, Next, EventsAfter, OneMore, HasTag;
    AliasFits(s, midLine);
    match t
    case AliasOf(target) =>
      OneEvent(s, "", Alias(target), midLine);
      assert NameEvents("") + [Alias(target)] == [Alias(target)];
    case NullNode(name, anchor) =>
      OneEvent(s, name, Null(anchor), midLine);
      NodeFits(s, "", anchor, Content(false), midLine);
    case ScalarNode(name, anchor, tag, value) =>
      OneEvent(s, name, Scalar(tag, anchor, value), midLine);
      NodeFits(s, tag, anchor, Content(IsLong(value)), midLine);
  }

  /** A group that is empty or holds what is taken: inside it nothing is pending, and its end leads out again. */
  lemma CollectionFits(s: Shape, tag: string, anchor: Anchor, kind: Emitting.Kind, midLine: bool)
    requires s.Shape?
    ensures var inside := NodeAfter(s, tag, anchor, Begin(kind), midLine);
            && (inside.Shape? ==> inside.kinds != [] && !inside.anchor && !inside.tag)
            && Next(inside, End(kind), midLine) ==
               (if TagIsTaken(tag) && PropsFit(s, tag, anchor, midLine) then OneMore(s) else Bad)
            && Next(Bad, End(kind), midLine) == Bad
  {
    NodeFits(s, tag, anchor, Begin(kind), midLine);
    hide NodeAfter, PropsFit, TagIsTaken;
    var kinds := s.kinds + [kind];
    assert kinds[..|kinds| - 1] == s.kinds;
  }

  lemma AliasFits(s: Shape, midLine: bool)
    requires s.Shape?
    ensures Next(s, Reference(true), midLine) == if !s.anchor && !s.tag then OneMore(s) else Bad
    ensures TagIsTaken("")
  {
  }

  lemma OneEvent(s: Shape, name: string, e: Event, midLine: bool)
    ensures EventsAfter(s, NameEvents(name) + [e], midLine) == EventAfter(s, e, midLine)
  {
    EventsOn(s, NameEvents(name), [e], midLine);
    assert EventAfter(s, AnchorName(name), midLine) == s;
    hide EventAfter;
    assert [e][1..] == [] && [AnchorName(name)][1..] == [];
  }

  lemma GroupIsEmitted(s: Shape, name: string, start: Event, items: seq<Tree>, end: Event, midLine: bool)
    ensures EventsAfter(s, NameEvents(name) + [start] + FlattenAll(items) + [end], midLine) ==
            EventAfter(EventsAfter(EventAfter(s, start, midLine), FlattenAll(items), midLine), end, midLine)
  {
    OneEvent(s, name, start, midLine);
    EventsOn(s, NameEvents(name) + [start], FlattenAll(items), midLine);
    EventsOn(s, NameEvents(name) + [start] + FlattenAll(items), [end], midLine);
    OneEvent(EventsAfter(EventAfter(s, start, midLine), FlattenAll(items), midLine), "", end, midLine);
    assert NameEvents("") + [end] == [end];
  }

  /** Inside a group every node with proper tags is taken. */
  lemma {:induction false} ItemsAreEmitted(s: Shape, items: seq<Tree>, midLine: bool)
    requires s.Shape? ==> s.kinds != [] && !s.anchor && !s.tag
    ensures EventsAfter(s, FlattenAll(items), midLine) == if AllTagsTaken(items) then s else Bad
    decreases items, 0
  {
    if s.Bad? {
      BadStays(FlattenAll(items), midLine);
    } else if items != [] {
      EventsOn(s, Flatten(items[0]), FlattenAll(items[1..]), midLine);
      TreeIsEmitted(s, items[0], midLine);
      if TagsTaken(items[0]) {
        ItemsAreEmitted(s, items[1..], midLine);
      } else {
        BadStays(FlattenAll(items[1..]), midLine);
      }
    }
  }

  // The handler's part

  datatype Waiting = WaitingForSequenceEntry | WaitingForKey | WaitingForValue

  /** The stack of a handler, unless one of its assertions fails. */
  datatype Stacked = AssertionFails | Stacked(stack: seq<Waiting>)

  /** BeginNode: in a map, keys and values take turns. */
  function Begun(stack: seq<Waiting>): (r: seq<Waiting>)
    ensures |r| == |stack|
  {
    if stack == [] then stack
    else
      var last := |stack| - 1;
      match stack[last]
      case WaitingForKey => stack[last := WaitingForValue]
      case WaitingForValue => stack[last := WaitingForKey]
      case WaitingForSequenceEntry => stack
  }

  function Popped(stack: seq<Waiting>, top: Waiting): Stacked {
    if stack != [] && stack[|stack| - 1] == top then Stacked(stack[..|stack| - 1]) else AssertionFails
  }

  function StackAfter(stack: seq<Waiting>, e: Event): Stacked {
    match e
    case DocumentStart => Stacked(stack)
    case DocumentEnd => Stacked(stack)
    case AnchorName(_) => Stacked(stack)
    case SequenceStart(_, _, _) => Stacked(Begun(stack) + [WaitingForSequenceEntry])
    case SequenceEnd => Popped(stack, WaitingForSequenceEntry)
    case MapStart(_, _, _) => Stacked(Begun(stack) + [WaitingForKey])
    case MapEnd => Popped(stack, WaitingForKey)
    case _ => Stacked(Begun(stack))
  }

  function StacksAfter(r: Stacked, es: seq<Event>): Stacked
    decreases |es|
  {
    if es == [] || r.AssertionFails? then r else StacksAfter(StackAfter(r.stack, es[0]), es[1..])
  }

  lemma {:induction false} StacksOn(r: Stacked, es: seq<Event>, more: seq<Event>)
    ensures StacksAfter(r, es + more) == StacksAfter(StacksAfter(r, es), more)
    decreases |es|
  {
    if es == [] {
      assert es + more == more;
    } else if r.Stacked? {
      assert (es + more)[0] == es[0] && (es + more)[1..] == es[1..] + more;
      StacksOn(StackAfter(r.stack, es[0]), es[1..], more);
    }
  }

  lemma OneOnStack(r: Stacked, name: string, e: Event)
    requires r.Stacked?
    ensures StacksAfter(r, NameEvents(name) + [e]) == StackAfter(r.stack, e)
  {
    StacksOn(r, NameEvents(name), [e]);
    assert StackAfter(r.stack, AnchorName(name)) == r;
    hide StackAfter;
    assert [e][1..] == [] && [AnchorName(name)][1..] == [];
  }

  lemma GroupOnStack(r: Stacked, name: string, start: Event, items: seq<Tree>, end: Event)
    requires r.Stacked? && StacksAfter(StackAfter(r.stack, start), FlattenAll(items)).Stacked?
    ensures StacksAfter(r, NameEvents(name) + [start] + FlattenAll(items) + [end]) ==
            StackAfter(StacksAfter(StackAfter(r.stack, start), FlattenAll(items)).stack, end)
  {
    OneOnStack(r, name, start);
    StacksOn(r, NameEvents(name) + [start], FlattenAll(items));
    StacksOn(r, NameEvents(name) + [start] + FlattenAll(items), [end]);
    OneOnStack(StacksAfter(StackAfter(r.stack, start), FlattenAll(items)), "", end);
    assert NameEvents("") + [end] == [end];
  }

  /** What waits after n more nodes. */
  function BegunTimes(stack: seq<Waiting>, n: nat): seq<Waiting>
    decreases n
  {
    if n == 0 then stack else BegunTimes(Begun(stack), n - 1)
  }

  lemma {:induction false} TurnsAround(stack: seq<Waiting>, n: nat)
    ensures BegunTimes(stack + [WaitingForSequenceEntry], n) == stack + [WaitingForSequenceEntry]
    ensures n % 2 == 0 ==> BegunTimes(stack + [WaitingForKey], n) == stack + [WaitingForKey]
  {
    if n > 0 {
      TurnsAround(stack, n - 1);
    }
    if n > 1 {
      TurnsAround(stack, n - 2);
      assert Begun(stack + [WaitingForKey]) == stack + [WaitingForValue];
      assert Begun(stack + [WaitingForValue]) == stack + [WaitingForKey];
    }
  }

  /** The events of a tree with whole pairs fail no assertion, and leave the stack one node on. */
  lemma {:induction false} TreeOnStack(stack: seq<Waiting>, t: Tree)
    requires Paired(t)
    ensures StacksAfter(Stacked(stack), Flatten(t)) == Stacked(Begun(stack))
    decreases t, 1
  {
    hide StacksAfter, Begun, BegunTimes;
    match t
    case AliasOf(target) =>
      OneOnStack(Stacked(stack), "", Alias(target));
      assert NameEvents("") + [Alias(target)] == [Alias(target)];
    case NullNode(name, anchor) => OneOnStack(Stacked(stack), name, Null(anchor));
    case ScalarNode(name, anchor, tag, value) => OneOnStack(Stacked(stack), name, Scalar(tag, anchor, value));
    case SequenceNode(name, anchor, tag, style, items) =>
      ItemsOnStack(Begun(stack) + [WaitingForSequenceEntry], items);
      TurnsAround(Begun(stack), |items|);
      GroupOnStack(Stacked(stack), name, SequenceStart(tag, anchor, style), items, SequenceEnd);
    case MapNode(name, anchor, tag, style, items) =>
      ItemsOnStack(Begun(stack) + [WaitingForKey], items);
      TurnsAround(Begun(stack), |items|);
      GroupOnStack(Stacked(stack), name, MapStart(tag, anchor, style), items, MapEnd);
  }

  lemma {:induction false} ItemsOnStack(stack: seq<Waiting>, items: seq<Tree>)
    requires forall i :: 0 <= i < |items| ==> Paired(items[i])
    ensures StacksAfter(Stacked(stack), FlattenAll(items)) == Stacked(BegunTimes(stack, |items|))
    decreases items, 0
  {
    if items != [] {
      hide Paired, StacksAfter, Begun;
      StacksOn(Stacked(stack), Flatten(items[0]), FlattenAll(items[1..]));
      TreeOnStack(stack, items[0]);
      ItemsOnStack(Begun(stack), items[1..]);
    } else {
      assert FlattenAll(items) == [];
    }
  }

  class EmitFromEvents {
    const emitter: Emitting.Emitter
    var stateStack: seq<Waiting>

    constructor (emitter: Emitting.Emitter)
      ensures this.emitter == emitter && stateStack == []
    {
      this.emitter, stateStack := emitter, [];
    }

    /** Every collection that the handler is in is a group of the emitter. */
    ghost predicate Linked()
      reads this, emitter
    {
      emitter.Valid() && (emitter.isGood ==> |stateStack| <= |emitter.groups|)
    }

    /** The emitter and the stack are where the event takes them. */
    twostate predicate Handled(e: Event, midLine: bool)
      reads this, emitter
    {
      && Linked() && ShapeOf(emitter) == EventAfter(old(ShapeOf(emitter)), e, midLine)
      && (emitter.isGood ==> emitter.AsPen() == EventPen(old(emitter.AsPen()), e, midLine))
      && StackAfter(old(stateStack), e) == Stacked(stateStack)
    }

    method Call(call: Call, midLine: bool)
      requires emitter.Valid() && !Aborts(ShapeOf(emitter), call)
      modifies emitter
      ensures Made(emitter, call, midLine)
    {
      var aborts := Make(emitter, call, midLine);
      assert !aborts;
    }

    method EmitProps(tag: string, anchor: Anchor, midLine: bool)
      requires emitter.Valid()
      modifies emitter
      ensures emitter.Valid() && ShapeOf(emitter) == PropsAfter(old(ShapeOf(emitter)), tag, anchor, midLine)
      ensures emitter.isGood ==> emitter.AsPen() == PropsPen(old(emitter.AsPen()), tag, anchor, midLine)
    {
      hide Next, PenAfter;
      StaysBad(Anchored(true), midLine || HasTag(tag));
      if HasTag(tag) {
        var ok, text := WriteVerbatimTag(tag);
        Call(Tagged(ok), midLine);
      }
      if anchor != NULL_ANCHOR {
        Call(Anchored(true), midLine || HasTag(tag));
      }
    }

    method BeginNode()
      modifies this
      ensures stateStack == Begun(old(stateStack))
    {
      if stateStack == [] {
        return;
      }
      var last := |stateStack| - 1;
      match stateStack[last] {
        case WaitingForKey => stateStack := stateStack[last := WaitingForValue];
        case WaitingForValue => stateStack := stateStack[last := WaitingForKey];
        case _ =>
      }
    }

    method OnNull(anchor: Anchor, midLine: bool)
      requires Linked()
      modifies this, emitter
      ensures Handled(Null(anchor), midLine)
    {
      hide Next, PropsAfter, PenAfter, PropsPen, Kinds, Begun, Emitting.Unclosed, Emitting.Pairs, Emitting.OpenOf,
           Emitting.GroupsOk, Emitting.Indents;
      NodeKeepsGroups(ShapeOf(emitter), "", anchor, Content(false), midLine);
      BeginNode();
      EmitProps("", anchor, midLine);
      Call(Content(false), midLine || anchor != NULL_ANCHOR);
    }

    method OnAlias(anchor: Anchor, midLine: bool)
      requires Linked()
      modifies this, emitter
      ensures Handled(Alias(anchor), midLine)
    {
      BeginNode();
      Call(Reference(true), midLine);
    }

    method OnScalar(tag: string, anchor: Anchor, value: string, midLine: bool)
      requires Linked()
      modifies this, emitter
      ensures Handled(Scalar(tag, anchor, value), midLine)
    {
      hide Next, PropsAfter, PenAfter, PropsPen, StylePen, HasTag, Kinds, Begun, Emitting.Unclosed, Emitting.Pairs,
           Emitting.OpenOf, Emitting.GroupsOk, Emitting.Indents;
      NodeKeepsGroups(ShapeOf(emitter), tag, anchor, Content(IsLong(value)), midLine);
      BeginNode();
      EmitProps(tag, anchor, midLine);
      Call(Content(IsLong(value)), midLine || HasTag(tag) || anchor != NULL_ANCHOR);
    }

    /** The style, and the global settings it may not override. */
    method SetStyle(style: Style)
      requires emitter.Valid()
      modifies emitter
      ensures emitter.Valid() && ShapeOf(emitter) == old(ShapeOf(emitter))
      ensures emitter.isGood ==> emitter.AsPen() == StylePen(old(emitter.AsPen()), style)
    {
      hide PenAfter, Kinds, Emitting.Unclosed, Emitting.Pairs, Emitting.OpenOf, Emitting.GroupsOk, Emitting.Indents;
      match style {
        case Block => Call(Local(Emitting.UseBlock), false);
        case Flow => Call(Local(Emitting.UseFlow), false);
        case Default =>
      }
      Call(RestoreGlobals, false);
    }

    /** The properties of a collection, its style and its beginning. */
    method BeginCollection(tag: string, anchor: Anchor, style: Style, kind: Emitting.Kind, midLine: bool)
      requires emitter.Valid()
      modifies emitter
      ensures emitter.Valid() && ShapeOf(emitter) == NodeAfter(old(ShapeOf(emitter)), tag, anchor, Begin(kind), midLine)
      ensures emitter.isGood ==> emitter.AsPen() == CollectionPen(old(emitter.AsPen()), tag, anchor, style, kind, midLine)
    {
      hide Next, PropsAfter, PenAfter, PropsPen, StylePen, HasTag, Kinds, Emitting.Unclosed, Emitting.Pairs, Emitting.OpenOf,
           Emitting.GroupsOk;
      hide Emitting.Indents;
      NodeKeepsGroups(ShapeOf(emitter), tag, anchor, Begin(kind), midLine);
      EmitProps(tag, anchor, midLine);
      SetStyle(style);
      Call(Begin(kind), midLine || HasTag(tag) || anchor != NULL_ANCHOR);
    }

    method OnSequenceStart(tag: string, anchor: Anchor, style: Style, midLine: bool)
      requires Linked()
      modifies this, emitter
      ensures Handled(SequenceStart(tag, anchor, style), midLine)
    {
      hide NodeAfter, CollectionPen, Kinds, Begun, Emitting.Unclosed, Emitting.Pairs, Emitting.OpenOf, Emitting.GroupsOk, Emitting.Indents;
      NodeKeepsGroups(ShapeOf(emitter), tag, anchor, Begin(Emitting.Seq), midLine);
      BeginNode();
      BeginCollection(tag, anchor, style, Emitting.Seq, midLine);
      stateStack := stateStack + [WaitingForSequenceEntry];
    }

    method OnSequenceEnd(midLine: bool)
      requires Linked() && StackAfter(stateStack, SequenceEnd).Stacked?
      modifies this, emitter
      ensures Handled(SequenceEnd, midLine)
    {
      hide Emitting.Unclosed, Emitting.Pairs, Emitting.OpenOf, Emitting.GroupsOk, Emitting.Indents, Kinds;
      Call(End(Emitting.Seq), midLine);
      assert stateStack[|stateStack| - 1] == WaitingForSequenceEntry;
      stateStack := stateStack[..|stateStack| - 1];
    }

    method OnMapStart(tag: string, anchor: Anchor, style: Style, midLine: bool)
      requires Linked()
      modifies this, emitter
      ensures Handled(MapStart(tag, anchor, style), midLine)
    {
      hide NodeAfter, CollectionPen, Kinds, Begun, Emitting.Unclosed, Emitting.Pairs, Emitting.OpenOf, Emitting.GroupsOk, Emitting.Indents;
      NodeKeepsGroups(ShapeOf(emitter), tag, anchor, Begin(Emitting.Map), midLine);
      BeginNode();
      BeginCollection(tag, anchor, style, Emitting.Map, midLine);
      stateStack := stateStack + [WaitingForKey];
    }

    method OnMapEnd(midLine: bool)
      requires Linked() && StackAfter(stateStack, MapEnd).Stacked?
      modifies this, emitter
      ensures Handled(MapEnd, midLine)
    {
      hide Emitting.Unclosed, Emitting.Pairs, Emitting.OpenOf, Emitting.GroupsOk, Emitting.Indents, Kinds;
      Call(End(Emitting.Map), midLine);
      assert stateStack[|stateStack| - 1] == WaitingForKey;
      stateStack := stateStack[..|stateStack| - 1];
    }

    method Receive(e: Event, midLine: bool)
      requires Linked() && StackAfter(stateStack, e).Stacked?
      modifies this, emitter
      ensures Handled(e, midLine)
    {
      match e {
        case DocumentStart =>
        case DocumentEnd =>
        case AnchorName(_) =>
        case Null(anchor) => OnNull(anchor, midLine);
        case Alias(anchor) => OnAlias(anchor, midLine);
        case Scalar(tag, anchor, value) => OnScalar(tag, anchor, value, midLine);
        case SequenceStart(tag, anchor, style) => OnSequenceStart(tag, anchor, style, midLine);
        case SequenceEnd => OnSequenceEnd(midLine);
        case MapStart(tag, anchor, style) => OnMapStart(tag, anchor, style, midLine);
        case MapEnd => OnMapEnd(midLine);
      }
    }

    method ReceiveAll(es: seq<Event>, midLine: bool)
      requires Linked() && StacksAfter(Stacked(stateStack), es).Stacked?
      modifies this, emitter
      ensures Linked() && ShapeOf(emitter) == EventsAfter(old(ShapeOf(emitter)), es, midLine)
      ensures emitter.isGood ==> emitter.AsPen() == EventsPen(old(emitter.AsPen()), es, midLine)
      ensures StacksAfter(Stacked(old(stateStack)), es) == Stacked(stateStack)
    {
      hide StackAfter, EventAfter, EventPen;
      assert es[0..] == es;
      for i := 0 to |es|
        invariant Linked() && EventsAfter(ShapeOf(emitter), es[i..], midLine) == EventsAfter(old(ShapeOf(emitter)), es, midLine)
        invariant emitter.isGood ==> EventsPen(emitter.AsPen(), es[i..], midLine) == EventsPen(old(emitter.AsPen()), es, midLine)
        invariant StacksAfter(Stacked(stateStack), es[i..]) == StacksAfter(Stacked(old(stateStack)), es)
      {
        assert es[i..][0] == es[i] && es[i..][1..] == es[i + 1..];
        BadEvent(es[i], midLine);
        Receive(es[i], midLine);
      }
    }
  }

  lemma BadEvent(e: Event, midLine: bool)
    ensures EventAfter(Bad, e, midLine) == Bad
  {
  }

  lemma StaysBad(call: Call, midLine: bool)
    ensures Next(Bad, call, midLine) == Bad
  {
  }

  lemma NodeKeepsGroups(s: Shape, tag: string, anchor: Anchor, call: Call, midLine: bool)
    requires call.Content? || call.Begin?
    ensures var r := NodeAfter(s, tag, anchor, call, midLine);
            r.Shape? ==> s.Shape? && PropsAfter(s, tag, anchor, midLine).Shape? && r.kinds == if call.Begin? then s.kinds + [call.kind] else s.kinds
  {
    hide HasTag, IsUriFrom;
  }
}
