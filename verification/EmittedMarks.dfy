/**
 * What is written for a tree of events besides its scalars and properties: brackets and commas, dashes, question marks
 * and colons, said of the tree's own styles.
 */
module EmittedMarks {
  import opened Events
  import opened Emitting
  import opened EmitterRuns
  import opened EventEmitting

  // The punctuation of a tree

  /** The settings in force for a collection and what is in it. */
  function SettingsIn(s: Settings, style: Style, globals: seq<Change>): Settings {
    var own := match style
      case Flow => s.(seqFlow := true, mapFlow := true)
      case Block => s.(seqFlow := false, mapFlow := false)
      case Default => s;
    Restored(own, globals)
  }

  predicate HasProps(t: Tree) {
    HasTag(TagOf(t)) || AnchorOf(t) != NULL_ANCHOR
  }

  predicate IsFlow(t: Tree, inFlow: bool, s: Settings, globals: seq<Change>) {
    match t
    case SequenceNode(_, _, _, style, _) => inFlow || SettingsIn(s, style, globals).seqFlow
    case MapNode(_, _, _, style, _) => inFlow || SettingsIn(s, style, globals).mapFlow
    case _ => false
  }

  predicate IsLongScalar(t: Tree) {
    t.ScalarNode? && |t.value| > 1024
  }

  /** Whether a question mark stands in front of a key. */
  predicate IsLongKey(t: Tree, inFlow: bool, s: Settings, globals: seq<Change>) {
    || s.longKeys
    || (if inFlow then IsLongScalar(t) && !HasProps(t)
        else IsLongScalar(t) || HasProps(t) || ((t.SequenceNode? || t.MapNode?) && !IsFlow(t, false, s, globals)))
  }

  function QuestionMark(t: Tree, inFlow: bool, s: Settings, globals: seq<Change>): string {
    if IsLongKey(t, inFlow, s, globals) then "?" else ""
  }

  function Marks(t: Tree, inFlow: bool, s: Settings, globals: seq<Change>): string
    decreases t, 1
  {
    match t
    case SequenceNode(_, _, _, style, items) =>
      if items == [] then "[]"
      else if IsFlow(t, inFlow, s, globals) then "[" + FlowItemMarks(items, SettingsIn(s, style, globals), globals) + "]"
      else BlockItemMarks(items, SettingsIn(s, style, globals), globals)
    case MapNode(_, _, _, style, items) =>
      if items == [] then "{}"
      else if IsFlow(t, inFlow, s, globals) then "{" + FlowPairMarks(items, SettingsIn(s, style, globals), globals) + "}"
      else BlockPairMarks(items, SettingsIn(s, style, globals), globals)
    case _ => ""
  }

  function FlowItemMarks(ts: seq<Tree>, s: Settings, globals: seq<Change>): string
    decreases ts, 0
  {
    if ts == [] then "" else Marks(ts[0], true, s, globals) + (if |ts| == 1 then "" else "," + FlowItemMarks(ts[1..], s, globals))
  }

  function BlockItemMarks(ts: seq<Tree>, s: Settings, globals: seq<Change>): string
    decreases ts, 0
  {
    if ts == [] then "" else "-" + Marks(ts[0], false, s, globals) + BlockItemMarks(ts[1..], s, globals)
  }

  /** Keys and values in turn. */
  function FlowPairMarks(ts: seq<Tree>, s: Settings, globals: seq<Change>): string
    decreases ts, 0
  {
    if |ts| < 2 then ""
    else
      QuestionMark(ts[0], true, s, globals) + Marks(ts[0], true, s, globals) + ":" + Marks(ts[1], true, s, globals) +
      (if |ts| == 2 then "" else "," + FlowPairMarks(ts[2..], s, globals))
  }

  function BlockPairMarks(ts: seq<Tree>, s: Settings, globals: seq<Change>): string
    decreases ts, 0
  {
    if |ts| < 2 then ""
    else
      QuestionMark(ts[0], false, s, globals) + Marks(ts[0], false, s, globals) + ":" + Marks(ts[1], false, s, globals) +
      BlockPairMarks(ts[2..], s, globals)
  }

  // Scalars alone

  function Repeat(mark: char, n: nat): string {
    seq(n, i => mark)
  }

  /** Of n scalars: one pair of brackets with n - 1 commas in a flow sequence, n dashes in a block one. */
  lemma {:induction false} ScalarsAlone(ts: seq<Tree>, s: Settings, globals: seq<Change>)
    requires ts != [] && forall i :: 0 <= i < |ts| ==> ts[i].ScalarNode?
    ensures FlowItemMarks(ts, s, globals) == Repeat(',', |ts| - 1) && BlockItemMarks(ts, s, globals) == Repeat('-', |ts|)
    decreases |ts|
  {
    if |ts| > 1 {
      ScalarsAlone(ts[1..], s, globals);
    } else {
      assert ts[1..] == [];
    }
  }

  // In front of a node

  /** What is written in front of a node in this group. */
  function LeadOf(g: Group, t: Tree, s: Settings, globals: seq<Change>): string {
    if g.kind == Seq then if !g.flow then "-" else if g.childCount == 0 then "[" else ","
    else if g.childCount % 2 == 1 then ":"
    else (if !g.flow then "" else if g.childCount == 0 then "{" else ",") + QuestionMark(t, g.flow, s, globals)
  }

  function ChildType(t: Tree, inFlow: bool, s: Settings, globals: seq<Change>): NodeType {
    match t
    case SequenceNode(_, _, _, _, _) => if IsFlow(t, inFlow, s, globals) then FlowSeq else BlockSeq
    case MapNode(_, _, _, _, _) => if IsFlow(t, inFlow, s, globals) then FlowMap else BlockMap
    case _ => NodeType.Scalar
  }

  /** The mark of a long key is gone when its value has been written. */
  predicate Tidy(g: Group) {
    g.kind == Map && g.childCount % 2 == 0 ==> !g.longKey
  }

  lemma LeadIs(g: Group, t: Tree, s: Settings, globals: seq<Change>)
    requires Tidy(g)
    ensures var c, long := ChildType(t, g.flow, s, globals), s.longKeys || IsLongScalar(t);
            if HasProps(t) then
              var g1 := Marked(g, Property, s.longKeys);
              Lead(g1, Property, false, false) == LeadOf(g, t, s, globals) && Lead(Marked(g1, c, long), c, true, true) == ""
            else Lead(Marked(g, c, long), c, false, false) == LeadOf(g, t, s, globals)
  {
    hide SettingsIn, Restored, HasTag;
  }

  lemma MarkedOnly(g: Group, c: NodeType, longKeys: bool)
    ensures Marked(g, c, longKeys) == g.(longKey := Marked(g, c, longKeys).longKey)
  {
  }

  /** Nothing is pending, and the settings of the emitter as a whole are in force. */
  predicate Quiet(p: Pen) {
    && !p.anchor && !p.tag && !p.other && p.modified == [] && Restored(p.settings, p.globals) == p.settings
    && (p.groups != [] ==> Tidy(p.groups[|p.groups| - 1]))
  }

  predicate InFlow(p: Pen) {
    p.groups != [] && p.groups[|p.groups| - 1].flow
  }

  /** The innermost group as it is, but for the mark of its key. */
  predicate SameAround(p: Pen, q: Pen) {
    && |q.groups| == |p.groups| && Outer(q.groups) == Outer(p.groups)
    && (p.groups != [] ==>
          var last := |p.groups| - 1;
          q.groups == p.groups[last := q.groups[last]] && q.groups[last] == p.groups[last].(longKey := q.groups[last].longKey))
  }

  /** Behind a node's properties, of which the first one was prepared for. */
  lemma PropsWritten(p: Pen, tag: string, anchor: Anchor, midLine: bool)
    requires Quiet(p) && (HasTag(tag) || anchor != NULL_ANCHOR)
    ensures var q := PropsPen(p, tag, anchor, midLine);
            && q == p.(groups := q.groups, anchor := q.anchor, tag := q.tag, out := q.out) && |q.groups| == |p.groups|
            && (p.groups == [] ==> q.out == p.out)
            && (p.groups != [] ==>
                  var last := |p.groups| - 1; var g := Marked(p.groups[last], Property, p.settings.longKeys);
                  && q.groups == p.groups[last := g] && q.out == p.out + Lead(g, Property, false, false) && (q.anchor || q.tag))
  {
    hide HasTag, IsUriFrom, Restored;
    var p1 := PenAfter(p, Tagged(IsUriFrom(tag, 0)), midLine);
    if p.groups != [] {
      var last := |p.groups| - 1;
      var g := Marked(p.groups[last], Property, p.settings.longKeys);
      MarkedTwice(p.groups[last], p.settings.longKeys);
      LeadBehind(g, Property);
      hide Marked, Lead;
      assert p.groups[last := g][last := g] == p.groups[last := g];
      assert p1.out + "" == p1.out;
    }
  }

  lemma MarkedTwice(g: Group, longKeys: bool)
    ensures var g1 := Marked(g, Property, longKeys); Marked(g1, Property, longKeys) == g1
  {
  }

  lemma LeadBehind(g: Group, c: NodeType)
    ensures Lead(g, c, true, true) == ""
  {
  }

  function PropsOf(p: Pen, t: Tree, midLine: bool): Pen {
    PropsPen(p, TagOf(t), AnchorOf(t), midLine)
  }

  function MarkIn(p: Pen, t: Tree): string {
    if p.groups == [] then "" else LeadOf(p.groups[|p.groups| - 1], t, p.settings, p.globals)
  }

  /** The preparation for the node itself, behind its properties: by then the right mark stands in front of it. */
  lemma NodePrepared(p: Pen, q: Pen, t: Tree, midLine: bool, mid2: bool)
    requires Quiet(p) && q == PropsOf(p, t, midLine).(settings := q.settings, modified := q.modified)
    requires q.settings.longKeys == (p.settings.longKeys || IsLongScalar(t))
    ensures var w := Prepared(q, ChildType(t, InFlow(p), p.settings, p.globals), mid2);
            && w == q.(groups := w.groups, anchor := w.anchor, tag := w.tag, other := w.other, out := p.out + MarkIn(p, t))
            && |w.groups| == |p.groups| && Outer(w.groups) == Outer(p.groups)
            && (p.groups != [] ==> var last := |p.groups| - 1; w.groups[last] == p.groups[last].(longKey := w.groups[last].longKey))
  {
    hide Restored, HasTag, IsFlow, Lead, LeadOf, Marked, PropsPen;
    var c := ChildType(t, InFlow(p), p.settings, p.globals);
    if HasProps(t) {
      PropsWritten(p, TagOf(t), AnchorOf(t), midLine);
    } else {
      NoProps(p, t, midLine);
    }
    if p.groups != [] {
      var last := |p.groups| - 1;
      var g := p.groups[last];
      LeadIs(g, t, p.settings, p.globals);
      var g1 := Marked(g, Property, p.settings.longKeys);
      MarkedOnly(g, Property, p.settings.longKeys);
      MarkedOnly(g, c, q.settings.longKeys);
      MarkedOnly(g1, c, q.settings.longKeys);
      LeadBehind(Marked(g1, c, q.settings.longKeys), c);
      assert q.out + "" == q.out;
    } else {
      assert p.out + "" == p.out;
    }
    hide ChildType;
  }

  lemma NoProps(p: Pen, t: Tree, midLine: bool)
    requires !HasProps(t)
    ensures PropsOf(p, t, midLine) == p
  {
  }

  /** One node more, with its marks. */
  ghost predicate OneWritten(p: Pen, q: Pen, t: Tree) {
    && q == p.(groups := q.groups, docs := if p.groups == [] then p.docs + 1 else p.docs,
               out := p.out + (MarkIn(p, t) + Marks(t, InFlow(p), p.settings, p.globals)))
    && |q.groups| == |p.groups| && Outer(q.groups) == Outer(p.groups)
    && (p.groups != [] ==>
          var g, g' := p.groups[|p.groups| - 1], q.groups[|p.groups| - 1];
          g' == g.(childCount := g.childCount + 1, longKey := g'.longKey) && Tidy(g'))
  }

  lemma WrittenIsQuiet(p: Pen, q: Pen, t: Tree)
    requires Quiet(p) && OneWritten(p, q, t)
    ensures Quiet(q) && InFlow(q) == InFlow(p)
  {
    hide Restored, Marks, LeadOf;
  }

  /** A scalar, a null or an alias. */
  lemma LeafWritten(p: Pen, t: Tree, long: bool, midLine: bool, mid2: bool)
    requires Quiet(p) && !t.SequenceNode? && !t.MapNode? && long == IsLongScalar(t)
    ensures OneWritten(p, ScalarWritten(PropsOf(p, t, midLine), long, mid2), t)
  {
    hide Restored, PropsPen, LeadOf, Prepared;
    var r := PropsOf(p, t, midLine);
    PropsKeep(p, t, midLine);
    var q := if long then LocalSet(r, UseLongKeys) else r;
    assert [] + ChangesOf(p.settings, UseLongKeys) == ChangesOf(p.settings, UseLongKeys);
    NodePrepared(p, q, t, midLine, mid2);
    hide OneWritten, OnePast, Quiet, MarkIn;
    LeafStands(p, Prepared(q, NodeType.Scalar, mid2), t, long);
  }

  lemma LeafStands(p: Pen, w: Pen, t: Tree, long: bool)
    requires Quiet(p) && !t.SequenceNode? && !t.MapNode? && |w.groups| == |p.groups| && Outer(w.groups) == Outer(p.groups)
    requires w == p.(groups := w.groups, anchor := w.anchor, tag := w.tag, other := w.other, out := p.out + MarkIn(p, t),
                     settings := if long then LocallySet(p.settings, UseLongKeys) else p.settings,
                     modified := if long then ChangesOf(p.settings, UseLongKeys) else [])
    requires p.groups != [] ==> var last := |p.groups| - 1; w.groups[last] == p.groups[last].(longKey := w.groups[last].longKey)
    ensures OneWritten(p, OnePast(w).(settings := Restored(w.settings, w.modified), modified := []), t)
  {
    CountedIs(w.groups);
    CountedIsTidy(w.groups);
    SetAndRestored(p.settings, UseLongKeys);
    NothingRestored(p.settings);
    LeafMarks(p, t);
    hide Counted, MarkIn, Marks, Restored, LocallySet, ChangesOf, Outer;
  }

  lemma LeafMarks(p: Pen, t: Tree)
    requires !t.SequenceNode? && !t.MapNode?
    ensures MarkIn(p, t) + Marks(t, InFlow(p), p.settings, p.globals) == MarkIn(p, t)
  {
    hide MarkIn;
    assert MarkIn(p, t) + "" == MarkIn(p, t);
  }

  lemma PropsKeep(p: Pen, t: Tree, midLine: bool)
    requires Quiet(p)
    ensures var q := PropsOf(p, t, midLine);
            && q == p.(groups := q.groups, anchor := q.anchor, tag := q.tag, out := q.out) && |q.groups| == |p.groups|
            && InFlow(q) == InFlow(p)
  {
    hide Restored, HasTag, Lead, PropsPen;
    if HasProps(t) {
      PropsWritten(p, TagOf(t), AnchorOf(t), midLine);
    } else {
      NoProps(p, t, midLine);
    }
  }

  lemma NothingRestored(s: Settings)
    ensures Restored(s, []) == s
  {
  }

  lemma CountedIsTidy(groups: seq<Group>)
    ensures groups != [] ==> |Counted(groups)| == |groups| && Tidy(Counted(groups)[|groups| - 1])
  {
  }

  // Settings inside a collection

  /** A setting comes back the same whatever it was, or stays what it was. */
  lemma {:induction false} EachRestored(s: Settings, s': Settings, changes: seq<Change>)
    ensures var r, r' := Restored(s, changes), Restored(s', changes);
            && (r.seqFlow == r'.seqFlow || (r.seqFlow == s.seqFlow && r'.seqFlow == s'.seqFlow))
            && (r.mapFlow == r'.mapFlow || (r.mapFlow == s.mapFlow && r'.mapFlow == s'.mapFlow))
            && (r.longKeys == r'.longKeys || (r.longKeys == s.longKeys && r'.longKeys == s'.longKeys))
            && (r.indent == r'.indent || (r.indent == s.indent && r'.indent == s'.indent))
    decreases |changes|
  {
    if changes != [] {
      EachRestored(Undone(s, changes[0]), Undone(s', changes[0]), changes[1..]);
    }
  }

  lemma SettingsAreQuiet(s: Settings, style: Style, globals: seq<Change>)
    requires Restored(s, globals) == s
    ensures var s1 := SettingsIn(s, style, globals);
            Restored(s1, globals) == s1 && s1.longKeys == s.longKeys && s1.indent == s.indent
  {
    var own := match style
      case Flow => s.(seqFlow := true, mapFlow := true)
      case Block => s.(seqFlow := false, mapFlow := false)
      case Default => s;
    EachRestored(own, s, globals);
    EachRestored(Restored(own, globals), own, globals);
    hide Restored;
  }

  function StyleChanges(s: Settings, style: Style): seq<Change> {
    match style
    case Flow => ChangesOf(s, UseFlow)
    case Block => ChangesOf(s, UseBlock)
    case Default => []
  }

  lemma StyleIs(r: Pen, style: Style)
    requires r.modified == []
    ensures StylePen(r, style) == r.(settings := SettingsIn(r.settings, style, r.globals), modified := StyleChanges(r.settings, style))
  {
    hide Restored;
  }

  /** Behind a collection the settings are those in front of it. */
  lemma StyleIsUndone(s: Settings, style: Style, globals: seq<Change>)
    requires Restored(s, globals) == s
    ensures Restored(Restored(Restored(SettingsIn(s, style, globals), StyleChanges(s, style)), globals), []) == s
  {
    SettingsAreQuiet(s, style, globals);
    var s1 := SettingsIn(s, style, globals);
    hide SettingsIn;
    if !style.Default? {
      TwoUndone(s1, SeqFlowWas(s.seqFlow), MapFlowWas(s.mapFlow));
    } else {
      DefaultIsOutside(s, globals);
    }
  }

  lemma DefaultIsOutside(s: Settings, globals: seq<Change>)
    ensures SettingsIn(s, Default, globals) == Restored(s, globals)
  {
  }

  // Collections

  function KindOf(t: Tree): Kind {
    if t.SequenceNode? then Seq else Map
  }

  /** SettingsIn a collection, in front of its first child. */
  ghost predicate Begun(p: Pen, b: Pen, t: Tree)
    requires t.SequenceNode? || t.MapNode?
  {
    && Quiet(b) && |b.groups| == |p.groups| + 1
    && b == p.(groups := b.groups, docs := if p.groups == [] then p.docs + 1 else p.docs,
               settings := SettingsIn(p.settings, t.style, p.globals), out := p.out + MarkIn(p, t))
    && b.groups[|p.groups|] == Group(KindOf(t), IsFlow(t, InFlow(p), p.settings, p.globals), p.settings.indent, 0, false,
                                     StyleChanges(p.settings, t.style))
    && Outer(Outer(b.groups)) == Outer(p.groups)
    && (p.groups != [] ==>
          var g, g' := p.groups[|p.groups| - 1], b.groups[|p.groups| - 1];
          g' == g.(childCount := g.childCount + 1, longKey := g'.longKey) && Tidy(g'))
  }

  lemma CollectionBegins(p: Pen, t: Tree, midLine: bool)
    requires Quiet(p) && (t.SequenceNode? || t.MapNode?)
    ensures Begun(p, CollectionPen(p, TagOf(t), AnchorOf(t), t.style, KindOf(t), midLine), t)
  {
    hide Restored, PropsPen, LeadOf, Prepared, SettingsIn, StyleChanges, StylePen;
    var r := PropsOf(p, t, midLine);
    PropsKeep(p, t, midLine);
    StyleIs(r, t.style);
    SettingsAreQuiet(p.settings, t.style, p.globals);
    var q := StylePen(r, t.style);
    var mid2 := midLine || HasTag(TagOf(t)) || AnchorOf(t) != NULL_ANCHOR;
    NodePrepared(p, q, t, midLine, mid2);
    TypeIs(p, q, t);
    hide TypeOf;
    var w := Prepared(q, ChildType(t, InFlow(p), p.settings, p.globals), mid2);
    var g := Group(KindOf(t), BeginsFlow(q, KindOf(t)), q.settings.indent, 0, false, q.modified);
    CollectionIs(p, t, midLine, w);
    hide HasTag, Quiet, Begun, OnePast, ChildType, IsFlow, BeginsFlow, CollectionPen;
    GroupStands(p, w, t, g);
  }

  lemma CollectionIs(p: Pen, t: Tree, midLine: bool, w: Pen)
    requires t.SequenceNode? || t.MapNode?
    requires var q := StylePen(PropsOf(p, t, midLine), t.style);
             && w == Prepared(q, ChildType(t, InFlow(p), p.settings, p.globals), midLine || HasTag(TagOf(t)) || AnchorOf(t) != NULL_ANCHOR)
             && InFlow(q) == InFlow(p) && q.settings == SettingsIn(p.settings, t.style, p.globals)
    ensures var q := StylePen(PropsOf(p, t, midLine), t.style); var r := OnePast(w);
            CollectionPen(p, TagOf(t), AnchorOf(t), t.style, KindOf(t), midLine) ==
            r.(groups := r.groups + [Group(KindOf(t), BeginsFlow(q, KindOf(t)), q.settings.indent, 0, false, q.modified)], modified := [])
  {
    hide Restored, PropsPen, Prepared, SettingsIn, StylePen, OnePast, HasTag;
    TypeIs(p, StylePen(PropsOf(p, t, midLine), t.style), t);
    hide ChildType;
  }

  lemma GroupStands(p: Pen, w: Pen, t: Tree, g: Group)
    requires Quiet(p) && (t.SequenceNode? || t.MapNode?) && |w.groups| == |p.groups| && Outer(w.groups) == Outer(p.groups)
    requires w == p.(groups := w.groups, anchor := w.anchor, tag := w.tag, other := w.other, out := p.out + MarkIn(p, t),
                     settings := SettingsIn(p.settings, t.style, p.globals), modified := StyleChanges(p.settings, t.style))
    requires p.groups != [] ==> var last := |p.groups| - 1; w.groups[last] == p.groups[last].(longKey := w.groups[last].longKey)
    requires g == Group(KindOf(t), IsFlow(t, InFlow(p), p.settings, p.globals), p.settings.indent, 0, false, StyleChanges(p.settings, t.style))
    ensures var q := OnePast(w); Begun(p, q.(groups := q.groups + [g], modified := []), t)
  {
    hide Restored, LeadOf, SettingsIn, StyleChanges, IsFlow, MarkIn;
    CountedIs(w.groups);
    CountedIsTidy(w.groups);
    SettingsAreQuiet(p.settings, t.style, p.globals);
    OuterOfMore(Counted(w.groups), g);
    hide Counted, Outer;
  }

  lemma TypeIs(p: Pen, q: Pen, t: Tree)
    requires (t.SequenceNode? || t.MapNode?) && InFlow(q) == InFlow(p) && q.settings == SettingsIn(p.settings, t.style, p.globals)
    ensures BeginsFlow(q, KindOf(t)) == IsFlow(t, InFlow(p), p.settings, p.globals)
    ensures forall indent, changes ::
              TypeOf(Group(KindOf(t), BeginsFlow(q, KindOf(t)), indent, 0, false, changes)) == ChildType(t, InFlow(p), p.settings, p.globals)
  {
    hide SettingsIn;
  }

  // Whole trees

  lemma {:induction false} PensOn(p: Pen, es: seq<Event>, more: seq<Event>, midLine: bool)
    ensures EventsPen(p, es + more, midLine) == EventsPen(EventsPen(p, es, midLine), more, midLine)
    decreases |es|
  {
    hide EventPen;
    if es == [] {
      assert es + more == more;
    } else {
      assert (es + more)[0] == es[0] && (es + more)[1..] == es[1..] + more;
      PensOn(EventPen(p, es[0], midLine), es[1..], more, midLine);
    }
  }

  lemma OnePen(p: Pen, name: string, e: Event, midLine: bool)
    ensures EventsPen(p, NameEvents(name) + [e], midLine) == EventPen(p, e, midLine)
  {
    PensOn(p, NameEvents(name), [e], midLine);
    assert EventPen(p, AnchorName(name), midLine) == p;
    hide EventPen;
    assert [e][1..] == [] && [AnchorName(name)][1..] == [];
  }

  lemma GroupPen(p: Pen, name: string, start: Event, items: seq<Tree>, end: Event, midLine: bool)
    ensures EventsPen(p, NameEvents(name) + [start] + FlattenAll(items) + [end], midLine) ==
            EventPen(EventsPen(EventPen(p, start, midLine), FlattenAll(items), midLine), end, midLine)
  {
    OnePen(p, name, start, midLine);
    PensOn(p, NameEvents(name) + [start], FlattenAll(items), midLine);
    PensOn(p, NameEvents(name) + [start] + FlattenAll(items), [end], midLine);
    OnePen(EventsPen(EventPen(p, start, midLine), FlattenAll(items), midLine), "", end, midLine);
    assert NameEvents("") + [end] == [end];
  }

  /** What the children of a sequence add, from the one after `count` others on. */
  function SequenceAdds(flow: bool, count: nat, ts: seq<Tree>, s: Settings, globals: seq<Change>): string {
    if ts == [] then ""
    else if flow then (if count == 0 then "[" else ",") + FlowItemMarks(ts, s, globals)
    else BlockItemMarks(ts, s, globals)
  }

  function MapAdds(flow: bool, count: nat, ts: seq<Tree>, s: Settings, globals: seq<Change>): string {
    if ts == [] then ""
    else if flow then (if count == 0 then "{" else ",") + FlowPairMarks(ts, s, globals)
    else BlockPairMarks(ts, s, globals)
  }

  /** So many children more, with what they add. */
  ghost predicate ManyWritten(b: Pen, q: Pen, n: nat, added: string)
    requires b.groups != []
  {
    && q == b.(groups := q.groups, out := b.out + added) && |q.groups| == |b.groups| && Outer(q.groups) == Outer(b.groups)
    && var g, g' := b.groups[|b.groups| - 1], q.groups[|b.groups| - 1];
       g' == g.(childCount := g.childCount + n, longKey := g'.longKey) && Tidy(g')
  }

  lemma OneOfMany(b: Pen, q: Pen, r: Pen, t: Tree, n: nat, added: string)
    requires b.groups != [] && OneWritten(b, q, t) && ManyWritten(q, r, n, added)
    ensures ManyWritten(b, r, n + 1, LeadOf(b.groups[|b.groups| - 1], t, b.settings, b.globals) +
                                     Marks(t, InFlow(b), b.settings, b.globals) + added)
  {
    hide Marks, LeadOf, Outer;
    var lead, marks := LeadOf(b.groups[|b.groups| - 1], t, b.settings, b.globals), Marks(t, InFlow(b), b.settings, b.globals);
    assert b.out + (lead + marks) + added == b.out + (lead + marks + added);
  }

  lemma NoneWritten(b: Pen)
    requires Quiet(b) && b.groups != []
    ensures ManyWritten(b, b, 0, "")
  {
    hide Restored;
  }

  /**
   * The events of any tree: one node more, and written for it are exactly the marks its styles ask for; nothing else
   * changes, settings included.
   */
  lemma {:induction false} TreeWritten(p: Pen, t: Tree, midLine: bool)
    requires Quiet(p) && Paired(t)
    ensures OneWritten(p, EventsPen(p, Flatten(t), midLine), t)
    decreases t, 1
  {
    hide EventsPen, Quiet, OneWritten, Marks, MarkIn, PropsPen, CollectionPen, HasTag, Flatten, SettingsIn, IsFlow;
    match t
    case SequenceNode(name, anchor, tag, style, items) =>
      CollectionBegins(p, t, midLine);
      var b := CollectionPen(p, tag, anchor, style, Seq, midLine);
      BegunIsQuiet(p, b, t);
      ItemsWritten(b, items, midLine);
      SequenceWritten(p, b, t, midLine);
    case MapNode(name, anchor, tag, style, items) =>
      CollectionBegins(p, t, midLine);
      var b := CollectionPen(p, tag, anchor, style, Map, midLine);
      BegunIsQuiet(p, b, t);
      PairsWritten(b, items, midLine);
      MapWritten(p, b, t, midLine);
    case _ => LeafTreeWritten(p, t, midLine);
  }

  lemma SequenceWritten(p: Pen, b: Pen, t: Tree, midLine: bool)
    requires t.SequenceNode? && Quiet(p) && b == CollectionPen(p, t.tag, t.anchor, t.style, Seq, midLine) && Begun(p, b, t)
    requires ManyWritten(b, EventsPen(b, FlattenAll(t.items), midLine), |t.items|,
                         SequenceAdds(IsFlow(t, InFlow(p), p.settings, p.globals), 0, t.items, b.settings, b.globals))
    ensures OneWritten(p, EventsPen(p, Flatten(t), midLine), t)
  {
    hide EventsPen, Quiet, OneWritten, ManyWritten, Begun, CollectionPen;
    GroupPen(p, t.name, SequenceStart(t.tag, t.anchor, t.style), t.items, SequenceEnd, midLine);
    CollectionEnds(p, b, EventsPen(b, FlattenAll(t.items), midLine), t);
  }

  lemma MapWritten(p: Pen, b: Pen, t: Tree, midLine: bool)
    requires t.MapNode? && Quiet(p) && b == CollectionPen(p, t.tag, t.anchor, t.style, Map, midLine) && Begun(p, b, t)
    requires ManyWritten(b, EventsPen(b, FlattenAll(t.items), midLine), |t.items|,
                         MapAdds(IsFlow(t, InFlow(p), p.settings, p.globals), 0, t.items, b.settings, b.globals))
    ensures OneWritten(p, EventsPen(p, Flatten(t), midLine), t)
  {
    hide EventsPen, Quiet, OneWritten, ManyWritten, Begun, CollectionPen;
    GroupPen(p, t.name, MapStart(t.tag, t.anchor, t.style), t.items, MapEnd, midLine);
    CollectionEnds(p, b, EventsPen(b, FlattenAll(t.items), midLine), t);
  }

  lemma LeafTreeWritten(p: Pen, t: Tree, midLine: bool)
    requires Quiet(p) && !t.SequenceNode? && !t.MapNode?
    ensures OneWritten(p, EventsPen(p, Flatten(t), midLine), t)
  {
    hide EventsPen, Quiet, OneWritten, PropsPen, ScalarWritten, HasTag, IsLongScalar;
    LeafIs(p, t, midLine);
    match t
    case AliasOf(target) =>
      OnePen(p, "", Alias(target), midLine);
      assert NameEvents("") + [Alias(target)] == [Alias(target)];
      LeafWritten(p, t, false, midLine, midLine);
    case NullNode(name, anchor) =>
      OnePen(p, name, Null(anchor), midLine);
      LeafWritten(p, t, false, midLine, midLine || HasTag("") || anchor != NULL_ANCHOR);
    case ScalarNode(name, anchor, tag, value) =>
      OnePen(p, name, Event.Scalar(tag, anchor, value), midLine);
      LeafWritten(p, t, IsLong(value), midLine, midLine || HasTag(tag) || anchor != NULL_ANCHOR);
  }

  lemma LeafIs(p: Pen, t: Tree, midLine: bool)
    requires !t.SequenceNode? && !t.MapNode?
    ensures t.AliasOf? ==> PropsOf(p, t, midLine) == p && !IsLongScalar(t)
    ensures t.NullNode? ==> !IsLongScalar(t) && TagOf(t) == ""
    ensures t.ScalarNode? ==> IsLongScalar(t) == IsLong(t.value)
  {
  }

  lemma BegunIsQuiet(p: Pen, b: Pen, t: Tree)
    requires (t.SequenceNode? || t.MapNode?) && Begun(p, b, t)
    ensures Quiet(b) && |b.groups| == |p.groups| + 1
    ensures var g := b.groups[|p.groups|]; g.kind == KindOf(t) && g.childCount == 0 && g.flow == IsFlow(t, InFlow(p), p.settings, p.globals)
    ensures b.settings == SettingsIn(p.settings, t.style, p.globals) && b.globals == p.globals && InFlow(b) == b.groups[|p.groups|].flow
  {
    hide Quiet, SettingsIn, IsFlow, MarkIn, Outer;
  }

  lemma {:induction false} ItemsWritten(b: Pen, ts: seq<Tree>, midLine: bool)
    requires Quiet(b) && b.groups != [] && b.groups[|b.groups| - 1].kind == Seq && forall i :: 0 <= i < |ts| ==> Paired(ts[i])
    ensures var g := b.groups[|b.groups| - 1];
            ManyWritten(b, EventsPen(b, FlattenAll(ts), midLine), |ts|, SequenceAdds(g.flow, g.childCount, ts, b.settings, b.globals))
    decreases ts, 0
  {
    hide Quiet, OneWritten, ManyWritten, Marks, Paired, SettingsIn, LeadOf, SequenceAdds, EventsPen, Flatten;
    if ts == [] {
      assert FlattenAll(ts) == [];
      NoEvents(b, midLine);
      NoneAdds(b);
      NoneWritten(b);
    } else {
      PensOn(b, Flatten(ts[0]), FlattenAll(ts[1..]), midLine);
      TreeWritten(b, ts[0], midLine);
      var q := EventsPen(b, Flatten(ts[0]), midLine);
      WrittenIsQuiet(b, q, ts[0]);
      WrittenCounts(b, q, ts[0]);
      ItemsWritten(q, ts[1..], midLine);
      var g, g' := b.groups[|b.groups| - 1], q.groups[|b.groups| - 1];
      OneOfMany(b, q, EventsPen(q, FlattenAll(ts[1..]), midLine), ts[0], |ts| - 1,
                SequenceAdds(g'.flow, g'.childCount, ts[1..], b.settings, b.globals));
      ItemAdds(g, ts, b.settings, b.globals);
    }
  }

  lemma WrittenCounts(p: Pen, q: Pen, t: Tree)
    requires p.groups != [] && OneWritten(p, q, t)
    ensures q.groups != [] && |q.groups| == |p.groups| && q.settings == p.settings && q.globals == p.globals
    ensures var g, g' := p.groups[|p.groups| - 1], q.groups[|p.groups| - 1];
            g'.kind == g.kind && g'.flow == g.flow && g'.childCount == g.childCount + 1
  {
    hide Marks, MarkIn, Outer;
  }

  lemma ItemAdds(g: Group, ts: seq<Tree>, s: Settings, globals: seq<Change>)
    requires ts != [] && g.kind == Seq
    ensures SequenceAdds(g.flow, g.childCount, ts, s, globals) ==
            LeadOf(g, ts[0], s, globals) + Marks(ts[0], g.flow, s, globals) + SequenceAdds(g.flow, g.childCount + 1, ts[1..], s, globals)
  {
    hide Marks, QuestionMark;
    var first, more := Marks(ts[0], g.flow, s, globals), ts[1..];
    if g.flow {
      assert LeadOf(g, ts[0], s, globals) + (first + "") == LeadOf(g, ts[0], s, globals) + first + "";
      assert LeadOf(g, ts[0], s, globals) + (first + ("," + FlowItemMarks(more, s, globals))) ==
             LeadOf(g, ts[0], s, globals) + first + ("," + FlowItemMarks(more, s, globals));
    }
  }

  lemma {:induction false} PairsWritten(b: Pen, ts: seq<Tree>, midLine: bool)
    requires Quiet(b) && b.groups != [] && b.groups[|b.groups| - 1].kind == Map && b.groups[|b.groups| - 1].childCount % 2 == 0
    requires |ts| % 2 == 0 && forall i :: 0 <= i < |ts| ==> Paired(ts[i])
    ensures var g := b.groups[|b.groups| - 1];
            ManyWritten(b, EventsPen(b, FlattenAll(ts), midLine), |ts|, MapAdds(g.flow, g.childCount, ts, b.settings, b.globals))
    decreases ts, 0
  {
    hide Quiet, OneWritten, ManyWritten, Marks, Paired, SettingsIn, LeadOf, MapAdds, EventsPen, Flatten;
    if ts == [] {
      assert FlattenAll(ts) == [];
      NoEvents(b, midLine);
      NoneAdds(b);
      NoneWritten(b);
    } else {
      TwoFlattened(ts);
      PensOn(b, Flatten(ts[0]), Flatten(ts[1]) + FlattenAll(ts[2..]), midLine);
      TreeWritten(b, ts[0], midLine);
      var q := EventsPen(b, Flatten(ts[0]), midLine);
      WrittenIsQuiet(b, q, ts[0]);
      WrittenCounts(b, q, ts[0]);
      PensOn(q, Flatten(ts[1]), FlattenAll(ts[2..]), midLine);
      TreeWritten(q, ts[1], midLine);
      var r := EventsPen(q, Flatten(ts[1]), midLine);
      WrittenIsQuiet(q, r, ts[1]);
      WrittenCounts(q, r, ts[1]);
      PairsWritten(r, ts[2..], midLine);
      var end := EventsPen(r, FlattenAll(ts[2..]), midLine);
      var g, g1, g2 := b.groups[|b.groups| - 1], q.groups[|b.groups| - 1], r.groups[|b.groups| - 1];
      var more := MapAdds(g2.flow, g2.childCount, ts[2..], b.settings, b.globals);
      OneOfMany(q, r, end, ts[1], |ts| - 2, more);
      OneOfMany(b, q, end, ts[0], |ts| - 1,
                LeadOf(g1, ts[1], b.settings, b.globals) + Marks(ts[1], InFlow(q), b.settings, b.globals) + more);
      PairAdds(g, g1, ts, b.settings, b.globals);
    }
  }

  lemma NoEvents(p: Pen, midLine: bool)
    ensures EventsPen(p, [], midLine) == p
  {
  }

  lemma NoneAdds(b: Pen)
    ensures forall flow, count :: MapAdds(flow, count, [], b.settings, b.globals) == ""
    ensures forall flow, count :: SequenceAdds(flow, count, [], b.settings, b.globals) == ""
  {
  }

  lemma TwoFlattened(ts: seq<Tree>)
    requires |ts| >= 2
    ensures FlattenAll(ts) == Flatten(ts[0]) + (Flatten(ts[1]) + FlattenAll(ts[2..]))
  {
    hide Flatten;
    assert ts[1..][0] == ts[1] && ts[1..][1..] == ts[2..];
    assert FlattenAll(ts[1..]) == Flatten(ts[1]) + FlattenAll(ts[2..]);
  }

  lemma PairAdds(g: Group, g1: Group, ts: seq<Tree>, s: Settings, globals: seq<Change>)
    requires |ts| >= 2 && |ts| % 2 == 0 && g.kind == Map && g.childCount % 2 == 0
    requires g1.kind == g.kind && g1.flow == g.flow && g1.childCount == g.childCount + 1
    ensures MapAdds(g.flow, g.childCount, ts, s, globals) ==
            LeadOf(g, ts[0], s, globals) + Marks(ts[0], g.flow, s, globals) +
            (LeadOf(g1, ts[1], s, globals) + Marks(ts[1], g.flow, s, globals) + MapAdds(g.flow, g.childCount + 2, ts[2..], s, globals))
  {
    hide Marks, QuestionMark;
    var mark := if !g.flow then "" else if g.childCount == 0 then "{" else ",";
    var key, value, more := Marks(ts[0], g.flow, s, globals), Marks(ts[1], g.flow, s, globals), MapAdds(g.flow, g.childCount + 2, ts[2..], s, globals);
    PairText(mark, QuestionMark(ts[0], g.flow, s, globals), key, value, more);
    hide FlowPairMarks, BlockPairMarks;
    PairMarks(g, ts, s, globals);
  }

  lemma PairText(mark: string, question: string, key: string, value: string, more: string)
    ensures mark + (question + key + ":" + value + more) == mark + question + key + (":" + value + more)
    ensures "" + (question + key + ":" + value + more) == question + key + ":" + value + more
  {
  }

  lemma PairMarks(g: Group, ts: seq<Tree>, s: Settings, globals: seq<Change>)
    requires |ts| >= 2 && |ts| % 2 == 0
    ensures var more := MapAdds(g.flow, g.childCount + 2, ts[2..], s, globals);
            var body := QuestionMark(ts[0], g.flow, s, globals) + Marks(ts[0], g.flow, s, globals) + ":" + Marks(ts[1], g.flow, s, globals) + more;
            (if g.flow then FlowPairMarks(ts, s, globals) else BlockPairMarks(ts, s, globals)) == body
  {
    hide Marks, QuestionMark;
    if |ts| == 2 {
      assert ts[2..] == [];
    }
  }

  /** Its last mark ends a collection, and the settings are what they were. */
  lemma CollectionEnds(p: Pen, b: Pen, q: Pen, t: Tree)
    requires (t.SequenceNode? || t.MapNode?) && Quiet(p) && Begun(p, b, t)
    requires var flow := IsFlow(t, InFlow(p), p.settings, p.globals);
             ManyWritten(b, q, |t.items|, if t.SequenceNode? then SequenceAdds(flow, 0, t.items, b.settings, b.globals)
                                          else MapAdds(flow, 0, t.items, b.settings, b.globals))
    ensures OneWritten(p, PenAfter(q, End(KindOf(t)), false), t)
  {
    StyleIsUndone(p.settings, t.style, p.globals);
    AllMarks(p, b, q, t);
    hide Restored, SettingsIn, StyleChanges, IsFlow, Marks, SequenceAdds, MapAdds, MarkIn, Ending;
  }

  lemma AllMarks(p: Pen, b: Pen, q: Pen, t: Tree)
    requires (t.SequenceNode? || t.MapNode?) && Quiet(p) && Begun(p, b, t)
    requires var flow := IsFlow(t, InFlow(p), p.settings, p.globals);
             ManyWritten(b, q, |t.items|, if t.SequenceNode? then SequenceAdds(flow, 0, t.items, b.settings, b.globals)
                                          else MapAdds(flow, 0, t.items, b.settings, b.globals))
    ensures q.groups != [] && !q.anchor && !q.tag && !q.other
    ensures q.out + Ending(q.groups[|q.groups| - 1], false) == p.out + (MarkIn(p, t) + Marks(t, InFlow(p), p.settings, p.globals))
  {
    hide Restored, SettingsIn, StyleChanges, IsFlow, MarkIn, FlowItemMarks, FlowPairMarks, BlockItemMarks, BlockPairMarks;
    var flow := IsFlow(t, InFlow(p), p.settings, p.globals);
    var adds := if t.SequenceNode? then SequenceAdds(flow, 0, t.items, b.settings, b.globals) else MapAdds(flow, 0, t.items, b.settings, b.globals);
    var end := Ending(q.groups[|q.groups| - 1], false);
    CollectionMarks(t, flow, q.groups[|q.groups| - 1], p, b);
    hide SequenceAdds, MapAdds, Marks, Ending;
    Regrouped(p.out, MarkIn(p, t), adds, end);
  }

  lemma Regrouped(a: string, b: string, c: string, d: string)
    ensures a + b + c + d == a + (b + (c + d))
  {
  }

  lemma CollectionMarks(t: Tree, flow: bool, g: Group, p: Pen, b: Pen)
    requires (t.SequenceNode? || t.MapNode?) && flow == IsFlow(t, InFlow(p), p.settings, p.globals)
    requires g.kind == KindOf(t) && g.flow == flow && g.childCount == |t.items|
    requires b.settings == SettingsIn(p.settings, t.style, p.globals) && b.globals == p.globals
    ensures var adds := if t.SequenceNode? then SequenceAdds(flow, 0, t.items, b.settings, b.globals) else MapAdds(flow, 0, t.items, b.settings, b.globals);
            adds + Ending(g, false) == Marks(t, InFlow(p), p.settings, p.globals)
  {
    hide SettingsIn, IsFlow, FlowItemMarks, FlowPairMarks, BlockItemMarks, BlockPairMarks;
    var inner := b.settings;
    if t.items == [] {
      assert "" + Ending(g, false) == Ending(g, false);
      assert "[" + "]" == "[]" && "{" + "}" == "{}";
    }
  }
}
