/**
 * The emitter's groups and the punctuation it writes for them. The output kept here is the structural
 * punctuation alone: white space, document markers and the text of scalars, properties and comments are not
 * in it. Whether the output stream stands in mid line is a parameter.
 */
module Emitting {
  datatype Kind = Seq | Map

  datatype NodeType = NoType | Property | Scalar | FlowSeq | BlockSeq | FlowMap | BlockMap

  datatype Settings = Settings(seqFlow: bool, mapFlow: bool, longKeys: bool, indent: nat)

  /** A setting that was changed, with what it was before. */
  datatype Change = SeqFlowWas(flow: bool) | MapFlowWas(flow: bool) | LongKeysWas(long: bool) | IndentWas(indent: nat)

  /** `changes` are the local changes of settings that last until the group's end. */
  datatype Group = Group(kind: Kind, flow: bool, indent: nat, childCount: nat, longKey: bool, changes: seq<Change>)

  // Settings

  function Undone(s: Settings, c: Change): Settings {
    match c
    case SeqFlowWas(flow) => s.(seqFlow := flow)
    case MapFlowWas(flow) => s.(mapFlow := flow)
    case LongKeysWas(long) => s.(longKeys := long)
    case IndentWas(indent) => s.(indent := indent)
  }

  /** The changes are undone in the order they were made. */
  function Restored(s: Settings, changes: seq<Change>): Settings
    decreases |changes|
  {
    if changes == [] then s else Restored(Undone(s, changes[0]), changes[1..])
  }

  lemma {:induction false} RestoredOn(s: Settings, a: seq<Change>, b: seq<Change>)
    ensures Restored(s, a + b) == Restored(Restored(s, a), b)
    decreases |a|
  {
    if a == [] {
      assert a + b == b;
    } else {
      assert (a + b)[1..] == a[1..] + b;
      RestoredOn(Undone(s, a[0]), a[1..], b);
    }
  }

  /** A manipulator that sets a format for the next node, or for the next collection and what is in it. */
  datatype Manip = UseFlow | UseBlock | UseLongKeys | UseAutoKeys | UseIndent(n: nat)

  /** A setting of the emitter as a whole. */
  datatype Global = SeqFormat(flow: bool) | MapFormat(flow: bool) | KeyFormat(long: bool) | IndentFormat(n: nat)

  function LocallySet(s: Settings, m: Manip): Settings {
    match m
    case UseFlow => s.(seqFlow := true, mapFlow := true)
    case UseBlock => s.(seqFlow := false, mapFlow := false)
    case UseLongKeys => s.(longKeys := true)
    case UseAutoKeys => s.(longKeys := false)
    case UseIndent(n) => if n <= 1 then s else s.(indent := n)
  }

  function ChangesOf(s: Settings, m: Manip): seq<Change> {
    match m
    case UseFlow => [SeqFlowWas(s.seqFlow), MapFlowWas(s.mapFlow)]
    case UseBlock => [SeqFlowWas(s.seqFlow), MapFlowWas(s.mapFlow)]
    case UseLongKeys => [LongKeysWas(s.longKeys)]
    case UseAutoKeys => [LongKeysWas(s.longKeys)]
    case UseIndent(n) => if n <= 1 then [] else [IndentWas(s.indent)]
  }

  /** What a setting of the emitter is kept as: a change that was none. */
  function Kept(g: Global): seq<Change> {
    match g
    case SeqFormat(flow) => [SeqFlowWas(flow)]
    case MapFormat(flow) => [MapFlowWas(flow)]
    case KeyFormat(long) => [LongKeysWas(long)]
    case IndentFormat(n) => if n <= 1 then [] else [IndentWas(n)]
  }

  /** Undoing what was set once gives the settings back. */
  lemma SetAndRestored(s: Settings, m: Manip)
    ensures Restored(LocallySet(s, m), ChangesOf(s, m)) == s
  {
    var c := ChangesOf(s, m);
    if |c| == 2 {
      TwoUndone(s, c[0], c[1]);
      TwoUndone(LocallySet(s, m), c[0], c[1]);
    } else if |c| == 1 {
      OneUndone(LocallySet(s, m), c[0]);
    }
  }

  lemma OneUndone(s: Settings, c: Change)
    ensures Restored(s, [c]) == Undone(s, c)
  {
    assert [c][1..] == [];
  }

  lemma TwoUndone(s: Settings, a: Change, b: Change)
    ensures Restored(s, [a, b]) == Undone(Undone(s, a), b)
  {
    OneUndone(Undone(s, a), b);
    assert [a, b][1..] == [b];
  }

  /**
   * What was set twice is not given back: changes are undone in the order they were made, so that the last one
   * brings back what the first had set.
   */
  lemma SetTwice(s: Settings, first: Manip, second: Manip)
    requires first in {UseFlow, UseBlock} && second in {UseFlow, UseBlock}
    ensures var s1 := LocallySet(s, first);
            var end := Restored(LocallySet(s1, second), ChangesOf(s, first) + ChangesOf(s1, second));
            end == s1 && (end == s <==> LocallySet(s, first) == s)
  {
    var s1 := LocallySet(s, first);
    var a, b := ChangesOf(s, first), ChangesOf(s1, second);
    RestoredOn(LocallySet(s1, second), a, b);
    TwoUndone(LocallySet(s1, second), a[0], a[1]);
    TwoUndone(s, b[0], b[1]);
  }

  // Brackets

  /** An open bracket, with the commas and colons that stand directly inside it so far. */
  datatype Level = Level(kind: Kind, commas: nat, colons: nat)

  datatype Brackets = Mismatched | Open(levels: seq<Level>)

  function After(open: seq<Level>, c: char): Brackets {
    if c == '[' then Open(open + [Level(Seq, 0, 0)])
    else if c == '{' then Open(open + [Level(Map, 0, 0)])
    else if open == [] then if c == ']' || c == '}' then Mismatched else Open(open)
    else
      var last := |open| - 1;
      if c == ']' || c == '}' then
        if open[last].kind == (if c == ']' then Seq else Map) then Open(open[..last]) else Mismatched
      else if c == ',' then Open(open[last := open[last].(commas := open[last].commas + 1)])
      else if c == ':' then Open(open[last := open[last].(colons := open[last].colons + 1)])
      else Open(open)
  }

  /** The brackets still open after the whole output. */
  function Unclosed(out: string): Brackets {
    if out == "" then Open([])
    else
      match Unclosed(out[..|out| - 1])
      case Mismatched => Mismatched
      case Open(open) => After(open, out[|out| - 1])
  }

  /** How many pairs have been closed. */
  function Pairs(out: string): nat {
    if out == "" then 0
    else Pairs(out[..|out| - 1]) + (if out[|out| - 1] == ']' || out[|out| - 1] == '}' then 1 else 0)
  }

  function Openings(out: string): nat {
    if out == "" then 0
    else Openings(out[..|out| - 1]) + (if out[|out| - 1] == '[' || out[|out| - 1] == '{' then 1 else 0)
  }

  lemma WriteOne(out: string, c: char)
    requires Unclosed(out).Open?
    ensures Unclosed(out + [c]) == After(Unclosed(out).levels, c)
    ensures Pairs(out + [c]) == Pairs(out) + (if c == ']' || c == '}' then 1 else 0)
  {
    assert (out + [c])[..|out|] == out;
  }

  /** Every bracket that was opened is closed or still open. */
  lemma {:induction false} OpenedAndClosed(out: string)
    requires Unclosed(out).Open?
    ensures Openings(out) == Pairs(out) + |Unclosed(out).levels|
  {
    if out != "" {
      OpenedAndClosed(out[..|out| - 1]);
    }
  }

  // Groups

  function Bracket(kind: Kind): char {
    if kind == Seq then '[' else '{'
  }

  /**
   * What a flow group with n nodes has written of its own: nothing before its first node; then its bracket, a
   * comma in front of every entry but the first, and in a map a colon in front of every value.
   */
  function Own(g: Group, n: nat): seq<Level> {
    if !g.flow || n == 0 then []
    else if g.kind == Seq then [Level(Seq, n - 1, 0)]
    else [Level(Map, (n - 1) / 2, n / 2)]
  }

  /** The nodes of a group, one more when the next has begun. */
  function NodesOf(g: Group, begun: bool): nat {
    g.childCount + if begun then 1 else 0
  }

  /** The brackets a stack of groups has open. */
  function OpenOf(groups: seq<Group>, begun: bool): seq<Level> {
    if groups == [] then []
    else
      var last := |groups| - 1;
      OpenOf(groups[..last], false) + Own(groups[last], NodesOf(groups[last], begun))
  }

  function Indents(groups: seq<Group>): nat {
    if groups == [] then 0 else Indents(groups[..|groups| - 1]) + groups[|groups| - 1].indent
  }

  /** The groups around the innermost one. */
  function Outer(groups: seq<Group>): seq<Group> {
    if groups == [] then [] else groups[..|groups| - 1]
  }

  predicate GroupsOk(groups: seq<Group>) {
    && (forall i :: 0 <= i < |groups| - 1 ==> (groups[i].flow ==> groups[i + 1].flow) && groups[i].childCount > 0)
    && (forall i :: 0 <= i < |groups| && groups[i].longKey ==> groups[i].kind == Map)
  }

  function TypeOf(g: Group): NodeType {
    if g.kind == Seq then if g.flow then FlowSeq else BlockSeq else if g.flow then FlowMap else BlockMap
  }

  // What is written

  datatype Pen = Pen(
    groups: seq<Group>, docs: nat, anchor: bool, tag: bool, other: bool, settings: Settings, modified: seq<Change>,
    globals: seq<Change>, out: string)

  function NewPen(settings: Settings): Pen {
    Pen([], 0, false, false, false, settings, [], [], "")
  }

  /** In front of a key, whether it is marked as a long one. */
  function Marked(g: Group, child: NodeType, longKeys: bool): Group {
    if g.kind == Map && g.childCount % 2 == 0 &&
       (longKeys || (!g.flow && (child == BlockSeq || child == BlockMap || child == Property)))
    then g.(longKey := true)
    else g
  }

  /** What is written in front of a node, whose properties or comments may have been written before. */
  function Lead(g: Group, child: NodeType, hasProps: bool, hasBegun: bool): string {
    if g.flow then
      if hasBegun then ""
      else if g.kind == Seq then if g.childCount == 0 then "[" else ","
      else if g.childCount % 2 == 1 then ":"
      else (if g.childCount == 0 then "{" else ",") + (if g.longKey then "?" else "")
    else if g.kind == Seq then if child == NoType || hasProps then "" else "-"
    else if g.childCount % 2 == 0 then if g.longKey && child != NoType && !hasProps then "?" else ""
    else if g.longKey then if child != NoType && !hasProps then ":" else ""
    else if hasBegun then ""
    else ":"
  }

  function Prepared(p: Pen, child: NodeType, midLine: bool): Pen {
    if p.groups == [] then
      if child != NoType && p.docs > 0 && midLine then p.(anchor := false, tag := false, other := false) else p
    else
      var last := |p.groups| - 1;
      var g := Marked(p.groups[last], child, p.settings.longKeys);
      p.(groups := p.groups[last := g], out := p.out + Lead(g, child, p.anchor || p.tag, p.anchor || p.tag || p.other))
  }

  /** Only the innermost group may change, and of it only the mark of its key. */
  lemma PreparedKeeps(p: Pen, child: NodeType, midLine: bool)
    ensures var q := Prepared(p, child, midLine);
            && q == p.(groups := q.groups, anchor := q.anchor, tag := q.tag, other := q.other, out := q.out)
            && |q.groups| == |p.groups| && Outer(q.groups) == Outer(p.groups)
            && (p.groups != [] ==>
                  var last := |p.groups| - 1;
                  q.groups == p.groups[last := q.groups[last]] && q.groups[last] == p.groups[last].(longKey := q.groups[last].longKey))
  {
    hide Lead;
  }

  lemma PreparedIs(p: Pen, q: Pen, child: NodeType, midLine: bool)
    ensures p.groups == [] ==>
              Prepared(p, child, midLine) == if child != NoType && p.docs > 0 && midLine then p.(anchor := false, tag := false, other := false) else p
    ensures p.groups != [] && |q.groups| == |p.groups| ==>
              var last := |p.groups| - 1;
              var was, now := p.groups[last], q.groups[last];
              && q == p.(groups := p.groups[last := now], out := q.out)
              && (if was.kind == Seq then now == was else now == Marked(was, child, p.settings.longKeys))
              && q.out == p.out + Lead(now, child, p.anchor || p.tag, p.anchor || p.tag || p.other) ==>
              q == Prepared(p, child, midLine)
  {
    hide Lead;
  }

  lemma OuterOfMore(groups: seq<Group>, g: Group)
    ensures Outer(groups + [g]) == groups
  {
  }

  /** One node more. */
  function OnePast(p: Pen): Pen {
    p.(groups := Counted(p.groups), docs := if p.groups == [] then p.docs + 1 else p.docs, anchor := false, tag := false, other := false)
  }

  function LocalSet(p: Pen, m: Manip): Pen {
    p.(settings := LocallySet(p.settings, m), modified := p.modified + ChangesOf(p.settings, m))
  }

  function GlobalSet(p: Pen, g: Global): Pen {
    p.(settings := Restored(p.settings, Kept(g)), globals := p.globals + Kept(g))
  }

  /** A scalar or an alias; a long or literal string asks for a long key. */
  function ScalarWritten(p: Pen, long: bool, midLine: bool): Pen {
    var q := OnePast(Prepared(if long then LocalSet(p, UseLongKeys) else p, Scalar, midLine));
    q.(settings := Restored(q.settings, q.modified), modified := [])
  }

  lemma ScalarAdds(p: Pen, long: bool, midLine: bool)
    ensures var q := ScalarWritten(p, long, midLine);
            && |q.groups| == |p.groups| && Outer(q.groups) == Outer(p.groups)
            && q.docs == p.docs + (if q.groups == [] then 1 else 0)
            && (p.groups != [] ==>
                  var last := |p.groups| - 1;
                  q.groups[last] == p.groups[last].(childCount := p.groups[last].childCount + 1, longKey := q.groups[last].longKey))
  {
    hide Restored, Prepared, Counted, Outer;
    var p1 := if long then LocalSet(p, UseLongKeys) else p;
    PreparedKeeps(p1, Scalar, midLine);
    CountedIs(Prepared(p1, Scalar, midLine).groups);
  }

  /** The style of a collection that begins now. */
  predicate BeginsFlow(p: Pen, kind: Kind) {
    (p.groups != [] && p.groups[|p.groups| - 1].flow) || (if kind == Seq then p.settings.seqFlow else p.settings.mapFlow)
  }

  function GroupBegun(p: Pen, kind: Kind, midLine: bool): Pen {
    var g := Group(kind, BeginsFlow(p, kind), p.settings.indent, 0, false, p.modified);
    var q := OnePast(Prepared(p, TypeOf(g), midLine));
    q.(groups := q.groups + [g], modified := [])
  }

  /** A group that is flow or empty ends with its bracket; one that was to be block, or has nothing in it yet, begins with it too. */
  function Ending(g: Group, hasBegun: bool): string {
    if !g.flow && g.childCount > 0 then ""
    else (if !g.flow || (g.childCount == 0 && !hasBegun) then [Bracket(g.kind)] else "") + [if g.kind == Seq then ']' else '}']
  }

  function GroupEnded(p: Pen): Pen
    requires p.groups != []
  {
    var g := p.groups[|p.groups| - 1];
    p.(groups := Outer(p.groups), anchor := false, tag := false, other := false,
       settings := Restored(Restored(Restored(p.settings, g.changes), p.globals), p.modified), modified := [],
       out := p.out + Ending(g, p.anchor || p.tag || p.other))
  }

  /** The bracket is written first, and only then the group is left. */
  lemma ClosedEnds(p: Pen, q: Pen)
    requires p.groups != [] && |q.groups| == |p.groups| && q == p.(groups := q.groups, out := q.out) && Outer(q.groups) == Outer(p.groups)
    requires var last := |p.groups| - 1; q.groups[last] == p.groups[last].(flow := q.groups[last].flow)
    requires q.out == p.out + Ending(p.groups[|p.groups| - 1], p.anchor || p.tag || p.other)
    ensures GroupEnded(q).(out := q.out) == GroupEnded(p)
  {
    hide Ending, Restored;
  }

  lemma LeftIs(p: Pen, q: Pen)
    requires p.groups != [] && q == p.(groups := p.groups[..|p.groups| - 1], anchor := false, tag := false, other := false,
                                       settings := q.settings, modified := [])
    requires q.settings == Restored(Restored(Restored(p.settings, p.groups[|p.groups| - 1].changes), p.globals), p.modified)
    ensures q == GroupEnded(p).(out := q.out)
  {
    hide Restored, Ending;
  }

  class Emitter {
    var isGood: bool
    var groups: seq<Group>
    var curIndent: nat
    var hasAnchor: bool
    var hasAlias: bool
    var hasTag: bool
    var hasNonContent: bool
    var docCount: nat
    var settings: Settings
    /** The local changes since the last node, and the changes of the emitter as a whole. */
    var modified: seq<Change>
    var globals: seq<Change>
    var out: string
    /** The collections ended so far that are flow or empty. */
    ghost var flowCollections: nat

    predicate HasBegunNode()
      reads this
    {
      hasAnchor || hasTag || hasNonContent
    }

    predicate HasBegunContent()
      reads this
    {
      hasAnchor || hasTag
    }

    /** What holds as long as the emitter is good. */
    ghost predicate Valid()
      reads this
    {
      isGood ==>
        && GroupsOk(groups) && curIndent == Indents(Outer(groups))
        && Unclosed(out) == Open(OpenOf(groups, HasBegunNode())) && Pairs(out) == flowCollections
    }

    constructor (settings: Settings)
      ensures Valid() && isGood && !hasAlias && flowCollections == 0 && AsPen() == NewPen(settings)
    {
      isGood, groups, curIndent := true, [], 0;
      hasAnchor, hasAlias, hasTag, hasNonContent, docCount := false, false, false, false, 0;
      this.settings, modified, globals := settings, [], [];
      out, flowCollections := "", 0;
    }

    /** All that decides what is written next. */
    function AsPen(): Pen
      reads this
    {
      Pen(groups, docCount, hasAnchor, hasTag, hasNonContent, settings, modified, globals, out)
    }

    function Top(): Group
      requires groups != []
      reads this
    {
      groups[|groups| - 1]
    }

    function CurGroupNodeType(): NodeType
      reads this
    {
      if groups == [] then NoType else TypeOf(Top())
    }

    function ChildCount(): nat
      reads this
    {
      if groups == [] then docCount else Top().childCount
    }

    predicate InFlow()
      reads this
    {
      groups != [] && Top().flow
    }

    /** Flow style is forced inside a flow. */
    predicate IsFlowType(kind: Kind)
      reads this
    {
      InFlow() || (if kind == Seq then settings.seqFlow else settings.mapFlow)
    }

    function NextGroupType(kind: Kind): NodeType
      reads this
    {
      TypeOf(Group(kind, IsFlowType(kind), 0, 0, false, []))
    }

    /** The indents around the group around the innermost one; the subtraction stays above 0. */
    function LastIndent(): (indent: nat)
      requires curIndent == Indents(Outer(groups))
      reads this
      ensures indent == Indents(Outer(Outer(groups)))
    {
      if |groups| <= 1 then 0
      else
        assert Outer(groups)[..|groups| - 2] == groups[..|groups| - 2];
        curIndent - groups[|groups| - 2].indent
    }

    method SetError()
      modifies this`isGood
      ensures !isGood
    {
      isGood := false;
    }

    method StartedNode()
      modifies this`groups, this`docCount, this`hasAnchor, this`hasAlias, this`hasTag, this`hasNonContent
      ensures !HasBegunNode() && !hasAlias
      ensures groups == Counted(old(groups)) && docCount == old(docCount) + (if groups == [] then 1 else 0)
    {
      if groups == [] {
        docCount := docCount + 1;
      } else {
        var last := |groups| - 1;
        groups := groups[last := groups[last].(childCount := groups[last].childCount + 1)];
        if groups[last].childCount % 2 == 0 {
          groups := groups[last := groups[last].(longKey := false)];
        }
      }
      hasAnchor, hasAlias, hasTag, hasNonContent := false, false, false, false;
    }

    /** What holds between the preparation for a node and the node. */
    ghost predicate Ready()
      reads this
    {
      isGood ==>
        && GroupsOk(groups) && curIndent == Indents(Outer(groups))
        && Unclosed(out) == Open(OpenOf(groups, true)) && Pairs(out) == flowCollections
    }

    /** SettingChanges::restore. */
    method Restore(changes: seq<Change>)
      modifies this`settings
      ensures settings == Restored(old(settings), changes)
    {
      for i := 0 to |changes|
        invariant Restored(settings, changes[i..]) == Restored(old(settings), changes)
      {
        assert changes[i..][1..] == changes[i + 1..];
        settings := Undone(settings, changes[i]);
      }
    }

    method ClearModifiedSettings()
      modifies this`settings, this`modified
      ensures settings == Restored(old(settings), old(modified)) && modified == []
    {
      Restore(modified);
      modified := [];
    }

    method StartedScalar()
      requires Ready()
      modifies this`groups, this`docCount, this`hasAnchor, this`hasAlias, this`hasTag, this`hasNonContent, this`settings, this`modified
      ensures Valid() && !hasAlias
      ensures AsPen() == OnePast(old(AsPen())).(settings := Restored(old(settings), old(modified)), modified := [])
    {
      CountedKeeps(groups);
      CountedIs(groups);
      hide Counted, Restored, Unclosed, Pairs, OpenOf, Indents, GroupsOk;
      StartedNode();
      ClearModifiedSettings();
    }

    /** StartedGroup: the new group keeps the local changes until its end; its style is what the preparation was told. */
    method StartedGroup(kind: Kind)
      requires Ready()
      modifies this
      ensures Valid() && isGood == old(isGood) && !hasAlias && flowCollections == old(flowCollections)
      ensures groups == Counted(old(groups)) + [Group(kind, old(IsFlowType(kind)), settings.indent, 0, false, old(modified))]
      ensures AsPen() == OnePast(old(AsPen())).(groups := groups, modified := [])
    {
      hide Unclosed, Pairs, OpenOf, Indents, GroupsOk, After, Own, Outer;
      CountedKeeps(groups);
      if isGood {
        GroupAdded(groups, Group(kind, IsFlowType(kind), settings.indent, 0, false, modified));
      }
      CountedTop(groups);
      hide Counted;
      StartedNode();
      curIndent := curIndent + if groups == [] then 0 else groups[|groups| - 1].indent;
      groups := groups + [Group(kind, IsFlowType(kind), settings.indent, 0, false, modified)];
      modified := [];
    }

    /** EndedGroup: an error if no group, or one of the other kind, was begun, or a property has no node. */
    method EndedGroup(kind: Kind)
      requires isGood && (groups != [] && Top().kind == kind ==> Closed())
      modifies this
      ensures Valid()
      ensures isGood <==> old(groups != [] && !hasTag && !hasAnchor && Top().kind == kind)
      ensures out == old(out) && (isGood ==> AsPen() == GroupEnded(old(AsPen())).(out := out))
    {
      hide Unclosed, Pairs, OpenOf, Indents, GroupsOk, Restored, Ending, Own, GroupEnded;
      ghost var p := AsPen();
      if groups == [] {
        SetError();
        return;
      }
      if hasTag {
        SetError();
      }
      if hasAnchor {
        SetError();
      }
      var finished := Top();
      groups := groups[..|groups| - 1];
      Restore(finished.changes);
      if finished.kind != kind {
        SetError();
        return;
      }
      OuterGroups(old(groups));
      LeaveGroup();
      LeftIs(p, AsPen());
    }

    /** Back to the indent around the group that was popped, and to the settings that are not its own. */
    method LeaveGroup()
      requires curIndent >= if groups == [] then 0 else Top().indent
      modifies this`curIndent, this`settings, this`modified, this`hasAnchor, this`hasTag, this`hasNonContent
      ensures curIndent == old(curIndent) - (if groups == [] then 0 else Top().indent)
      ensures settings == Restored(Restored(old(settings), globals), old(modified)) && modified == [] && !HasBegunNode()
    {
      hide Restored;
      var lastIndent := if groups == [] then 0 else groups[|groups| - 1].indent;
      assert curIndent >= lastIndent;
      curIndent := curIndent - lastIndent;
      Restore(globals);
      ClearModifiedSettings();
      hasAnchor, hasTag, hasNonContent := false, false, false;
    }

    /** The innermost group is written to its end. */
    ghost predicate Closed()
      reads this
    {
      && groups != [] && GroupsOk(groups) && curIndent == Indents(Outer(groups))
      && Unclosed(out) == Open(OpenOf(Outer(groups), false)) && Pairs(out) == flowCollections
    }

    // Preparing for a node

    /** Punctuation that is no bracket. */
    method Put(mark: char)
      requires mark !in "[]{}"
      modifies this`out
      ensures out == old(out) + [mark]
      ensures old(Unclosed(out)).Open? ==>
                Unclosed(out) == After(old(Unclosed(out)).levels, mark) && Pairs(out) == old(Pairs(out))
    {
      if Unclosed(out).Open? {
        WriteOne(out, mark);
      }
      out := out + [mark];
    }

    method PutBracket(kind: Kind)
      modifies this`out
      ensures out == old(out) + [Bracket(kind)]
      ensures old(Unclosed(out)).Open? ==>
                Unclosed(out) == Open(old(Unclosed(out)).levels + [Level(kind, 0, 0)]) && Pairs(out) == old(Pairs(out))
    {
      if Unclosed(out).Open? {
        WriteOne(out, Bracket(kind));
      }
      out := out + [Bracket(kind)];
    }

    predicate Fits(child: NodeType)
      reads this
    {
      InFlow() ==> child != BlockSeq && child != BlockMap
    }

    /**
     * A document begins by itself in front of the next node, although the node has a property already: the code
     * asks whether the stream stands in mid line, and takes the property for the rest of the document before.
     */
    predicate CutsOff(midLine: bool)
      reads this
    {
      groups == [] && docCount > 0 && midLine && HasBegunContent()
    }

    /** A document begins by itself in front of this node. */
    predicate NewDoc(midLine: bool)
      reads this
    {
      groups == [] && docCount > 0 && midLine
    }

    /** Nothing but the punctuation and the mark of a key changes; a new document drops what was marked as begun. */
    method PrepareNode(child: NodeType, midLine: bool)
      requires isGood && Valid() && Fits(child)
      modifies this`groups, this`out, this`isGood, this`hasAnchor, this`hasTag, this`hasNonContent
      ensures Ready()
      ensures isGood <==> child == NoType || !old(CutsOff(midLine))
      ensures hasAnchor == old(hasAnchor) && hasTag == old(hasTag)
      ensures isGood ==> AsPen() == Prepared(old(AsPen()), child, midLine)
    {
      hide Unclosed, Pairs, OpenOf, Indents, GroupsOk, Lead, Marked, Prepared;
      ghost var p := AsPen();
      match CurGroupNodeType() {
        case NoType => PrepareTopNode(child, midLine);
        case FlowSeq => FlowSeqPrepareNode(child);
        case BlockSeq => BlockSeqPrepareNode(child);
        case FlowMap => FlowMapPrepareNode(child);
        case BlockMap => BlockMapPrepareNode(child);
        case Property => assert false;
        case Scalar => assert false;
      }
      PreparedIs(p, AsPen(), child, midLine);
    }

    /** In the document a second node brings a marker with it; a property may not come between. */
    method PrepareTopNode(child: NodeType, midLine: bool)
      requires isGood && Valid() && groups == []
      modifies this`isGood, this`hasAnchor, this`hasTag, this`hasNonContent
      ensures Ready()
      ensures isGood <==> child == NoType || !old(CutsOff(midLine))
      ensures hasAnchor == old(hasAnchor) && hasTag == old(hasTag)
      ensures isGood ==> hasNonContent == (old(hasNonContent) && (child == NoType || !old(NewDoc(midLine))))
    {
      if child == NoType {
        return;
      }
      if docCount > 0 && midLine {
        BeginDoc();
      }
    }

    method FlowSeqPrepareNode(child: NodeType)
      requires isGood && Valid() && groups != [] && Top().flow && Top().kind == Seq && Fits(child)
      modifies this`out
      ensures Ready() && out == old(out) + Lead(Top(), child, HasBegunContent(), HasBegunNode())
    {
      hide Unclosed, Pairs, OpenOf, Indents, GroupsOk, After, Own;
      OpenedBy(groups, HasBegunNode());
      NextMark(OpenOf(Outer(groups), false), Top(), Top().childCount);
      if !HasBegunNode() {
        if ChildCount() == 0 {
          PutBracket(Seq);
        } else {
          Put(',');
        }
      }
      FlowChild(child);
    }

    /** The switch at the end of each flow preparation: its assertion never fails. */
    method FlowChild(child: NodeType)
      requires child != BlockSeq && child != BlockMap
    {
      match child {
        case BlockSeq => assert false;
        case BlockMap => assert false;
        case _ =>
      }
    }

    method BlockSeqPrepareNode(child: NodeType)
      requires isGood && Valid() && groups != [] && !Top().flow && Top().kind == Seq
      modifies this`out
      ensures Ready() && out == old(out) + Lead(Top(), child, HasBegunContent(), HasBegunNode())
    {
      hide Unclosed, Pairs, OpenOf, Indents, GroupsOk, After;
      OpenedBy(groups, HasBegunNode());
      OtherMark([], '-');
      if child == NoType {
        return;
      }
      if !HasBegunContent() {
        Put('-');
      }
    }

    /** The key gets a question mark; nothing else changes. */
    method SetLongKey()
      requires isGood && Valid() && groups != [] && Top().kind == Map
      modifies this`groups
      ensures Valid() && Outer(groups) == Outer(old(groups))
      ensures groups == old(groups)[|old(groups)| - 1 := old(Top()).(longKey := true)]
    {
      hide Unclosed, Pairs, Indents;
      var last := |groups| - 1;
      assert groups[..last] == groups[last := Top().(longKey := true)][..last];
      groups := groups[last := Top().(longKey := true)];
    }

    /** The innermost group is as it was, but for the question mark of its key. */
    twostate predicate SameGroups()
      reads this
    {
      && old(groups) != [] && |groups| == |old(groups)| && Outer(groups) == Outer(old(groups))
      && groups == old(groups)[|groups| - 1 := Top()] && Top() == old(Top()).(longKey := Top().longKey)
    }

    method FlowMapPrepareNode(child: NodeType)
      requires isGood && Valid() && groups != [] && Top().flow && Top().kind == Map && Fits(child)
      modifies this`out, this`groups
      ensures Ready() && SameGroups() && Top() == Marked(old(Top()), child, settings.longKeys)
      ensures out == old(out) + Lead(Top(), child, HasBegunContent(), HasBegunNode())
    {
      hide Unclosed, Pairs, OpenOf, Indents, GroupsOk;
      if ChildCount() % 2 == 0 {
        if settings.longKeys {
          SetLongKey();
        }
        if Top().longKey {
          FlowMapPrepareLongKey(child);
        } else {
          FlowMapPrepareSimpleKey(child);
        }
      } else {
        FlowMapPrepareValue(child);
      }
    }

    /** The value of a long key and that of a simple one differ in white space only. */
    method FlowMapPrepareValue(child: NodeType)
      requires isGood && Valid() && groups != [] && Top().flow && Top().kind == Map && Fits(child) && ChildCount() % 2 == 1
      modifies this`out
      ensures Ready() && out == old(out) + (if HasBegunNode() then "" else ":")
    {
      hide Unclosed, Pairs, OpenOf, Indents, GroupsOk, After, Own;
      OpenedBy(groups, HasBegunNode());
      NextMark(OpenOf(Outer(groups), false), Top(), Top().childCount);
      if !HasBegunNode() {
        Put(':');
      }
      FlowChild(child);
    }

    method FlowMapPrepareLongKey(child: NodeType)
      requires isGood && Valid() && groups != [] && Top().flow && Top().kind == Map && Fits(child) && ChildCount() % 2 == 0
      modifies this`out
      ensures Ready()
      ensures out == old(out) + (if HasBegunNode() then "" else if ChildCount() == 0 then "{?" else ",?")
    {
      hide Unclosed, Pairs, OpenOf, Indents, GroupsOk, After, Own;
      OpenedBy(groups, HasBegunNode());
      NextMark(OpenOf(Outer(groups), false), Top(), Top().childCount);
      if !HasBegunNode() {
        if ChildCount() == 0 {
          PutBracket(Map);
        } else {
          Put(',');
        }
        assert Unclosed(out) == Open(OpenOf(groups, true));
        OtherMark(OpenOf(groups, true), '?');
        Put('?');
      }
      FlowChild(child);
    }

    method FlowMapPrepareSimpleKey(child: NodeType)
      requires isGood && Valid() && groups != [] && Top().flow && Top().kind == Map && Fits(child) && ChildCount() % 2 == 0
      modifies this`out
      ensures Ready() && out == old(out) + (if HasBegunNode() then "" else if ChildCount() == 0 then "{" else ",")
    {
      hide Unclosed, Pairs, OpenOf, Indents, GroupsOk, After, Own;
      OpenedBy(groups, HasBegunNode());
      NextMark(OpenOf(Outer(groups), false), Top(), Top().childCount);
      if !HasBegunNode() {
        if ChildCount() == 0 {
          PutBracket(Map);
        } else {
          Put(',');
        }
      }
      FlowChild(child);
    }

    method BlockMapPrepareNode(child: NodeType)
      requires isGood && Valid() && groups != [] && !Top().flow && Top().kind == Map
      modifies this`out, this`groups
      ensures Ready() && SameGroups() && Top() == Marked(old(Top()), child, settings.longKeys)
      ensures out == old(out) + Lead(Top(), child, HasBegunContent(), HasBegunNode())
    {
      hide Unclosed, Pairs, OpenOf, Indents, GroupsOk;
      if ChildCount() % 2 == 0 {
        if settings.longKeys {
          SetLongKey();
        }
        if child == BlockSeq || child == BlockMap || child == Property {
          SetLongKey();
        }
        BlockMapPrepareKey(child);
      } else {
        BlockMapPrepareValue(child);
      }
    }

    /** A simple key of a block map has no mark of its own. */
    method BlockMapPrepareKey(child: NodeType)
      requires isGood && Valid() && groups != [] && !Top().flow && Top().kind == Map
      modifies this`out
      ensures Ready() && out == old(out) + (if Top().longKey && child != NoType && !HasBegunContent() then "?" else "")
    {
      hide Unclosed, Pairs, OpenOf, Indents, GroupsOk, After;
      OpenedBy(groups, HasBegunNode());
      OtherMark([], '?');
      if Top().longKey && child != NoType && !HasBegunContent() {
        Put('?');
      }
    }

    method BlockMapPrepareValue(child: NodeType)
      requires isGood && Valid() && groups != [] && !Top().flow && Top().kind == Map
      modifies this`out
      ensures Ready()
      ensures out == old(out) + (if (if Top().longKey then child != NoType && !HasBegunContent() else !HasBegunNode()) then ":" else "")
    {
      hide Unclosed, Pairs, OpenOf, Indents, GroupsOk, After;
      OpenedBy(groups, HasBegunNode());
      OtherMark([], ':');
      if Top().longKey {
        if child != NoType && !HasBegunContent() {
          Put(':');
        }
      } else if !HasBegunNode() {
        Put(':');
      }
    }

    // The interface

    method BeginDoc()
      requires Valid()
      modifies this`isGood, this`hasAnchor, this`hasTag, this`hasNonContent
      ensures Valid() && (groups == [] ==> Ready() || !isGood)
      ensures isGood <==> old(isGood && groups == [] && !hasAnchor && !hasTag)
      ensures if isGood then !HasBegunNode() else hasAnchor == old(hasAnchor) && hasTag == old(hasTag) && hasNonContent == old(hasNonContent)
    {
      if !isGood {
        return;
      }
      if groups != [] {
        SetError();
        return;
      }
      if hasAnchor || hasTag {
        SetError();
        return;
      }
      hasAnchor, hasTag, hasNonContent := false, false, false;
    }

    /** The new group is flow exactly if the one around it is, or its kind was set to be. */
    method BeginGroup(kind: Kind, midLine: bool)
      requires Valid()
      modifies this
      ensures Valid() && flowCollections == old(flowCollections)
      ensures isGood <==> old(isGood && !CutsOff(midLine))
      ensures isGood ==> !hasAlias && AsPen() == GroupBegun(old(AsPen()), kind, midLine)
      ensures isGood ==>
                && OneMoreNode(Outer(groups)) && groups != [] && Top().kind == kind && Top().childCount == 0
                && (Top().flow <==> old(groups != [] && groups[|groups| - 1].flow) || (if kind == Seq then old(settings.seqFlow) else old(settings.mapFlow)))
    {
      hide Unclosed, Pairs, OpenOf, Indents, GroupsOk, Counted, Prepared, Outer;
      if !isGood {
        return;
      }
      PreparedKeeps(AsPen(), NextGroupType(kind), midLine);
      CountedIs(groups);
      PrepareNode(NextGroupType(kind), midLine);
      CountedIs(groups);
      ghost var counted := Counted(groups);
      StartedGroup(kind);
      OuterOfMore(counted, Top());
    }

    /** Like BeginDoc, but what was marked as begun stays so. */
    method EndDoc()
      requires Valid()
      modifies this`isGood
      ensures Valid() && (groups == [] ==> Ready() || !isGood)
      ensures isGood <==> old(isGood && groups == [] && !hasAnchor && !hasTag)
    {
      if !isGood {
        return;
      }
      if groups != [] {
        SetError();
        return;
      }
      if hasAnchor || hasTag {
        SetError();
        return;
      }
    }

    /**
     * EmitEndSeq and EmitEndMap: a collection that is flow or empty ends with its bracket, and began with it.
     * `aborts` is whether an assertion fails; what is left then is the state of a build without assertions.
     */
    method EndGroup(kind: Kind) returns (aborts: bool)
      requires Valid()
      modifies this
      ensures Valid()
      ensures aborts <==> old(isGood && groups == [] && docCount == 0)
      ensures isGood <==> old(isGood && groups != [] && Top().kind == kind && !hasAnchor && !hasTag)
      ensures isGood ==> old(groups != []) && AsPen() == GroupEnded(old(AsPen()))
      ensures isGood ==> flowCollections == old(flowCollections) + (if old(Top().flow || Top().childCount == 0) then 1 else 0)
    {
      aborts := false;
      if !isGood {
        return;
      }
      if groups == [] || Top().kind != kind {
        aborts := EndWrong(kind);
        return;
      }
      hide Unclosed, Pairs, OpenOf, Indents, GroupsOk, Restored, Ending, Outer;
      ghost var p := AsPen();
      CloseGroup();
      ClosedEnds(p, AsPen());
      hide GroupEnded;
      EndedGroup(kind);
    }

    /** The closing bracket of a flow or empty group, after the opening one if it is still missing. */
    method CloseGroup()
      requires isGood && Valid() && groups != []
      modifies this`groups, this`out, this`flowCollections
      ensures Closed() && Outer(groups) == Outer(old(groups)) && Top() == old(Top()).(flow := Top().flow)
      ensures out == old(out) + Ending(old(Top()), HasBegunNode())
      ensures flowCollections == old(flowCollections) + (if old(Top().flow || Top().childCount == 0) then 1 else 0)
    {
      hide Unclosed, Pairs, OpenOf, Indents, GroupsOk, After, Own, Outer, InsideOf, NodesOf;
      OpenedBy(groups, HasBegunNode());
      var wasFlow := Top().flow;
      OwnLevel(OpenOf(Outer(groups), false), Top(), NodesOf(Top(), HasBegunNode()));
      if ChildCount() == 0 {
        ForceFlow();
      }
      if Top().flow {
        WriteBrackets(wasFlow);
        flowCollections := flowCollections + 1;
      }
    }

    /** `wasFlow` is whether the group was flow before it was found to be empty. */
    method WriteBrackets(wasFlow: bool)
      requires groups != [] && (wasFlow || ChildCount() == 0)
      requires Unclosed(out).Open? && var outer := OpenOf(Outer(groups), false);
               if wasFlow && NodesOf(Top(), HasBegunNode()) > 0 then InsideOf(outer, Unclosed(out).levels, Top().kind)
               else Unclosed(out).levels == outer
      modifies this`out
      ensures Unclosed(out) == Open(OpenOf(Outer(groups), false)) && Pairs(out) == old(Pairs(out)) + 1
      ensures out == old(out) + Ending(Top().(flow := wasFlow), HasBegunNode())
    {
      hide Unclosed, Pairs, OpenOf, After;
      var kind := Top().kind;
      if !wasFlow {
        PutBracket(kind);
      } else if ChildCount() == 0 && !HasBegunNode() {
        PutBracket(kind);
      }
      PutClose(kind);
    }

    /**
     * The end of a group that is not the innermost one: a bracket may be written, but the emitter is good no more.
     * With no group and no node yet, ForceFlow's assertion fails first.
     */
    method EndWrong(kind: Kind) returns (aborts: bool)
      requires isGood && (groups == [] || Top().kind != kind)
      modifies this
      ensures !isGood && (aborts <==> old(groups == [] && docCount == 0))
      ensures old(groups) == [] || !old(Top().flow || Top().childCount == 0) ==> out == old(out)
    {
      aborts := ChildCount() == 0 && groups == [];
      var wasFlow := InFlow();
      if ChildCount() == 0 && groups != [] {
        ForceFlow();
      }
      if InFlow() {
        if !wasFlow || (ChildCount() == 0 && !HasBegunNode()) {
          out := out + [Bracket(kind)];
        }
        out := out + [if kind == Seq then ']' else '}'];
      }
      EndedGroup(kind);
    }

    method ForceFlow()
      requires groups != []
      modifies this`groups
      ensures groups == old(groups)[|old(groups)| - 1 := old(Top()).(flow := true)] && Outer(groups) == Outer(old(groups))
      ensures GroupsOk(old(groups)) ==> GroupsOk(groups)
    {
      groups := groups[|groups| - 1 := Top().(flow := true)];
    }

    method PutClose(kind: Kind)
      requires Unclosed(out).Open? && var open := Unclosed(out).levels; open != [] && open[|open| - 1].kind == kind
      modifies this`out
      ensures Pairs(out) == old(Pairs(out)) + 1 && out == old(out) + [if kind == Seq then ']' else '}']
      ensures var open := old(Unclosed(out)).levels; Unclosed(out) == Open(open[..|open| - 1])
    {
      WriteOne(out, if kind == Seq then ']' else '}');
      out := out + [if kind == Seq then ']' else '}'];
    }

    /** The innermost group, or the document, has one more node; nothing else changed but the mark of its key. */
    twostate predicate OneMoreNode(now: seq<Group>)
      reads this
    {
      && |now| == |old(groups)| && Outer(now) == Outer(old(groups))
      && docCount == old(docCount) + (if now == [] then 1 else 0)
      && (now != [] ==>
            now[|now| - 1] ==
            old(Top()).(childCount := old(Top()).childCount + 1, longKey := now[|now| - 1].longKey))
    }

    /** Scalars of all types, and Null; `long` is whether it is a string that is literal or longer than 1024 bytes. */
    method WriteScalar(long: bool, midLine: bool)
      requires Valid()
      modifies this
      ensures Valid() && flowCollections == old(flowCollections)
      ensures isGood <==> old(isGood && !CutsOff(midLine))
      ensures isGood ==> OneMoreNode(groups) && !hasAlias && AsPen() == ScalarWritten(old(AsPen()), long, midLine)
    {
      hide Unclosed, Pairs, OpenOf, Indents, GroupsOk, Restored, Lead, Counted, Prepared, Outer, LocallySet, ChangesOf;
      if !isGood {
        return;
      }
      ScalarAdds(AsPen(), long, midLine);
      if long {
        SetLocal(UseLongKeys);
      }
      PrepareNode(Scalar, midLine);
      StartedScalar();
    }

    /** `written` is whether the alias's name could be written. */
    method WriteAlias(written: bool, midLine: bool)
      requires Valid()
      modifies this
      ensures Valid() && flowCollections == old(flowCollections)
      ensures isGood <==> old(isGood && !hasAnchor && !hasTag) && written
      ensures isGood ==> OneMoreNode(groups) && hasAlias && AsPen() == ScalarWritten(old(AsPen()), false, midLine)
    {
      hide Unclosed, Pairs, OpenOf, Indents, GroupsOk, Restored, Lead, Counted, Prepared, Outer;
      if !isGood {
        return;
      }
      if hasAnchor || hasTag {
        SetError();
        return;
      }
      ScalarAdds(AsPen(), false, midLine);
      PrepareNode(Scalar, midLine);
      if !written {
        SetError();
        return;
      }
      StartedScalar();
      hasAlias := true;
    }

    /** No node more, but the next one has begun. */
    twostate predicate NextHasBegun()
      reads this
    {
      && docCount == old(docCount) && settings == old(settings) && HasBegunNode()
      && (if old(groups) == [] then groups == [] else SameGroups())
    }

    method WriteAnchor(written: bool, midLine: bool)
      requires Valid()
      modifies this
      ensures Valid() && flowCollections == old(flowCollections)
      ensures isGood <==> old(isGood && !hasAnchor && !CutsOff(midLine)) && written
      ensures isGood ==> hasAnchor && hasTag == old(hasTag) && hasAlias == old(hasAlias) && NextHasBegun()
      ensures isGood ==> AsPen() == Prepared(old(AsPen()), Property, midLine).(anchor := true)
    {
      hide Unclosed, Pairs, OpenOf, Indents, GroupsOk, Prepared, Outer;
      PreparedKeeps(AsPen(), Property, midLine);
      if !isGood {
        return;
      }
      if hasAnchor {
        SetError();
        return;
      }
      PrepareNode(Property, midLine);
      if !written {
        SetError();
        return;
      }
      hasAnchor := true;
    }

    method WriteTag(written: bool, midLine: bool)
      requires Valid()
      modifies this
      ensures Valid() && flowCollections == old(flowCollections)
      ensures isGood <==> old(isGood && !hasTag && !CutsOff(midLine)) && written
      ensures isGood ==> hasTag && hasAnchor == old(hasAnchor) && hasAlias == old(hasAlias) && NextHasBegun()
      ensures isGood ==> AsPen() == Prepared(old(AsPen()), Property, midLine).(tag := true)
    {
      hide Unclosed, Pairs, OpenOf, Indents, GroupsOk, Prepared, Outer;
      PreparedKeeps(AsPen(), Property, midLine);
      if !isGood {
        return;
      }
      if hasTag {
        SetError();
        return;
      }
      PrepareNode(Property, midLine);
      if !written {
        SetError();
        return;
      }
      hasTag := true;
    }

    /** A comment, or an empty line. */
    method WriteNonContent(midLine: bool)
      requires Valid()
      modifies this
      ensures Valid() && flowCollections == old(flowCollections)
      ensures isGood == old(isGood)
      ensures isGood ==>
                && hasNonContent && hasAnchor == old(hasAnchor) && hasTag == old(hasTag) && hasAlias == old(hasAlias)
                && NextHasBegun() && AsPen() == Prepared(old(AsPen()), NoType, midLine).(other := true)
    {
      hide Unclosed, Pairs, OpenOf, Indents, GroupsOk, Prepared, Outer;
      PreparedKeeps(AsPen(), NoType, midLine);
      if !isGood {
        return;
      }
      PrepareNode(NoType, midLine);
      hasNonContent := true;
    }

    /** A manipulator for the next node; Flow and Block set the formats of both kinds of collections. */
    method SetLocal(m: Manip)
      requires Valid()
      modifies this`settings, this`modified
      ensures Valid() && AsPen() == LocalSet(old(AsPen()), m)
    {
      hide Unclosed, Pairs, OpenOf, Indents, GroupsOk;
      match m {
        case UseFlow =>
          modified := modified + [SeqFlowWas(settings.seqFlow)];
          settings := settings.(seqFlow := true);
          modified := modified + [MapFlowWas(settings.mapFlow)];
          settings := settings.(mapFlow := true);
        case UseBlock =>
          modified := modified + [SeqFlowWas(settings.seqFlow)];
          settings := settings.(seqFlow := false);
          modified := modified + [MapFlowWas(settings.mapFlow)];
          settings := settings.(mapFlow := false);
        case UseLongKeys =>
          modified := modified + [LongKeysWas(settings.longKeys)];
          settings := settings.(longKeys := true);
        case UseAutoKeys =>
          modified := modified + [LongKeysWas(settings.longKeys)];
          settings := settings.(longKeys := false);
        case UseIndent(n) =>
          if n > 1 {
            modified := modified + [IndentWas(settings.indent)];
            settings := settings.(indent := n);
          }
      }
    }

    /** A setting of the emitter as a whole, kept so that it can be brought back into force. */
    method SetGlobal(g: Global)
      requires Valid()
      modifies this`settings, this`globals
      ensures Valid() && AsPen() == GlobalSet(old(AsPen()), g)
    {
      hide Unclosed, Pairs, OpenOf, Indents, GroupsOk;
      match g {
        case SeqFormat(flow) =>
          settings := settings.(seqFlow := flow);
          globals := globals + [SeqFlowWas(settings.seqFlow)];
        case MapFormat(flow) =>
          settings := settings.(mapFlow := flow);
          globals := globals + [MapFlowWas(settings.mapFlow)];
        case KeyFormat(long) =>
          settings := settings.(longKeys := long);
          globals := globals + [LongKeysWas(settings.longKeys)];
        case IndentFormat(n) =>
          if n > 1 {
            settings := settings.(indent := n);
            globals := globals + [IndentWas(settings.indent)];
          }
      }
      KeptOnce(old(settings), g);
    }

    method RestoreGlobalModifiedSettings()
      requires Valid()
      modifies this`settings
      ensures Valid() && AsPen() == old(AsPen()).(settings := Restored(old(settings), globals))
    {
      hide Unclosed, Pairs, OpenOf, Indents, GroupsOk;
      Restore(globals);
    }

    /** Inside a flow collection: one comma fewer than entries so far, and a colon for every value so far. */
    lemma SeparatorsAreWritten()
      requires Valid() && isGood && InFlow() && NodesOf(Top(), HasBegunNode()) > 0
      ensures Unclosed(out).Open? && Unclosed(out).levels != []
      ensures var n := NodesOf(Top(), HasBegunNode());
              Unclosed(out).levels[|Unclosed(out).levels| - 1] ==
              if Top().kind == Seq then Level(Seq, n - 1, 0) else Level(Map, (n + 1) / 2 - 1, n / 2)
    {
      hide Indents, GroupsOk, Pairs;
      OpenedBy(groups, HasBegunNode());
    }

    /** In a good run, once every collection has ended: as many pairs as flow or empty collections, none open. */
    lemma BracketsArePaired()
      requires Valid() && isGood && groups == []
      ensures Unclosed(out) == Open([]) && Openings(out) == Pairs(out) == flowCollections
    {
      OpenedAndClosed(out);
    }
  }

  lemma KeptOnce(s: Settings, g: Global)
    ensures Restored(s, Kept(g)) == if Kept(g) == [] then s else Undone(s, Kept(g)[0])
  {
  }

  /** One more child in the innermost group. */
  function Counted(groups: seq<Group>): seq<Group> {
    if groups == [] then []
    else
      var last := |groups| - 1;
      var g := groups[last].(childCount := groups[last].childCount + 1);
      groups[last := if g.childCount % 2 == 0 then g.(longKey := false) else g]
  }

  lemma CountedKeeps(groups: seq<Group>)
    ensures Outer(Counted(groups)) == Outer(groups)
    ensures GroupsOk(groups) ==> GroupsOk(Counted(groups))
    ensures OpenOf(Counted(groups), false) == OpenOf(groups, true)
  {
  }

  /** A new group inside, flow if the group around it is. */
  lemma GroupAdded(groups: seq<Group>, g: Group)
    requires GroupsOk(groups) && g.childCount == 0 && !g.longKey
    requires groups != [] && groups[|groups| - 1].flow ==> g.flow
    ensures GroupsOk(Counted(groups) + [g]) && Outer(Counted(groups) + [g]) == Counted(groups)
    ensures OpenOf(Counted(groups) + [g], false) == OpenOf(groups, true)
    ensures Indents(Counted(groups)) == Indents(Outer(groups)) + (if groups == [] then 0 else groups[|groups| - 1].indent)
  {
    CountedKeeps(groups);
    AddedOk(groups, g);
    hide GroupsOk, Counted;
    assert (Counted(groups) + [g])[..|groups|] == Counted(groups);
    CountedIndents(groups);
  }

  lemma AddedOk(groups: seq<Group>, g: Group)
    requires GroupsOk(groups) && !g.longKey && (groups != [] && groups[|groups| - 1].flow ==> g.flow)
    ensures GroupsOk(Counted(groups) + [g]) && |Counted(groups)| == |groups|
  {
  }

  lemma CountedTop(groups: seq<Group>)
    ensures |Counted(groups)| == |groups|
    ensures groups != [] ==> var g, g' := groups[|groups| - 1], Counted(groups)[|groups| - 1]; g'.indent == g.indent && g'.flow == g.flow
  {
  }

  lemma CountedIs(groups: seq<Group>)
    ensures |Counted(groups)| == |groups| && Outer(Counted(groups)) == Outer(groups)
    ensures groups != [] ==>
              var last := |groups| - 1;
              Counted(groups)[last] ==
              groups[last].(childCount := groups[last].childCount + 1, longKey := Counted(groups)[last].longKey)
  {
  }

  lemma CountedIndents(groups: seq<Group>)
    ensures Indents(Counted(groups)) == Indents(Outer(groups)) + (if groups == [] then 0 else groups[|groups| - 1].indent)
  {
    CountedKeeps(groups);
  }

  /** What the brackets of the innermost group are; a block group has none open around it either. */
  lemma OpenedBy(groups: seq<Group>, begun: bool)
    requires groups != [] && GroupsOk(groups)
    ensures var g := groups[|groups| - 1];
            && OpenOf(groups, begun) == OpenOf(Outer(groups), false) + Own(g, NodesOf(g, begun))
            && OpenOf(groups, true) == OpenOf(Outer(groups), false) + Own(g, NodesOf(g, true))
            && (!g.flow ==> OpenOf(Outer(groups), false) == [])
  {
    var g := groups[|groups| - 1];
    if !g.flow {
      NoOuterFlow(groups);
      NoneOpen(Outer(groups));
    }
  }

  lemma {:induction false} NoOuterFlow(groups: seq<Group>)
    requires groups != [] && GroupsOk(groups) && !groups[|groups| - 1].flow
    ensures forall i :: 0 <= i < |groups| ==> !groups[i].flow
  {
    if |groups| > 1 {
      assert !groups[|groups| - 2].flow;
      NoOuterFlow(groups[..|groups| - 1]);
      assert forall i :: 0 <= i < |groups| - 1 ==> groups[..|groups| - 1][i] == groups[i];
    }
  }

  /** The mark in front of the next node of a flow group. */
  lemma NextMark(outer: seq<Level>, g: Group, n: nat)
    requires g.flow
    ensures Own(g, 0) == [] && Own(g, 1) == [Level(g.kind, 0, 0)]
    ensures n > 0 ==>
              After(outer + Own(g, n), if g.kind == Map && n % 2 == 1 then ':' else ',') == Open(outer + Own(g, n + 1))
  {
    if n > 0 {
      var open := outer + Own(g, n);
      assert open[..|outer|] == outer;
      var next := Own(g, n + 1)[0];
      assert open[|outer| := next] == outer + [next];
    }
  }

  lemma OwnLevel(outer: seq<Level>, g: Group, n: nat)
    ensures !g.flow || n == 0 ==> outer + Own(g, n) == outer
    ensures g.flow && n > 0 ==> InsideOf(outer, outer + Own(g, n), g.kind)
  {
  }

  /** One more bracket is open. */
  predicate InsideOf(outer: seq<Level>, open: seq<Level>, kind: Kind) {
    open != [] && open[|open| - 1].kind == kind && open[..|open| - 1] == outer
  }

  /** Every other mark is ignored. */
  lemma OtherMark(open: seq<Level>, mark: char)
    requires mark == '?' || (open == [] && mark !in "[]{}")
    ensures After(open, mark) == Open(open)
  {
  }

  lemma {:induction false} NoneOpen(groups: seq<Group>)
    requires forall i :: 0 <= i < |groups| ==> !groups[i].flow
    ensures OpenOf(groups, false) == []
  {
    if groups != [] {
      NoneOpen(groups[..|groups| - 1]);
    }
  }

  /** The group around becomes the innermost one. */
  lemma OuterGroups(groups: seq<Group>)
    requires groups != [] && GroupsOk(groups)
    ensures GroupsOk(Outer(groups))
    ensures Indents(Outer(groups)) == Indents(Outer(Outer(groups))) + (if |groups| == 1 then 0 else groups[|groups| - 2].indent)
  {
    var outer := Outer(groups);
    assert forall i :: 0 <= i < |outer| ==> outer[i] == groups[i];
  }
}
