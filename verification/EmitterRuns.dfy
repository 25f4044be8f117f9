/** Which sequences of calls an emitter takes, and what it has written after them. */
module EmitterRuns {
  import opened Emitting

  /**
   * `written` is whether the text of a property or an alias could be written, `long` whether a scalar is a string that
   * is literal or longer than 1024 bytes.
   */
  datatype Call =
    | BeginDocument
    | EndDocument
    | Begin(kind: Kind)
    | End(kind: Kind)
    | Content(long: bool)
    | Reference(written: bool)
    | Anchored(written: bool)
    | Tagged(written: bool)
    | Comment
    | Local(manip: Manip)
    | SetUp(global: Global)
    | RestoreGlobals

  /** A call, and whether the stream stands in mid line before it. */
  datatype Step = Step(call: Call, midLine: bool)

  /** All that decides whether a call is taken: the groups begun, the nodes of the document, pending properties. */
  datatype Shape = Bad | Shape(kinds: seq<Kind>, docs: nat, anchor: bool, tag: bool)

  const FRESH := Shape([], 0, false, false)

  /** A document would begin in front of a node whose property has been written. */
  predicate CutsOff(s: Shape, midLine: bool)
    requires s.Shape?
  {
    s.kinds == [] && s.docs > 0 && midLine && (s.anchor || s.tag)
  }

  function OneMore(s: Shape): (r: Shape)
    requires s.Shape?
    ensures r.Shape? && r.kinds == s.kinds && !r.anchor && !r.tag
  {
    Shape(s.kinds, if s.kinds == [] then s.docs + 1 else s.docs, false, false)
  }

  /** One node more, and inside the group that it begins. */
  function OneGroup(s: Shape, kind: Kind): (r: Shape)
    requires s.Shape?
    ensures r.Shape? && r.kinds == s.kinds + [kind] && !r.anchor && !r.tag
  {
    Shape(s.kinds + [kind], OneMore(s).docs, false, false)
  }

  function Next(s: Shape, call: Call, midLine: bool): Shape {
    if s.Bad? then Bad
    else
      match call
      case BeginDocument => if s.kinds == [] && !s.anchor && !s.tag then s else Bad
      case EndDocument => if s.kinds == [] && !s.anchor && !s.tag then s else Bad
      case Begin(kind) => if CutsOff(s, midLine) then Bad else OneGroup(s, kind)
      case End(kind) =>
        if s.kinds != [] && s.kinds[|s.kinds| - 1] == kind && !s.anchor && !s.tag then s.(kinds := s.kinds[..|s.kinds| - 1])
        else Bad
      case Content(_) => if CutsOff(s, midLine) then Bad else OneMore(s)
      case Reference(written) => if s.anchor || s.tag || !written then Bad else OneMore(s)
      case Anchored(written) => if s.anchor || CutsOff(s, midLine) || !written then Bad else s.(anchor := true)
      case Tagged(written) => if s.tag || CutsOff(s, midLine) || !written then Bad else s.(tag := true)
      case Comment => s
      case Local(_) => s
      case SetUp(_) => s
      case RestoreGlobals => s
  }

  /** The pen behind a call that is taken. */
  function PenAfter(p: Pen, call: Call, midLine: bool): Pen {
    match call
    case BeginDocument => p.(anchor := false, tag := false, other := false)
    case EndDocument => p
    case Begin(kind) => GroupBegun(p, kind, midLine)
    case End(kind) => if p.groups == [] then p else GroupEnded(p)
    case Content(long) => ScalarWritten(p, long, midLine)
    case Reference(_) => ScalarWritten(p, false, midLine)
    case Anchored(_) => Prepared(p, Property, midLine).(anchor := true)
    case Tagged(_) => Prepared(p, Property, midLine).(tag := true)
    case Comment => Prepared(p, NoType, midLine).(other := true)
    case Local(m) => LocalSet(p, m)
    case SetUp(g) => GlobalSet(p, g)
    case RestoreGlobals => p.(settings := Restored(p.settings, p.globals))
  }

  function PensAfter(p: Pen, steps: seq<Step>): Pen
    decreases |steps|
  {
    if steps == [] then p else PensAfter(PenAfter(p, steps[0].call, steps[0].midLine), steps[1..])
  }

  function After(s: Shape, steps: seq<Step>): Shape
    decreases |steps|
  {
    if steps == [] then s else After(Next(s, steps[0].call, steps[0].midLine), steps[1..])
  }

  function Kinds(groups: seq<Group>): (kinds: seq<Kind>)
    ensures |kinds| == |groups| && (groups != [] ==> kinds[|groups| - 1] == groups[|groups| - 1].kind)
  {
    seq(|groups|, i requires 0 <= i < |groups| => groups[i].kind)
  }

  ghost function ShapeOf(e: Emitter): Shape
    reads e
  {
    if !e.isGood then Bad else Shape(Kinds(e.groups), e.docCount, e.hasAnchor, e.hasTag)
  }

  lemma SameKinds(groups: seq<Group>, groups': seq<Group>)
    requires |groups| == |groups'| && Outer(groups) == Outer(groups')
    requires groups != [] ==> groups[|groups| - 1].kind == groups'[|groups| - 1].kind
    ensures Kinds(groups) == Kinds(groups')
  {
    forall i | 0 <= i < |groups|
      ensures groups[i].kind == groups'[i].kind
    {
      if i < |groups| - 1 {
        assert Outer(groups)[i] == Outer(groups')[i];
      }
    }
  }

  lemma KindsInside(groups: seq<Group>)
    requires groups != []
    ensures Kinds(groups) == Kinds(Outer(groups)) + [groups[|groups| - 1].kind]
  {
  }

  /** With no group open and no node yet, the end of a group fails an assertion. */
  predicate Aborts(s: Shape, call: Call) {
    call.End? && s.Shape? && s.kinds == [] && s.docs == 0
  }

  /** What a call does to an emitter: it goes on as its shape says, and as long as it is good as its pen says. */
  twostate predicate Made(e: Emitter, call: Call, midLine: bool)
    reads e
  {
    && e.Valid() && ShapeOf(e) == Next(old(ShapeOf(e)), call, midLine)
    && (e.isGood ==> e.AsPen() == PenAfter(old(e.AsPen()), call, midLine))
  }

  method MakeGroup(e: Emitter, kind: Kind, midLine: bool)
    requires e.Valid()
    modifies e
    ensures Made(e, Begin(kind), midLine)
  {
    hide Unclosed, Pairs, OpenOf, Indents, GroupsOk, Kinds, GroupBegun;
    ghost var groups := e.groups;
    BegunKeeps(e.AsPen(), kind, midLine);
    e.BeginGroup(kind, midLine);
    if e.isGood {
      KindsInside(e.groups);
      SameKinds(groups, Outer(e.groups));
    }
  }

  method MakeEnd(e: Emitter, kind: Kind, midLine: bool) returns (aborts: bool)
    requires e.Valid()
    modifies e
    ensures Made(e, End(kind), midLine) && aborts == Aborts(old(ShapeOf(e)), End(kind))
  {
    hide Unclosed, Pairs, OpenOf, Indents, GroupsOk, Kinds, GroupEnded;
    ghost var groups := e.groups;
    EndedKeeps(e.AsPen());
    aborts := e.EndGroup(kind);
    if e.isGood {
      KindsInside(groups);
    }
  }

  lemma BegunKeeps(p: Pen, kind: Kind, midLine: bool)
    ensures var q := GroupBegun(p, kind, midLine);
            && !q.anchor && !q.tag && |q.groups| == |p.groups| + 1 && q.groups[|p.groups|].kind == kind
            && q.docs == p.docs + (if p.groups == [] then 1 else 0)
  {
    PreparedKeeps(p, TypeOf(Group(kind, BeginsFlow(p, kind), p.settings.indent, 0, false, p.modified)), midLine);
    CountedIs(Prepared(p, TypeOf(Group(kind, BeginsFlow(p, kind), p.settings.indent, 0, false, p.modified)), midLine).groups);
    hide Prepared, Counted;
  }

  lemma EndedKeeps(p: Pen)
    ensures p.groups != [] ==>
              var q := GroupEnded(p); !q.anchor && !q.tag && q.groups == Outer(p.groups) && q.docs == p.docs
  {
    hide Restored;
  }

  lemma WrittenKeeps(p: Pen, long: bool, midLine: bool)
    ensures !ScalarWritten(p, long, midLine).anchor && !ScalarWritten(p, long, midLine).tag
  {
    hide Prepared, Restored, Counted;
  }

  method MakeNode(e: Emitter, call: Call, midLine: bool)
    requires e.Valid() && (call.Content? || call.Reference?)
    modifies e
    ensures Made(e, call, midLine)
  {
    hide Unclosed, Pairs, OpenOf, Indents, GroupsOk, Kinds, ScalarWritten;
    ghost var groups := e.groups;
    WrittenKeeps(e.AsPen(), call.Content? && call.long, midLine);
    match call {
      case Content(long) => e.WriteScalar(long, midLine);
      case Reference(written) => e.WriteAlias(written, midLine);
    }
    if e.isGood {
      SameKinds(groups, e.groups);
    }
  }

  method MakeProperty(e: Emitter, call: Call, midLine: bool)
    requires e.Valid() && (call.Anchored? || call.Tagged? || call.Comment?)
    modifies e
    ensures Made(e, call, midLine)
  {
    hide Unclosed, Pairs, OpenOf, Indents, GroupsOk, Kinds, Prepared;
    ghost var groups := e.groups;
    match call {
      case Anchored(written) => e.WriteAnchor(written, midLine);
      case Tagged(written) => e.WriteTag(written, midLine);
      case Comment => e.WriteNonContent(midLine);
    }
    if e.isGood {
      SameKinds(groups, e.groups);
    }
  }

  method MakeFormat(e: Emitter, call: Call, midLine: bool)
    requires e.Valid() && (call.Local? || call.SetUp? || call.RestoreGlobals?)
    modifies e
    ensures Made(e, call, midLine)
  {
    hide Unclosed, Pairs, OpenOf, Indents, GroupsOk, Kinds;
    match call {
      case Local(m) => e.SetLocal(m);
      case SetUp(g) => e.SetGlobal(g);
      case RestoreGlobals => e.RestoreGlobalModifiedSettings();
    }
  }

  /** One call: the emitter goes on as its shape and its pen say. */
  method Make(e: Emitter, call: Call, midLine: bool) returns (aborts: bool)
    requires e.Valid()
    modifies e
    ensures Made(e, call, midLine) && aborts == Aborts(old(ShapeOf(e)), call)
  {
    hide Unclosed, Pairs, OpenOf, Indents, GroupsOk, Kinds;
    aborts := false;
    match call {
      case BeginDocument => e.BeginDoc();
      case EndDocument => e.EndDoc();
      case Begin(kind) => MakeGroup(e, kind, midLine);
      case End(kind) => aborts := MakeEnd(e, kind, midLine);
      case Content(_) => MakeNode(e, call, midLine);
      case Reference(_) => MakeNode(e, call, midLine);
      case Anchored(_) => MakeProperty(e, call, midLine);
      case Tagged(_) => MakeProperty(e, call, midLine);
      case Comment => MakeProperty(e, call, midLine);
      case _ => MakeFormat(e, call, midLine);
    }
  }

  lemma BadIsBad(call: Call, midLine: bool)
    ensures Next(Bad, call, midLine) == Bad
  {
  }

  /**
   * Any run of calls: the emitter is good exactly if every call fits, and once every group has ended each bracket
   * is matched, one pair for every collection that is flow or empty.
   */
  method Run(settings: Settings, steps: seq<Step>) returns (e: Emitter)
    ensures fresh(e) && e.Valid() && ShapeOf(e) == After(FRESH, steps)
    ensures e.isGood ==> e.AsPen() == PensAfter(NewPen(settings), steps)
    ensures e.isGood && e.groups == [] ==>
              Unclosed(e.out) == Open([]) && Openings(e.out) == Pairs(e.out) == e.flowCollections
  {
    hide Unclosed, Pairs, Openings, Next, PenAfter;
    e := new Emitter(settings);
    assert steps[0..] == steps;
    for i := 0 to |steps|
      invariant fresh(e) && e.Valid() && After(ShapeOf(e), steps[i..]) == After(FRESH, steps)
      invariant e.isGood ==> PensAfter(e.AsPen(), steps[i..]) == PensAfter(NewPen(settings), steps)
    {
      assert steps[i..][1..] == steps[i + 1..];
      BadIsBad(steps[i].call, steps[i].midLine);
      var aborts := Make(e, steps[i].call, steps[i].midLine);
    }
    if e.isGood && e.groups == [] {
      e.BracketsArePaired();
    }
  }
}
