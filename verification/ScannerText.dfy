/**
 * All tokens of a text as a function of the text: how far the queue was emptied in between does not matter to
 * what is scanned next.
 */
module ScannerText {
  import opened Tokens
  import opened Streaming
  import opened ScannerState
  import opened ScannerSteps
  import opened ScannerInvariant
  import opened ScannerSound
  import opened ScannerRuns
  import opened ScalarReading
  import opened ScalarLines
  import opened TokenText
  import opened ScannerBranches
  import Exp

  /** The state as if nothing had been taken from the queue. */
  function Rewound(s: Scan): Scan {
    s.(front := 0)
  }

  lemma RewoundPoints(s: Scan)
    requires PointersOk(s)
    ensures PointersOk(Rewound(s)) && (s.indents != [] ==> Top(Rewound(s)) == Top(s))
  {
    assert forall k :: KeyPointsInside(s, k) ==> KeyPointsInside(Rewound(s), k);
  }

  lemma RewoundSound(s: Scan)
    requires Sound(s)
    ensures Sound(Rewound(s))
  {
    assert forall k :: KeyOk(s, k) ==> KeyOk(Rewound(s), k);
    OrderFrame(s, Rewound(s));
    hide IndentsOrdered;
  }

  // The private steps

  lemma RewoundPushIndent(s: Scan, column: int, kind: IndentType, status: IndentStatus)
    requires PointersOk(s) && s.indents != []
    ensures PointersOk(Rewound(s))
    ensures var (r, p) := PushIndent(s, column, kind, status); PushIndent(Rewound(s), column, kind, status) == (Rewound(r), p)
  {
    RewoundPoints(s);
    hide PointersOk;
  }

  lemma RewoundInsert(s: Scan, m: Mark)
    requires PointersOk(s) && s.indents != []
    ensures PointersOk(Rewound(s)) && InsertPotentialSimpleKey(Rewound(s), m) == Rewound(InsertPotentialSimpleKey(s, m))
  {
    RewoundPushIndent(s, m.column, MAP, Unknown);
    hide PushIndent, PointersOk;
  }

  lemma RewoundDecide(s: Scan, m: Mark)
    requires PointersOk(s)
    ensures PointersOk(Rewound(s)) && InvalidateSimpleKey(Rewound(s)) == Rewound(InvalidateSimpleKey(s))
    ensures var (r, valid) := VerifySimpleKey(s, m); VerifySimpleKey(Rewound(s), m) == (Rewound(r), valid)
  {
    RewoundPoints(s);
  }

  lemma RewoundPop(s: Scan)
    requires PointersOk(s) && s.indents != []
    ensures PointersOk(Rewound(s)) && PointersOk(PopIndent(s)) && PopIndent(Rewound(s)) == Rewound(PopIndent(s))
  {
    RewoundPoints(s);
    PopIndentKeepsPointers(s);
    ShorterPoints(s);
    var s1 := s.(indents := s.indents[..|s.indents| - 1]);
    RewoundDecide(s1, Mark(0, 0, 0));
    PopIndentIs(s);
    PopIndentIs(Rewound(s));
    assert Rewound(s).(indents := s.indents[..|s.indents| - 1]) == Rewound(s1);
    hide InvalidateSimpleKey, VerifySimpleKey, PointersOk, Top, PopIndent;
  }

  lemma PopIndentIs(s: Scan)
    requires PointersOk(s) && s.indents != []
    ensures var s1 := s.(indents := s.indents[..|s.indents| - 1]);
            PointersOk(s1) &&
            PopIndent(s) == if Top(s).status != Valid then InvalidateSimpleKey(s1)
                            else if Top(s).kind == SEQ then Push(s1, BLOCK_SEQ_END, "")
                            else if Top(s).kind == MAP then Push(s1, BLOCK_MAP_END, "")
                            else s1
  {
    ShorterPoints(s);
    hide InvalidateSimpleKey, PointersOk;
  }

  lemma ShorterPoints(s: Scan)
    requires PointersOk(s) && s.indents != []
    ensures PointersOk(s.(indents := s.indents[..|s.indents| - 1]))
  {
  }

  lemma {:induction false} RewoundToColumn(s: Scan, column: int, atBlockEntry: bool)
    requires PointersOk(s)
    ensures PointersOk(Rewound(s)) && PointersOk(PopToColumn(s, column, atBlockEntry))
    ensures PopToColumn(Rewound(s), column, atBlockEntry) == Rewound(PopToColumn(s, column, atBlockEntry))
    decreases |s.indents|
  {
    RewoundPoints(s);
    PopToColumnKeepsPointers(s, column, atBlockEntry);
    if s.indents != [] {
      RewoundPop(s);
      PopIndentKeepsPointers(s);
      RewoundToColumn(PopIndent(s), column, atBlockEntry);
    }
    hide PopIndent, PointersOk;
  }

  lemma {:induction false} RewoundInvalid(s: Scan)
    requires PointersOk(s)
    ensures PointersOk(Rewound(s)) && PopInvalid(Rewound(s)) == Rewound(PopInvalid(s))
    decreases |s.indents|
  {
    RewoundPoints(s);
    if s.indents != [] {
      RewoundPop(s);
      PopIndentKeepsPointers(s);
      RewoundInvalid(PopIndent(s));
    }
    hide PopIndent, PointersOk;
  }

  lemma {:induction false} RewoundToNone(s: Scan)
    requires PointersOk(s)
    ensures PointersOk(Rewound(s)) && PopToNone(Rewound(s)) == Rewound(PopToNone(s))
    decreases |s.indents|
  {
    RewoundPoints(s);
    if s.indents != [] {
      RewoundPop(s);
      PopIndentKeepsPointers(s);
      RewoundToNone(PopIndent(s));
    }
    hide PopIndent, PointersOk;
  }

  lemma RewoundOutdent(s: Scan, column: int, atBlockEntry: bool)
    requires PointersOk(s)
    ensures PointersOk(Rewound(s)) && PopIndentToHere(Rewound(s), column, atBlockEntry) == Rewound(PopIndentToHere(s, column, atBlockEntry))
    ensures PopAllIndents(Rewound(s)) == Rewound(PopAllIndents(s))
  {
    RewoundToColumn(s, column, atBlockEntry);
    RewoundInvalid(PopToColumn(s, column, atBlockEntry));
    RewoundToNone(s);
    PopToColumnKeepsPointers(Rewound(s), column, atBlockEntry);
    hide PopToColumn, PopInvalid, PopToNone, PointersOk;
  }

  lemma RewoundCloseFlowEntry(s: Scan, m: Mark)
    requires PointersOk(s)
    ensures PointersOk(Rewound(s)) && CloseFlowEntry(Rewound(s), m) == Rewound(CloseFlowEntry(s, m))
  {
    RewoundDecide(s, m);
    hide InvalidateSimpleKey, VerifySimpleKey, PointersOk;
  }

  function RewoundNext(n: Next): Next {
    if n.Threw? then n else Next(Rewound(n.scan))
  }

  lemma RewoundValue(s: Scan, m: Mark)
    requires PointersOk(s) && s.indents != []
    ensures PointersOk(Rewound(s)) && ScanValue(Rewound(s), m) == RewoundNext(ScanValue(s, m))
  {
    RewoundDecide(s, m);
    var s1 := VerifySimpleKey(s, m).0;
    VerifyKeepsPointers(s, m);
    RewoundPushIndent(s1, m.column, MAP, Valid);
    hide VerifySimpleKey, PushIndent, PointersOk;
  }

  lemma VerifyKeepsPointers(s: Scan, m: Mark)
    requires PointersOk(s)
    ensures PointersOk(VerifySimpleKey(s, m).0) && VerifySimpleKey(s, m).0.indents == s.indents
  {
    var s' := VerifySimpleKey(s, m).0;
    assert |s'.all| == |s.all| && |s'.refs| == |s.refs| && s'.front == s.front && |s'.simpleKeys| <= |s.simpleKeys|;
    assert forall k :: 0 <= k < |s'.simpleKeys| ==> s'.simpleKeys[k] == s.simpleKeys[k];
  }

  lemma RewoundMarker(s: Scan, token: Item)
    requires PointersOk(s)
    ensures PointersOk(Rewound(s)) && ScanMarker(Rewound(s), token) == Rewound(ScanMarker(s, token))
    ensures EndStream(Rewound(s)) == Rewound(EndStream(s))
  {
    RewoundOutdent(s, 0, false);
    hide PopAllIndents, PopIndentToHere, PointersOk;
  }

  lemma RewoundFlowEnd(s: Scan, m: Mark, flow: Flow)
    requires PointersOk(s)
    ensures PointersOk(Rewound(s)) && ScanFlowEnd(Rewound(s), m, flow) == RewoundNext(ScanFlowEnd(s, m, flow))
    ensures ScanFlowEntry(Rewound(s), m) == Rewound(ScanFlowEntry(s, m))
  {
    RewoundCloseFlowEntry(s, m);
    hide CloseFlowEntry, PointersOk;
  }

  lemma RewoundEntry(s: Scan, m: Mark)
    requires PointersOk(s) && s.indents != []
    ensures PointersOk(Rewound(s)) && ScanBlockEntry(Rewound(s), m) == RewoundNext(ScanBlockEntry(s, m))
    ensures ScanKey(Rewound(s), m) == RewoundNext(ScanKey(s, m))
  {
    RewoundPushIndent(s, m.column, MAP, Valid);
    RewoundPushIndent(s, m.column, SEQ, Valid);
    hide PushIndent, PointersOk;
  }

  lemma RewoundBreak(s: Scan)
    requires PointersOk(s)
    ensures PointersOk(Rewound(s)) && EatBreak(Rewound(s)) == Rewound(EatBreak(s)) && EatTab(Rewound(s)) == Rewound(EatTab(s))
  {
    RewoundDecide(s, Mark(0, 0, 0));
    hide InvalidateSimpleKey, VerifySimpleKey, PointersOk;
  }

  lemma RewoundInserting(s: Scan, a: Action, m: Mark)
    requires CanAct(s) && (a.FlowStart? || a.Plain? || a.Quoted? || a.Literal? || (a.Property? && Scans(a)))
    ensures CanAct(Rewound(s)) && Act(Rewound(s), a, m) == RewoundNext(Act(s, a, m))
  {
    RewoundPoints(s);
    RewoundInsert(s, m);
    hide PointersOk, InsertPotentialSimpleKey;
  }

  /** No action of a scan depends on how much of the queue was handed out. */
  lemma RewoundAct(s: Scan, a: Action, m: Mark)
    requires CanAct(s) && Scans(a)
    ensures CanAct(Rewound(s)) && Act(Rewound(s), a, m) == RewoundNext(Act(s, a, m))
  {
    RewoundPoints(s);
    hide PointersOk, EatBreak, EatTab, PopIndentToHere, EndStream, ScanMarker, ScanFlowEnd, ScanFlowEntry, ScanBlockEntry, ScanKey,
         ScanValue;
    hide ScanFlowStart, ScanProperty, ScanPlainScalar, ScanQuotedScalar, ScanBlockScalar;
    match a
    case Tab => RewoundBreak(s);
    case Break => RewoundBreak(s);
    case Outdent(atBlockEntry) => RewoundOutdent(s, m.column, atBlockEntry);
    case End => RewoundMarker(s, Item(DOC_END, VALID, ""));
    case Marker(token) => RewoundMarker(s, token);
    case FlowEnd(flow) => RewoundFlowEnd(s, m, flow);
    case FlowEntry => RewoundFlowEnd(s, m, FLOW_SEQ);
    case BlockEntry => RewoundEntry(s, m);
    case Key => RewoundEntry(s, m);
    case Value => RewoundValue(s, m);
    case _ => RewoundInserting(s, a, m);
  }

  // The gap in front of a token

  function RewoundPlace(p: Place): Place {
    Place(Rewound(p.scan), p.mark)
  }

  lemma {:induction false} RewoundBlanks(t: string, p: Place)
    ensures Blanks(t, RewoundPlace(p)) == RewoundPlace(Blanks(t, p))
    decreases |t| - p.mark.pos
  {
    if p.mark.pos < |t| && Exp.IsBlank(t[p.mark.pos]) {
      RewoundBlanks(t, Place(if t[p.mark.pos] == '\t' then EatTab(p.scan) else p.scan, After(t, p.mark)));
    }
  }

  lemma {:induction false} RewoundGap(t: string, p: Place)
    requires Sound(p.scan)
    ensures Sound(Rewound(p.scan)) && Gap(t, RewoundPlace(p)) == RewoundPlace(Gap(t, p))
    decreases |t| - p.mark.pos
  {
    hide Sound, Blanks, EatBreak, PointersOk;
    RewoundSound(p.scan);
    RewoundBlanks(t, p);
    var q := Blanks(t, p);
    BlanksSound(t, p);
    BreakSound(q.scan);
    RewoundBreak(q.scan);
    var m := Comment(t, q.mark);
    if Exp.IsBreak(Exp.At(t, m.pos)) {
      RewoundGap(t, Place(EatBreak(q.scan), AfterMany(t, m, Exp.Break(t, m.pos))));
    }
  }

  function RewoundStep(r: Stepped): Stepped {
    if r.Throws? then r else Leads(RewoundPlace(r.place))
  }

  lemma RewoundCalled(b: Branch, t: string, m: Mark, s: Scan)
    requires m.pos < |t|
    ensures CalledFor(b, t, m, Rewound(s)) == CalledFor(b, t, m, s)
  {
    assert TopIndent(Rewound(s)) == TopIndent(s) && InFlow(Rewound(s)) == InFlow(s);
    hide TopIndent, BlockAt, QuotedAt, TagAt, DirectiveAt;
  }

  lemma RewoundObey(c: Called, s: Scan, m: Mark)
    requires CanAct(s) && (c.Called? ==> Scans(c.action))
    ensures CanAct(Rewound(s)) && Obey(c, Rewound(s), m) == RewoundStep(Obey(c, s, m))
  {
    RewoundPoints(s);
    if c.Called? {
      RewoundAct(s, c.action, m);
    }
    hide Act, PointersOk;
  }

  /** The next token is the same, whatever was handed out before. */
  lemma RewoundToken(t: string, p: Place)
    requires Sound(p.scan) && p.scan.started && !p.scan.ended
    ensures Sound(Rewound(p.scan)) && TokenFrom(t, RewoundPlace(p)) == RewoundStep(TokenFrom(t, p))
  {
    hide Sound, PointersOk, Gap, PopIndentToHere, EndStream, CalledFor, Obey, BranchAt;
    RewoundSound(p.scan);
    RewoundGap(t, p);
    var gap := Gap(t, p);
    GapKeeps(t, p);
    SoundPointsInside(gap.scan);
    var atEntry := Exp.BlockEntry(t, gap.mark.pos);
    RewoundOutdent(gap.scan, gap.mark.column, atEntry);
    OutdentCanAct(gap.scan, gap.mark.column, atEntry);
    var outdented := PopIndentToHere(gap.scan, gap.mark.column, atEntry);
    RewoundMarker(outdented, Item(DOC_END, VALID, ""));
    if gap.mark.pos < |t| {
      var b := BranchAt(t, gap.mark, InFlow(outdented), outdented.canBeJSONFlow);
      RewoundCalled(b, t, gap.mark, outdented);
      RewoundObey(CalledFor(b, t, gap.mark, outdented), outdented, gap.mark);
    }
  }

  // All tokens

  lemma CalledEnds(t: string, m: Mark, s: Scan)
    requires m.pos < |t|
    ensures var c := CalledFor(BranchAt(t, m, InFlow(s), s.canBeJSONFlow), t, m, s); c.Called? ==> c.end.pos > m.pos
  {
    hide BlockAt, QuotedAt, ReadScalar, DirectiveAt, TagAt, PlainParams, StopsAt, AfterMany;
    var b := BranchAt(t, m, InFlow(s), s.canBeJSONFlow);
    if b == AtPlain {
      PlainBranch(t, m, InFlow(s), s.canBeJSONFlow);
      NoValueInFlow(t, m.pos, InFlow(s), s.canBeJSONFlow);
      PlainDoesNotStop(t, m, InFlow(s), TopIndent(s), s.canBeJSONFlow);
      var p := PlainParams(InFlow(s), TopIndent(s));
      if ReadScalar(t, m, p).ScalarEnds? {
        ScalarMoves(t, m, p);
      }
    } else if b == AtTag && TagAt(t, m.pos + 1).TagText? {
      TagEnds(t, m.pos + 1);
    }
    hide BranchAt;
  }

  lemma TagEnds(t: string, i: nat)
    requires i <= |t| && TagAt(t, i).TagText?
    ensures TagAt(t, i).end >= i
  {
  }

  lemma PlainBranch(t: string, m: Mark, inFlow: bool, canBeJSONFlow: bool)
    requires BranchAt(t, m, inFlow, canBeJSONFlow) == AtPlain
    ensures !(m.column == 0 && Exp.DocIndicator(t, m.pos)) && !IsValue(t, m.pos, inFlow, canBeJSONFlow)
    ensures if inFlow then Exp.PlainScalarInFlow(t, m.pos) else Exp.PlainScalar(t, m.pos)
  {
    hide Exp.PlainScalar, Exp.PlainScalarInFlow, IsValue, Exp.BlockEntry, Exp.Key;
  }

  /** A scan that does not throw ends the stream or reads on. */
  lemma TokenLeads(t: string, p: Place)
    requires Sound(p.scan) && p.scan.started && !p.scan.ended && TokenFrom(t, p).Leads?
    ensures var q := TokenFrom(t, p).place;
            && Sound(q.scan) && q.scan.started && q.mark.pos >= p.mark.pos
            && (q.scan.ended || (p.mark.pos < |t| && q.mark.pos > p.mark.pos))
  {
    hide Sound, PointersOk, Gap, PopIndentToHere, CalledFor, BranchAt, Act;
    var gap := Gap(t, p);
    GapKeeps(t, p);
    GapMoves(t, p);
    SoundPointsInside(gap.scan);
    var atEntry := Exp.BlockEntry(t, gap.mark.pos);
    OutdentCanAct(gap.scan, gap.mark.column, atEntry);
    OutdentSound(gap.scan, gap.mark.column, atEntry);
    var outdented := PopIndentToHere(gap.scan, gap.mark.column, atEntry);
    MarkerSound(outdented, Item(DOC_END, VALID, ""));
    if gap.mark.pos < |t| {
      var c := CalledFor(BranchAt(t, gap.mark, InFlow(outdented), outdented.canBeJSONFlow), t, gap.mark, outdented);
      CalledEnds(t, gap.mark, outdented);
      ScansEnabled(outdented, c.action);
      ActSound(outdented, c.action, gap.mark);
      StartedSound(Act(outdented, c.action, gap.mark).scan);
    } else {
      StartedSound(EndStream(outdented));
    }
  }

  lemma ScansEnabled(s: Scan, a: Action)
    requires CanAct(s) && Scans(a)
    ensures Enabled(s, a)
  {
  }

  lemma {:induction false} GapMoves(t: string, p: Place)
    requires Sound(p.scan)
    ensures Gap(t, p).mark.pos >= p.mark.pos
    decreases |t| - p.mark.pos
  {
    hide Sound;
    var q := Blanks(t, p);
    BlanksSound(t, p);
    BreakSound(q.scan);
    var m := Comment(t, q.mark);
    if Exp.IsBreak(Exp.At(t, m.pos)) {
      GapMoves(t, Place(EatBreak(q.scan), AfterMany(t, m, Exp.Break(t, m.pos))));
    }
  }

  function LeftOf(t: string, m: Mark): nat {
    if m.pos < |t| then |t| - m.pos else 0
  }

  /** Where scanning ends, or the state of the scan that throws. */
  datatype Remainder = Remainder(place: Place, threw: bool)

  function RewoundRemainder(r: Remainder): Remainder {
    r.(place := RewoundPlace(r.place))
  }

  /** Token after token, to the end of the text. */
  ghost function ScanOn(t: string, p: Place): (r: Remainder)
    requires Sound(p.scan)
    decreases LeftOf(t, p.mark), if p.scan.ended then 0 else 1
  {
    StartedSound(p.scan);
    if p.scan.ended then Remainder(p, false)
    else
      match TokenFrom(t, p)
      case Throws => Remainder(p, true)
      case Leads(q) => TokenLeads(t, p); ScanOn(t, q)
  }

  lemma {:induction false} RewoundScan(t: string, p: Place)
    requires Sound(p.scan)
    ensures Sound(Rewound(p.scan)) && ScanOn(t, RewoundPlace(p)) == RewoundRemainder(ScanOn(t, p))
    decreases LeftOf(t, p.mark), if p.scan.ended then 0 else 1
  {
    hide Sound, TokenFrom;
    RewoundSound(p.scan);
    StartedSound(p.scan);
    if !p.scan.ended {
      RewoundToken(t, p);
      if TokenFrom(t, p).Leads? {
        TokenLeads(t, p);
        RewoundScan(t, TokenFrom(t, p).place);
      }
    }
  }

  /**
   * What is handed out in all, INVALID tokens left out. If scanning throws, it does so to decide the token in
   * front, so that the first undecided one and what is behind it never leave the queue.
   */
  function HandedOutOf(r: Remainder): seq<Item> {
    var all := r.place.scan.all;
    Kept(if r.threw then all[..Decided(all)] else all)
  }

  /** `threw` is whether asking for one token more throws. */
  datatype Tokenized = Tokenized(items: seq<Item>, threw: bool)

  /** All tokens of a text, or those handed out before scanning it throws. */
  ghost function TokensOf(t: string): Tokenized {
    StartSound();
    var r := ScanOn(t, Place(StartStream(INITIAL), Mark(0, 0, 0)));
    Tokenized(HandedOutOf(r), r.threw)
  }
}
