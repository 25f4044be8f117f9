/** What the characters at a position call for: the white space before a token, and the token itself. */
module ScannerBranches {
  import opened Tokens
  import opened Streaming
  import opened ScannerState
  import opened ScannerSteps
  import opened ScannerInvariant
  import opened ScannerSound
  import opened ScalarReading
  import opened TokenText
  import Exp

  /** A scanner's state and where its input stands. */
  datatype Place = Place(scan: Scan, mark: Mark)

  // Between tokens

  function Blanks(t: string, p: Place): (q: Place)
    ensures q.mark.pos >= p.mark.pos
    decreases |t| - p.mark.pos
  {
    if p.mark.pos < |t| && Exp.IsBlank(t[p.mark.pos]) then
      Blanks(t, Place(if t[p.mark.pos] == '\t' then EatTab(p.scan) else p.scan, After(t, p.mark)))
    else p
  }

  lemma {:induction false} BlanksSound(t: string, p: Place)
    requires Sound(p.scan)
    ensures Sound(Blanks(t, p).scan)
    decreases |t| - p.mark.pos
  {
    hide Sound;
    BreakSound(p.scan);
    if p.mark.pos < |t| && Exp.IsBlank(t[p.mark.pos]) {
      BlanksSound(t, Place(if t[p.mark.pos] == '\t' then EatTab(p.scan) else p.scan, After(t, p.mark)));
    }
  }

  /** Blanks, comments and breaks up to the next token; each break decides the pending key. */
  function Gap(t: string, p: Place): (q: Place)
    requires Sound(p.scan)
    ensures Sound(q.scan)
    decreases |t| - p.mark.pos
  {
    var q := Blanks(t, p);
    BlanksSound(t, p);
    BreakSound(q.scan);
    var m := Comment(t, q.mark);
    if Exp.IsBreak(Exp.At(t, m.pos)) then Gap(t, Place(EatBreak(q.scan), AfterMany(t, m, Exp.Break(t, m.pos))))
    else Place(q.scan, m)
  }

  // The branches of ScanNextToken

  datatype Branch =
    | AtDirective | AtDocStart | AtDocEnd | AtFlowStart | AtFlowEnd | AtFlowEntry | AtBlockEntry | AtKey | AtValue
    | AtAnchor | AtTag | AtBlockScalar | AtQuoted | AtPlain | AtNothing

  predicate IsValue(t: string, i: nat, inFlow: bool, canBeJSONFlow: bool) {
    if !inFlow then Exp.Value(t, i) else if canBeJSONFlow then Exp.ValueInJSONFlow(t, i) else Exp.ValueInFlow(t, i)
  }

  function BranchAt(t: string, m: Mark, inFlow: bool, canBeJSONFlow: bool): Branch {
    var c := Exp.At(t, m.pos);
    if m.column == 0 && c == '%' then AtDirective
    else if m.column == 0 && Exp.DocStart(t, m.pos) then AtDocStart
    else if m.column == 0 && Exp.DocEnd(t, m.pos) then AtDocEnd
    else if c == '[' || c == '{' then AtFlowStart
    else if c == ']' || c == '}' then AtFlowEnd
    else if c == ',' then AtFlowEntry
    else NodeAt(t, m.pos, inFlow, canBeJSONFlow)
  }

  /** Where the character is no marker and no flow indicator. */
  function NodeAt(t: string, i: nat, inFlow: bool, canBeJSONFlow: bool): Branch {
    if Exp.BlockEntry(t, i) then AtBlockEntry
    else if Exp.Key(t, i) then AtKey
    else if IsValue(t, i, inFlow, canBeJSONFlow) then AtValue
    else ContentAt(t, i, inFlow)
  }

  /** Nor an indicator of an entry, a key or a value. */
  function ContentAt(t: string, i: nat, inFlow: bool): Branch {
    var c := Exp.At(t, i);
    if c == '*' || c == '&' then AtAnchor
    else if c == '!' then AtTag
    else ScalarAt(t, i, inFlow)
  }

  function ScalarAt(t: string, i: nat, inFlow: bool): Branch {
    var c := Exp.At(t, i);
    if !inFlow && (c == '|' || c == '>') then AtBlockScalar
    else if c == '\'' || c == '"' then AtQuoted
    else if (if inFlow then Exp.PlainScalarInFlow(t, i) else Exp.PlainScalar(t, i)) then AtPlain
    else AtNothing
  }

  /** What a branch calls for: an action, and where the input stands behind its token. */
  datatype Called = NoAction | Called(action: Action, end: Mark)

  /** The actions of a scan, those that follow from the text. */
  predicate Scans(a: Action) {
    && !a.Start? && !a.Dequeue?
    && (a.Marker? ==> a.token.status == VALID && a.token.kind in {DIRECTIVE, DOC_START, DOC_END})
    && (a.Property? ==> a.token.status == VALID && a.token.kind in {ANCHOR, ALIAS, TAG})
  }

  /** The action a branch calls for at m; none where the text holds no proper token. */
  function CalledFor(b: Branch, t: string, m: Mark, s: Scan): (r: Called)
    requires m.pos < |t|
    ensures r.Called? ==> Scans(r.action)
  {
    var c, one := t[m.pos], AfterMany(t, m, 1);
    match b
    case AtDirective =>
      Called(Marker(DirectiveAt(t, m.pos + 1)), AfterMany(t, m, ParamsEnd(t, WordEnd(t, m.pos + 1)) - m.pos))
    case AtDocStart => Called(Marker(Item(DOC_START, VALID, "")), AfterMany(t, m, 3))
    case AtDocEnd => Called(Marker(Item(DOC_END, VALID, "")), AfterMany(t, m, 3))
    case AtFlowStart => Called(FlowStart(if c == '[' then FLOW_SEQ else FLOW_MAP), one)
    case AtFlowEnd => Called(FlowEnd(if c == ']' then FLOW_SEQ else FLOW_MAP), one)
    case AtFlowEntry => Called(FlowEntry, one)
    case AtBlockEntry => Called(BlockEntry, one)
    case AtKey => Called(Key, one)
    case AtValue => Called(Value, one)
    case AtNothing => NoAction
    case _ => CalledForContent(b, t, m, s)
  }

  /** Names, tags and scalars. */
  function CalledForContent(b: Branch, t: string, m: Mark, s: Scan): (r: Called)
    requires m.pos < |t|
    ensures r.Called? ==> Scans(r.action)
  {
    match b
    case AtAnchor =>
      var j := AnchorRun(t, m.pos + 1);
      if j == m.pos + 1 || !EndsAnchor(t, j) then NoAction
      else
        var kind := if t[m.pos] == '*' then ALIAS else ANCHOR;
        Called(Property(Item(kind, VALID, t[m.pos + 1..j])), AfterMany(t, m, j - m.pos))
    case AtTag =>
      var tag := TagAt(t, m.pos + 1);
      if tag.BadTag? then NoAction
      else
        TagIsTag(t, m.pos + 1);
        Called(Property(tag.token), AfterMany(t, m, tag.end - m.pos))
    case AtBlockScalar =>
      var r := BlockAt(t, m, TopIndent(s));
      if r.ScalarThrows? then NoAction else Called(Literal(r.value), r.mark)
    case AtQuoted =>
      var r := QuotedAt(t, m);
      if r.ScalarThrows? then NoAction else Called(Quoted(r.value), r.mark)
    case AtPlain =>
      var r := ReadScalar(t, m, PlainParams(InFlow(s), TopIndent(s)));
      if r.ScalarThrows? then NoAction else Called(Plain(r.leadingSpaces, r.value), r.mark)
    case _ => NoAction
  }

  /** Where the input stands and what the state is after a scan that did not throw. */
  datatype Stepped = Throws | Leads(place: Place)

  ghost predicate CanAct(s: Scan) {
    PointersOk(s) && s.indents != [] && s.started && !s.ended
  }

  /** The action is taken, unless there is none or it throws. */
  ghost function Obey(c: Called, s: Scan, m: Mark): Stepped
    requires CanAct(s) && (c.Called? ==> Scans(c.action))
  {
    if c.NoAction? then Throws
    else
      match Act(s, c.action, m)
      case Threw => Throws
      case Next(s') => Leads(Place(s', c.end))
  }

  /**
   * One token more, in a stream that was started and has not ended: the gap in front of it, the blocks that end
   * there, and then the token, or the end.
   */
  ghost function TokenFrom(t: string, before: Place): Stepped
    requires Sound(before.scan) && before.scan.started && !before.scan.ended
  {
    var gap := Gap(t, before);
    GapKeeps(t, before);
    SoundPointsInside(gap.scan);
    var outdented := PopIndentToHere(gap.scan, gap.mark.column, Exp.BlockEntry(t, gap.mark.pos));
    OutdentCanAct(gap.scan, gap.mark.column, Exp.BlockEntry(t, gap.mark.pos));
    if gap.mark.pos >= |t| then Leads(Place(EndStream(outdented), gap.mark.(column := 0)))
    else
      Obey(CalledFor(BranchAt(t, gap.mark, InFlow(outdented), outdented.canBeJSONFlow), t, gap.mark, outdented), outdented, gap.mark)
  }

  lemma OutdentCanAct(s: Scan, column: nat, atBlockEntry: bool)
    requires Sound(s) && PointersOk(s) && s.started && !s.ended
    ensures CanAct(PopIndentToHere(s, column, atBlockEntry))
  {
    hide Sound, PointersOk;
    OutdentSound(s, column, atBlockEntry);
    if InFlow(s) {
      SoundPointsInside(s);
    } else {
      PopToColumnSound(s, column, atBlockEntry);
      PopInvalidSound(PopToColumn(s, column, atBlockEntry), column);
      StartedSound(PopIndentToHere(s, column, atBlockEntry));
    }
  }

  lemma StartedSound(s: Scan)
    requires Sound(s)
    ensures s.started
  {
  }

  lemma {:induction false} BlanksKeep(t: string, p: Place)
    ensures var s := Blanks(t, p).scan; s.started == p.scan.started && s.ended == p.scan.ended
    decreases |t| - p.mark.pos
  {
    if p.mark.pos < |t| && Exp.IsBlank(t[p.mark.pos]) {
      BlanksKeep(t, Place(if t[p.mark.pos] == '\t' then EatTab(p.scan) else p.scan, After(t, p.mark)));
    }
  }

  lemma {:induction false} GapKeeps(t: string, p: Place)
    requires Sound(p.scan)
    ensures var s := Gap(t, p).scan; s.started == p.scan.started && s.ended == p.scan.ended
    decreases |t| - p.mark.pos
  {
    hide Sound;
    var q := Blanks(t, p);
    BlanksSound(t, p);
    BlanksKeep(t, p);
    BreakSound(q.scan);
    BreakKeeps(q.scan);
    var m := Comment(t, q.mark);
    if Exp.IsBreak(Exp.At(t, m.pos)) {
      GapKeeps(t, Place(EatBreak(q.scan), AfterMany(t, m, Exp.Break(t, m.pos))));
    }
  }

  lemma BreakKeeps(s: Scan)
    requires PointersOk(s)
    ensures EatBreak(s).started == s.started && EatBreak(s).ended == s.ended
  {
  }

  lemma NoValueInFlow(t: string, i: nat, inFlow: bool, canBeJSONFlow: bool)
    requires !IsValue(t, i, inFlow, canBeJSONFlow)
    ensures inFlow ==> !(if canBeJSONFlow then Exp.ValueInJSONFlow(t, i) else Exp.ValueInFlow(t, i))
  {
  }

  /** Where a plain scalar may begin, and no value indicator or document marker is, it does not end at once. */
  lemma PlainDoesNotStop(t: string, m: Mark, inFlow: bool, topIndent: int, canBeJSONFlow: bool)
    requires !(m.column == 0 && Exp.DocIndicator(t, m.pos))
    requires if inFlow then Exp.PlainScalarInFlow(t, m.pos) else Exp.PlainScalar(t, m.pos)
    requires inFlow ==> !(if canBeJSONFlow then Exp.ValueInJSONFlow(t, m.pos) else Exp.ValueInFlow(t, m.pos))
    ensures !StopsAt(t, m, PlainParams(inFlow, topIndent))
  {
  }
}
