/** The scanner's transitions, one for each way the text can drive it, and its runs. */
module ScannerSteps {
  import opened Tokens
  import opened ScannerState

  datatype Next = Threw | Next(scan: Scan)

  function PopAllSimpleKeys(s: Scan): Scan {
    s.(simpleKeys := [])
  }

  function Flags(s: Scan, simpleKeyAllowed: bool, canBeJSONFlow: bool): Scan {
    s.(simpleKeyAllowed := simpleKeyAllowed, canBeJSONFlow := canBeJSONFlow)
  }

  function StartStream(s: Scan): Scan {
    s.(started := true, simpleKeyAllowed := true,
       refs := s.refs + [Indent(-1, NONE, Valid, Nil)], indents := s.indents + [|s.refs|])
  }

  function EndStream(s: Scan): Scan
    requires PointersOk(s)
  {
    PopAllSimpleKeys(PopAllIndents(s)).(simpleKeyAllowed := false, ended := true)
  }

  /** A directive, "---" or "...". */
  function ScanMarker(s: Scan, token: Item): Scan
    requires PointersOk(s)
  {
    Enqueue(Flags(PopAllSimpleKeys(PopAllIndents(s)), false, false), token)
  }

  function ScanFlowStart(s: Scan, m: Mark, flow: Flow): Scan
    requires s.indents != [] && PointersOk(s)
  {
    var s1 := Flags(InsertPotentialSimpleKey(s, m), true, false);
    Push(s1.(flows := s1.flows + [flow]), if flow == FLOW_SEQ then FLOW_SEQ_START else FLOW_MAP_START, "")
  }

  /** A flow map entry without a value, or the end of a flow sequence entry. */
  function CloseFlowEntry(s: Scan, m: Mark): Scan
    requires PointersOk(s)
  {
    if !InFlow(s) then s
    else if s.flows[|s.flows| - 1] == FLOW_MAP then
      var (s1, isKey) := VerifySimpleKey(s, m);
      if isKey then Push(s1, VALUE, "") else s1
    else InvalidateSimpleKey(s)
  }

  function ScanFlowEnd(s: Scan, m: Mark, flow: Flow): Next
    requires PointersOk(s)
  {
    if !InFlow(s) then Threw
    else
      var s1 := Flags(CloseFlowEntry(s, m), false, true);
      var last := |s1.flows| - 1;
      if s1.flows[last] != flow then Threw
      else Next(Push(s1.(flows := s1.flows[..last]), if flow == FLOW_SEQ then FLOW_SEQ_END else FLOW_MAP_END, ""))
  }

  function ScanFlowEntry(s: Scan, m: Mark): Scan
    requires PointersOk(s)
  {
    Push(Flags(CloseFlowEntry(s, m), true, false), FLOW_ENTRY, "")
  }

  function ScanBlockEntry(s: Scan, m: Mark): Next
    requires s.indents != [] && PointersOk(s)
  {
    if InFlow(s) || !s.simpleKeyAllowed then Threw
    else Next(Push(Flags(PushIndent(s, m.column, SEQ, Valid).0, true, false), BLOCK_ENTRY, ""))
  }

  function ScanKey(s: Scan, m: Mark): Next
    requires s.indents != [] && PointersOk(s)
  {
    if !InFlow(s) && !s.simpleKeyAllowed then Threw
    else
      var s1 := PushIndent(s, m.column, MAP, Valid).0;
      Next(Push(s1.(simpleKeyAllowed := !InFlow(s)), KEY, ""))
  }

  function ScanValue(s: Scan, m: Mark): Next
    requires s.indents != [] && PointersOk(s)
  {
    var (s1, isKey) := VerifySimpleKey(s, m);
    if isKey then Next(Push(Flags(s1, false, false), VALUE, ""))
    else if !InFlow(s) && !s.simpleKeyAllowed then Threw
    else Next(Push(Flags(PushIndent(s1, m.column, MAP, Valid).0, !InFlow(s), false), VALUE, ""))
  }

  /** An anchor, an alias or a tag. */
  function ScanProperty(s: Scan, m: Mark, token: Item): Scan
    requires s.indents != [] && PointersOk(s)
  {
    Enqueue(Flags(InsertPotentialSimpleKey(s, m), false, false), token)
  }

  function ScanPlainScalar(s: Scan, m: Mark, leadingSpaces: bool, value: string): Scan
    requires s.indents != [] && PointersOk(s)
  {
    Push(Flags(InsertPotentialSimpleKey(s, m), leadingSpaces, false), PLAIN_SCALAR, value)
  }

  function ScanQuotedScalar(s: Scan, m: Mark, value: string): Scan
    requires s.indents != [] && PointersOk(s)
  {
    Push(Flags(InsertPotentialSimpleKey(s, m), false, true), NON_PLAIN_SCALAR, value)
  }

  function ScanBlockScalar(s: Scan, value: string): Scan {
    Push(Flags(s, true, false), NON_PLAIN_SCALAR, value)
  }

  /** A line break between tokens. */
  function EatBreak(s: Scan): Scan
    requires PointersOk(s)
  {
    var s1 := InvalidateSimpleKey(s);
    if InFlow(s) then s1 else s1.(simpleKeyAllowed := true)
  }

  function EatTab(s: Scan): Scan {
    if InFlow(s) then s else s.(simpleKeyAllowed := false)
  }

  predicate CanDequeue(s: Scan) {
    s.front < |s.all| && (s.all[s.front].status != UNVERIFIED || s.ended)
  }

  datatype Action =
    | Start
    | Tab
    | Break
    | Outdent(atBlockEntry: bool)
    | End
    | Marker(token: Item)
    | FlowStart(flow: Flow)
    | FlowEnd(flow: Flow)
    | FlowEntry
    | BlockEntry
    | Key
    | Value
    | Property(token: Item)
    | Plain(leadingSpaces: bool, value: string)
    | Quoted(value: string)
    | Literal(value: string)
    | Dequeue

  /** When the scanner can take an action: it starts once, first, and scans nothing after the end. */
  predicate Enabled(s: Scan, a: Action) {
    match a
    case Start => !s.started
    case Dequeue => CanDequeue(s)
    case Marker(token) => s.started && !s.ended && token.status == VALID && token.kind in {DIRECTIVE, DOC_START, DOC_END}
    case Property(token) => s.started && !s.ended && token.status == VALID && token.kind in {ANCHOR, ALIAS, TAG}
    case _ => s.started && !s.ended
  }

  function Act(s: Scan, a: Action, m: Mark): Next
    requires PointersOk(s) && Enabled(s, a) && (s.started ==> s.indents != [])
  {
    match a
    case Start => Next(StartStream(s))
    case Tab => Next(EatTab(s))
    case Break => Next(EatBreak(s))
    case Outdent(atBlockEntry) => Next(PopIndentToHere(s, m.column, atBlockEntry))
    case End => Next(EndStream(s))
    case Marker(token) => Next(ScanMarker(s, token))
    case FlowStart(flow) => Next(ScanFlowStart(s, m, flow))
    case FlowEnd(flow) => ScanFlowEnd(s, m, flow)
    case FlowEntry => Next(ScanFlowEntry(s, m))
    case BlockEntry => ScanBlockEntry(s, m)
    case Key => ScanKey(s, m)
    case Value => ScanValue(s, m)
    case Property(token) => Next(ScanProperty(s, m, token))
    case Plain(leadingSpaces, value) => Next(ScanPlainScalar(s, m, leadingSpaces, value))
    case Quoted(value) => Next(ScanQuotedScalar(s, m, value))
    case Literal(value) => Next(ScanBlockScalar(s, value))
    case Dequeue => Next(s.(front := s.front + 1))
  }

  /** Inside a flow, an undecided block start waits for the key in front of the outermost flow. */
  predicate StartWaits(s: Scan) {
    InFlow(s) && s.simpleKeys != [] && s.simpleKeys[0].indent.To?
  }

  /** The one action that spoils the nesting: a marker inside a flow, which makes the scanner forget its keys. */
  predicate ForgetsStart(s: Scan, a: Action) {
    a.Marker? && StartWaits(s)
  }
}
