/**
 * The state of a Scanner and what its private steps do to it. A token pointer is a position in `all`,
 * the tokens ever enqueued; the queue itself is all[front..]. An indent pointer is a position in `refs`,
 * the markers kept alive for garbage collection.
 */
module ScannerState {
  import opened Tokens

  datatype Status = VALID | INVALID | UNVERIFIED

  /** `tag` is the kind of a tag; `params` are the parameters of a directive, or the suffix of a tag with a named handle. */
  datatype Item = Item(kind: TokenType, status: Status, value: string, tag: TagKind := VERBATIM, params: seq<string> := [])

  datatype IndentType = MAP | SEQ | NONE

  datatype IndentStatus = Valid | Invalid | Unknown

  datatype Pointer = Nil | To(at: nat)

  datatype Indent = Indent(column: int, kind: IndentType, status: IndentStatus, start: Pointer)

  datatype Mark = Mark(pos: nat, line: nat, column: nat)

  datatype SimpleKey = SimpleKey(mark: Mark, flowLevel: nat, indent: Pointer, mapStart: Pointer, key: nat)

  datatype Flow = FLOW_MAP | FLOW_SEQ

  datatype Scan = Scan(
    all: seq<Item>, front: nat, started: bool, ended: bool, simpleKeyAllowed: bool, canBeJSONFlow: bool,
    simpleKeys: seq<SimpleKey>, refs: seq<Indent>, indents: seq<nat>, flows: seq<Flow>)

  const INITIAL := Scan([], 0, false, false, false, false, [], [], [], [])

  predicate InFlow(s: Scan) {
    s.flows != []
  }

  /** Every pointer the steps follow points somewhere. */
  ghost predicate PointersOk(s: Scan) {
    && s.front <= |s.all|
    && (forall i :: 0 <= i < |s.indents| ==> s.indents[i] < |s.refs|)
    && (forall k :: 0 <= k < |s.simpleKeys| ==> KeyPointsInside(s, s.simpleKeys[k]))
  }

  ghost predicate KeyPointsInside(s: Scan, k: SimpleKey) {
    && k.key < |s.all|
    && (k.mapStart.To? ==> k.mapStart.at < |s.all|)
    && (k.indent.To? ==> k.indent.at < |s.refs|)
  }

  // Tokens

  function Enqueue(s: Scan, token: Item): Scan {
    s.(all := s.all + [token])
  }

  function Push(s: Scan, kind: TokenType, value: string): Scan {
    Enqueue(s, Item(kind, VALID, value))
  }

  function PushUnverified(s: Scan, kind: TokenType): Scan {
    s.(all := s.all + [Item(kind, UNVERIFIED, "")])
  }

  function MarkToken(all: seq<Item>, p: Pointer, status: Status): seq<Item>
    requires p.To? ==> p.at < |all|
  {
    if p.To? then all[p.at := all[p.at].(status := status)] else all
  }

  function MarkIndent(refs: seq<Indent>, p: Pointer, status: IndentStatus): seq<Indent>
    requires p.To? ==> p.at < |refs|
  {
    if p.To? then refs[p.at := refs[p.at].(status := status)] else refs
  }

  /** SimpleKey::Validate and SimpleKey::Invalidate. */
  function Resolve(s: Scan, k: SimpleKey, valid: bool): Scan
    requires KeyPointsInside(s, k)
  {
    var status := if valid then VALID else INVALID;
    s.(refs := MarkIndent(s.refs, k.indent, if valid then Valid else Invalid),
       all := MarkToken(MarkToken(s.all, k.mapStart, status), To(k.key), status))
  }

  // Indents

  function Top(s: Scan): Indent
    requires s.indents != [] && PointersOk(s)
  {
    s.refs[s.indents[|s.indents| - 1]]
  }

  predicate StartsIndent(last: Indent, column: int, kind: IndentType) {
    column > last.column || (column == last.column && kind == SEQ && last.kind == MAP)
  }

  function StartTokenFor(kind: IndentType): TokenType {
    if kind == SEQ then BLOCK_SEQ_START else BLOCK_MAP_START
  }

  /** PushIndentTo for an indent that will be `status`; the pointer is Nil when nothing was pushed. */
  function PushIndent(s: Scan, column: int, kind: IndentType, status: IndentStatus): (Scan, Pointer)
    requires s.indents != [] && PointersOk(s)
  {
    if InFlow(s) || !StartsIndent(Top(s), column, kind) then (s, Nil)
    else
      var s1 := if status == Unknown then PushUnverified(s, StartTokenFor(kind)) else Push(s, StartTokenFor(kind), "");
      (s1.(refs := s.refs + [Indent(column, kind, status, To(|s.all|))], indents := s.indents + [|s.refs|]), To(|s.refs|))
  }

  // Simple keys

  predicate CanInsertPotentialSimpleKey(s: Scan) {
    s.simpleKeyAllowed && !ExistsActiveSimpleKey(s)
  }

  predicate ExistsActiveSimpleKey(s: Scan) {
    s.simpleKeys != [] && s.simpleKeys[|s.simpleKeys| - 1].flowLevel == |s.flows|
  }

  function InsertPotentialSimpleKey(s: Scan, m: Mark): Scan
    requires s.indents != [] && PointersOk(s)
  {
    if !CanInsertPotentialSimpleKey(s) then s
    else
      var (s1, indent) := PushIndent(s, m.column, MAP, Unknown);
      var mapStart := if indent.To? then To(|s.all|) else Nil;
      var s2 := PushUnverified(s1, KEY);
      s2.(simpleKeys := s.simpleKeys + [SimpleKey(m, |s.flows|, indent, mapStart, |s1.all|)])
  }

  function InvalidateSimpleKey(s: Scan): Scan
    requires PointersOk(s)
  {
    if !ExistsActiveSimpleKey(s) then s
    else
      var last := |s.simpleKeys| - 1;
      Resolve(s, s.simpleKeys[last], false).(simpleKeys := s.simpleKeys[..last])
  }

  const MAX_KEY_LENGTH := 1024

  function VerifySimpleKey(s: Scan, m: Mark): (Scan, bool)
    requires PointersOk(s)
  {
    if !ExistsActiveSimpleKey(s) then (s, false)
    else
      var last := |s.simpleKeys| - 1;
      var key := s.simpleKeys[last];
      var valid := m.line == key.mark.line && m.pos - key.mark.pos <= MAX_KEY_LENGTH;
      (Resolve(s, key, valid).(simpleKeys := s.simpleKeys[..last]), valid)
  }

  // Leaving indents

  function PopIndent(s: Scan): Scan
    requires s.indents != [] && PointersOk(s)
  {
    var indent := Top(s);
    var s1 := s.(indents := s.indents[..|s.indents| - 1]);
    if indent.status != Valid then InvalidateSimpleKey(s1)
    else if indent.kind == SEQ then Push(s1, BLOCK_SEQ_END, "")
    else if indent.kind == MAP then Push(s1, BLOCK_MAP_END, "")
    else s1
  }

  lemma InvalidateKeepsPointers(s: Scan)
    requires PointersOk(s)
    ensures PointersOk(InvalidateSimpleKey(s)) && InvalidateSimpleKey(s).indents == s.indents
    ensures InvalidateSimpleKey(s).flows == s.flows
  {
    var s' := InvalidateSimpleKey(s);
    assert |s'.all| == |s.all| && |s'.refs| == |s.refs| && s'.front == s.front && |s'.simpleKeys| <= |s.simpleKeys|;
    assert forall k :: 0 <= k < |s'.simpleKeys| ==> s'.simpleKeys[k] == s.simpleKeys[k];
  }

  lemma PopIndentKeepsPointers(s: Scan)
    requires s.indents != [] && PointersOk(s)
    ensures PointersOk(PopIndent(s)) && PopIndent(s).indents == s.indents[..|s.indents| - 1]
    ensures PopIndent(s).flows == s.flows
  {
    hide InvalidateSimpleKey;
    InvalidateKeepsPointers(s.(indents := s.indents[..|s.indents| - 1]));
  }

  /** The first loop of PopIndentToHere: indents right of the column, and a sequence that has ended. */
  function PopToColumn(s: Scan, column: int, atBlockEntry: bool): Scan
    requires PointersOk(s)
    decreases |s.indents|
  {
    if s.indents == [] || Top(s).column < column ||
       (Top(s).column == column && !(Top(s).kind == SEQ && !atBlockEntry)) then s
    else
      PopIndentKeepsPointers(s);
      PopToColumn(PopIndent(s), column, atBlockEntry)
  }

  /** The second loop: indents whose key turned out not to be one. */
  function PopInvalid(s: Scan): Scan
    requires PointersOk(s)
    decreases |s.indents|
  {
    if s.indents == [] || Top(s).status != Invalid then s
    else
      PopIndentKeepsPointers(s);
      PopInvalid(PopIndent(s))
  }

  function PopIndentToHere(s: Scan, column: int, atBlockEntry: bool): Scan
    requires PointersOk(s)
  {
    if InFlow(s) then s
    else
      PopToColumnKeepsPointers(s, column, atBlockEntry);
      PopInvalid(PopToColumn(s, column, atBlockEntry))
  }

  lemma {:induction false} PopToColumnKeepsPointers(s: Scan, column: int, atBlockEntry: bool)
    requires PointersOk(s)
    ensures PointersOk(PopToColumn(s, column, atBlockEntry))
    decreases |s.indents|
  {
    if s.indents != [] {
      PopIndentKeepsPointers(s);
      PopToColumnKeepsPointers(PopIndent(s), column, atBlockEntry);
    }
  }

  function PopToNone(s: Scan): Scan
    requires PointersOk(s)
    decreases |s.indents|
  {
    if s.indents == [] || Top(s).kind == NONE then s
    else
      PopIndentKeepsPointers(s);
      PopToNone(PopIndent(s))
  }

  function PopAllIndents(s: Scan): Scan
    requires PointersOk(s)
  {
    if InFlow(s) then s else PopToNone(s)
  }
}
