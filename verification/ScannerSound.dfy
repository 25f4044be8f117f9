/** What every run of the scanner keeps, also one in which a marker or the end of the text comes inside a flow. */
module ScannerSound {
  import opened Tokens
  import opened ScannerState
  import opened ScannerSteps
  import opened ScannerInvariant

  lemma PushSound(s: Scan, token: Item)
    requires Sound(s)
    ensures Sound(s.(all := s.all + [token]))
  {
    var s' := s.(all := s.all + [token]);
    assert forall k :: KeyOk(s, k) ==> KeyOk(s', k);
  }

  lemma FlagsSound(s: Scan, simpleKeyAllowed: bool, canBeJSONFlow: bool)
    requires Sound(s)
    ensures Sound(Flags(s, simpleKeyAllowed, canBeJSONFlow))
  {
    var s' := Flags(s, simpleKeyAllowed, canBeJSONFlow);
    assert forall k :: KeyOk(s, k) ==> KeyOk(s', k);
  }

  lemma PushIndentSound(s: Scan, column: int, kind: IndentType)
    requires Sound(s) && column >= 0 && kind != NONE
    ensures PointersOk(s) && s.indents != [] && Sound(PushIndent(s, column, kind, Valid).0)
  {
    SoundPointsInside(s);
    PushIndentOrders(s, column, kind, Valid);
    var s' := PushIndent(s, column, kind, Valid).0;
    hide IndentsOrdered;
    forall i | 0 <= i < |s.simpleKeys|
      ensures KeyOk(s', s.simpleKeys[i])
    {
      assert KeyOk(s, s.simpleKeys[i]);
      PushIndentPreservesKey(s, column, kind, Valid, s.simpleKeys[i]);
    }
  }

  lemma InsertOrders(s: Scan, m: Mark)
    requires Sound(s) && PointersOk(s) && s.indents != [] && CanInsertPotentialSimpleKey(s)
    ensures IndentsOrdered(InsertPotentialSimpleKey(s, m))
  {
    PushIndentOrders(s, m.column, MAP, Unknown);
    var s1 := PushIndent(s, m.column, MAP, Unknown).0;
    var s' := InsertPotentialSimpleKey(s, m);
    hide PushIndent, KeysOk;
    assert s'.all == s1.all + [Item(KEY, UNVERIFIED, "")];
  }

  lemma InsertSound(s: Scan, m: Mark)
    requires Sound(s) && !s.ended
    ensures PointersOk(s) && s.indents != [] && Sound(InsertPotentialSimpleKey(s, m))
  {
    SoundPointsInside(s);
    if CanInsertPotentialSimpleKey(s) {
      InsertOrders(s, m);
      InsertKeysOk(s, m);
      hide IndentsOrdered, KeysOk;
    }
  }

  lemma ResolveSound(s: Scan, valid: bool)
    requires Sound(s) && s.simpleKeys != []
    ensures PointersOk(s) && Sound(ResolveTop(s, valid))
  {
    SoundPointsInside(s);
    ResolveKeepsKeys(s, valid);
    assert KeyOk(s, s.simpleKeys[|s.simpleKeys| - 1]);
    ResolveKeepsOrder(s, s.simpleKeys[|s.simpleKeys| - 1], valid);
    hide KeysOk;
  }

  lemma InvalidateSound(s: Scan)
    requires Sound(s)
    ensures PointersOk(s) && Sound(InvalidateSimpleKey(s))
  {
    SoundPointsInside(s);
    if ExistsActiveSimpleKey(s) {
      ResolveSound(s, false);
    }
  }

  lemma VerifySound(s: Scan, m: Mark)
    requires Sound(s)
    ensures PointersOk(s) && Sound(VerifySimpleKey(s, m).0)
  {
    SoundPointsInside(s);
    if ExistsActiveSimpleKey(s) {
      ResolveSound(s, VerifySimpleKey(s, m).1);
    }
  }

  /** In block context at most one key waits, so invalidating it leaves none. */
  lemma NoKeyIsLeft(s: Scan)
    requires Sound(s) && PointersOk(s) && !InFlow(s)
    ensures InvalidateSimpleKey(s).simpleKeys == []
  {
    hide IndentsOrdered;
    var n := |s.simpleKeys|;
    if n > 0 {
      assert s.simpleKeys[0].flowLevel == 0 && s.simpleKeys[n - 1].flowLevel == 0;
    }
  }

  lemma DropTopSound(s: Scan)
    requires Sound(s) && |s.indents| >= 2 && s.simpleKeys == []
    ensures Sound(s.(indents := s.indents[..|s.indents| - 1]))
  {
  }

  lemma PopIndentSound(s: Scan)
    requires Sound(s) && PointersOk(s) && s.indents != [] && !InFlow(s) && Top(s).kind != NONE
    ensures Sound(PopIndent(s)) && !InFlow(PopIndent(s)) && PopIndent(s).ended == s.ended
  {
    if Top(s).status == Valid {
      PopValidOrders(s);
      PopValidKeys(s);
      PopValidFrame(s);
    } else {
      InvalidateSound(s);
      NoKeyIsLeft(s);
      InvalidateAndPop(s);
      SoundTop(s);
      DropTopSound(InvalidateSimpleKey(s));
    }
    hide PopIndent, InvalidateSimpleKey, IndentsOrdered, KeysOk;
  }

  lemma SoundTop(s: Scan)
    requires Sound(s) && PointersOk(s) && s.indents != []
    ensures Top(s).column >= 0 || Top(s).status != Valid ==> Top(s).kind != NONE
    ensures Top(s).kind == NONE <==> |s.indents| == 1
  {
    hide KeysOk;
  }

  /** Where a loop over the indents may stop. */
  ghost predicate SoundlyLeft(s: Scan, s': Scan) {
    Sound(s') && !InFlow(s') && s'.ended == s.ended && s'.indents != [] && PointersOk(s')
  }

  lemma {:induction false} PopToColumnSound(s: Scan, column: int, atBlockEntry: bool)
    requires Sound(s) && PointersOk(s) && !InFlow(s) && column >= 0
    ensures var s' := PopToColumn(s, column, atBlockEntry);
            SoundlyLeft(s, s') && Top(s').column <= column && (Top(s').column == column && Top(s').kind == SEQ ==> atBlockEntry)
    decreases |s.indents|
  {
    SoundPointsInside(s);
    hide Sound, PointersOk, PopIndent;
    if Top(s).column >= column && !(Top(s).column == column && !(Top(s).kind == SEQ && !atBlockEntry)) {
      SoundTop(s);
      PopIndentSound(s);
      PopIndentKeepsPointers(s);
      PopToColumnSound(PopIndent(s), column, atBlockEntry);
    }
  }

  lemma BelowTopIsNotRight(s: Scan, column: int)
    requires Sound(s) && PointersOk(s) && s.indents != [] && !InFlow(s) && Top(s).kind != NONE && Top(s).column <= column
    ensures Sound(PopIndent(s)) && PointersOk(PopIndent(s)) && PopIndent(s).indents != [] && Top(PopIndent(s)).column <= column
  {
    PopIndentSound(s);
    PopIndentKeepsPointers(s);
    SoundTop(s);
    SoundPointsInside(PopIndent(s));
    hide KeysOk;
  }

  lemma {:induction false} PopInvalidSound(s: Scan, column: int)
    requires Sound(s) && PointersOk(s) && !InFlow(s) && s.indents != [] && Top(s).column <= column
    ensures var s' := PopInvalid(s); SoundlyLeft(s, s') && Top(s').column <= column && Top(s').status != Invalid
    decreases |s.indents|
  {
    hide Sound, PointersOk, PopIndent;
    if Top(s).status == Invalid {
      SoundTop(s);
      PopIndentSound(s);
      PopIndentKeepsPointers(s);
      BelowTopIsNotRight(s, column);
      PopInvalidSound(PopIndent(s), column);
    }
  }

  /** PopIndentToHere in block context: the top is at or left of the column, and its key was not refused. */
  lemma OutdentSound(s: Scan, column: int, atBlockEntry: bool)
    requires Sound(s) && column >= 0
    ensures PointersOk(s)
    ensures var s' := PopIndentToHere(s, column, atBlockEntry);
            && Sound(s') && PointersOk(s') && s'.indents != []
            && (!InFlow(s) ==> Top(s').column <= column && Top(s').status != Invalid)
            && (InFlow(s) ==> s' == s)
  {
    SoundPointsInside(s);
    hide Sound, PointersOk;
    if !InFlow(s) {
      PopToColumnSound(s, column, atBlockEntry);
      PopInvalidSound(PopToColumn(s, column, atBlockEntry), column);
    }
  }

  lemma {:induction false} PopToNoneSound(s: Scan)
    requires Sound(s) && PointersOk(s) && !InFlow(s)
    ensures SoundlyLeft(s, PopToNone(s)) && |PopToNone(s).indents| == 1
    decreases |s.indents|
  {
    SoundPointsInside(s);
    hide Sound, PointersOk, PopIndent;
    SoundTop(s);
    if Top(s).kind != NONE {
      PopIndentSound(s);
      PopIndentKeepsPointers(s);
      PopToNoneSound(PopIndent(s));
    }
  }

  lemma NoKeysSound(s: Scan, ended: bool)
    requires Sound(s)
    ensures Sound(PopAllSimpleKeys(s).(ended := ended))
    ensures Sound(PopAllSimpleKeys(s).(ended := ended, simpleKeyAllowed := false))
  {
  }

  lemma AllLeftSound(s: Scan)
    requires Sound(s)
    ensures PointersOk(s) && Sound(PopAllIndents(s))
    ensures !InFlow(s) ==> |PopAllIndents(s).indents| == 1
  {
    SoundPointsInside(s);
    hide Sound, PointersOk;
    if !InFlow(s) {
      PopToNoneSound(s);
    }
  }

  lemma MarkerSound(s: Scan, token: Item)
    requires Sound(s)
    ensures PointersOk(s) && Sound(ScanMarker(s, token)) && Sound(EndStream(s))
  {
    AllLeftSound(s);
    LeftBehindSound(PopAllIndents(s), token);
    hide Sound, PopAllIndents, PointersOk;
  }

  lemma LeftBehindSound(s: Scan, token: Item)
    requires Sound(s)
    ensures Sound(Enqueue(Flags(PopAllSimpleKeys(s), false, false), token))
    ensures Sound(PopAllSimpleKeys(s).(simpleKeyAllowed := false, ended := true))
  {
    hide Sound;
    NoKeysSound(s, s.ended);
    NoKeysSound(s, true);
    assert PopAllSimpleKeys(s) == PopAllSimpleKeys(s).(ended := s.ended);
    FlagsSound(PopAllSimpleKeys(s), false, false);
    PushSound(Flags(PopAllSimpleKeys(s), false, false), token);
  }

  lemma FlowsSound(s: Scan, flows: seq<Flow>)
    requires Sound(s) && (|flows| == |s.flows| + 1 || (|flows| == |s.flows| - 1 && !ExistsActiveSimpleKey(s)))
    ensures Sound(s.(flows := flows))
  {
    hide IndentsOrdered;
    var s' := s.(flows := flows);
    assert forall k :: KeyOk(s, k) ==> KeyOk(s', k);
    OrderFrame(s, s');
  }

  lemma OrderFrame(s: Scan, s': Scan)
    requires IndentsOrdered(s) && s' == s.(flows := s'.flows, front := s'.front)
    ensures IndentsOrdered(s')
  {
  }

  lemma CloseFlowEntrySound(s: Scan, m: Mark)
    requires Sound(s)
    ensures PointersOk(s) && Sound(CloseFlowEntry(s, m)) && CloseFlowEntry(s, m).flows == s.flows
    ensures InFlow(s) ==> !ExistsActiveSimpleKey(CloseFlowEntry(s, m))
  {
    hide Sound, VerifySimpleKey, InvalidateSimpleKey;
    SoundPointsInside(s);
    NoActiveKeyIsLeft(s, m);
    VerifySound(s, m);
    InvalidateSound(s);
    PushSound(VerifySimpleKey(s, m).0, Item(VALUE, VALID, ""));
  }

  lemma NoActiveKeyIsLeft(s: Scan, m: Mark)
    requires Sound(s) && PointersOk(s)
    ensures !ExistsActiveSimpleKey(VerifySimpleKey(s, m).0) && !ExistsActiveSimpleKey(InvalidateSimpleKey(s))
    ensures VerifySimpleKey(s, m).0.flows == s.flows && InvalidateSimpleKey(s).flows == s.flows
  {
    hide IndentsOrdered;
  }

  /** The actions inside a flow. */
  lemma FlowActionSound(s: Scan, m: Mark, flow: Flow)
    requires Sound(s)
    ensures PointersOk(s) && Sound(ScanFlowEntry(s, m))
    ensures ScanFlowEnd(s, m, flow).Next? ==> Sound(ScanFlowEnd(s, m, flow).scan)
  {
    hide Sound, CloseFlowEntry;
    CloseFlowEntrySound(s, m);
    var s0 := CloseFlowEntry(s, m);
    FlagsSound(s0, true, false);
    PushSound(Flags(s0, true, false), Item(FLOW_ENTRY, VALID, ""));
    if InFlow(s) {
      var s1 := Flags(s0, false, true);
      FlagsSound(s0, false, true);
      FlowsSound(s1, s1.flows[..|s1.flows| - 1]);
      PushSound(s1.(flows := s1.flows[..|s1.flows| - 1]), Item(if flow == FLOW_SEQ then FLOW_SEQ_END else FLOW_MAP_END, VALID, ""));
    }
  }

  lemma InsertAndPushSound(s: Scan, m: Mark, simpleKeyAllowed: bool, json: bool, flows: seq<Flow>, token: Item)
    requires Sound(s) && !s.ended && (flows == s.flows || |flows| == |s.flows| + 1)
    ensures PointersOk(s) && s.indents != []
    ensures Sound(Enqueue(Flags(InsertPotentialSimpleKey(s, m), simpleKeyAllowed, json).(flows := flows), token))
  {
    hide Sound;
    InsertSound(s, m);
    InsertKeepsFlows(s, m);
    var s1 := Flags(InsertPotentialSimpleKey(s, m), simpleKeyAllowed, json);
    FlagsSound(InsertPotentialSimpleKey(s, m), simpleKeyAllowed, json);
    if flows == s.flows {
      assert s1 == s1.(flows := flows);
    } else {
      FlowsSound(s1, flows);
    }
    PushSound(s1.(flows := flows), token);
  }

  lemma InsertKeepsFlows(s: Scan, m: Mark)
    requires PointersOk(s) && s.indents != []
    ensures InsertPotentialSimpleKey(s, m).flows == s.flows
  {
  }

  lemma IndentAndPushSound(s: Scan, column: int, kind: IndentType, simpleKeyAllowed: bool, json: bool, token: TokenType)
    requires Sound(s) && column >= 0 && kind != NONE
    ensures PointersOk(s) && s.indents != []
    ensures Sound(Push(Flags(PushIndent(s, column, kind, Valid).0, simpleKeyAllowed, json), token, ""))
  {
    hide Sound, PushIndent;
    PushIndentSound(s, column, kind);
    FlagsSound(PushIndent(s, column, kind, Valid).0, simpleKeyAllowed, json);
    PushSound(Flags(PushIndent(s, column, kind, Valid).0, simpleKeyAllowed, json), Item(token, VALID, ""));
  }

  lemma KeySound(s: Scan, m: Mark)
    requires Sound(s)
    ensures PointersOk(s) && s.indents != []
    ensures ScanKey(s, m).Next? ==> Sound(ScanKey(s, m).scan)
    ensures ScanBlockEntry(s, m).Next? ==> Sound(ScanBlockEntry(s, m).scan)
  {
    hide Sound, PushIndent;
    SoundPointsInside(s);
    IndentAndPushSound(s, m.column, SEQ, true, false, BLOCK_ENTRY);
    IndentAndPushSound(s, m.column, MAP, !InFlow(s), PushIndent(s, m.column, MAP, Valid).0.canBeJSONFlow, KEY);
  }

  lemma ValueSound(s: Scan, m: Mark)
    requires Sound(s)
    ensures PointersOk(s) && s.indents != []
    ensures ScanValue(s, m).Next? ==> Sound(ScanValue(s, m).scan)
  {
    hide Sound, VerifySimpleKey, PushIndent;
    SoundPointsInside(s);
    VerifySound(s, m);
    var s1 := VerifySimpleKey(s, m).0;
    SoundPointsInside(s1);
    FlagsSound(s1, false, false);
    PushSound(Flags(s1, false, false), Item(VALUE, VALID, ""));
    IndentAndPushSound(s1, m.column, MAP, !InFlow(s), false, VALUE);
  }

  lemma BreakSound(s: Scan)
    requires Sound(s)
    ensures PointersOk(s) && Sound(EatBreak(s)) && Sound(EatTab(s))
  {
    hide Sound, InvalidateSimpleKey;
    InvalidateSound(s);
    FlagsSound(InvalidateSimpleKey(s), true, InvalidateSimpleKey(s).canBeJSONFlow);
    FlagsSound(s, false, s.canBeJSONFlow);
  }

  lemma DequeueSound(s: Scan)
    requires Sound(s) && CanDequeue(s)
    ensures Sound(s.(front := s.front + 1))
  {
    hide IndentsOrdered;
    var s' := s.(front := s.front + 1);
    OrderFrame(s, s');
    forall i | 0 <= i < |s.simpleKeys|
      ensures KeyOk(s', s.simpleKeys[i])
    {
      assert KeyOk(s, s.simpleKeys[i]);
    }
  }

  lemma StartSound()
    ensures Sound(StartStream(INITIAL))
  {
  }

  /** No action breaks it. */
  lemma ActSound(s: Scan, a: Action, m: Mark)
    requires Sound(s) && PointersOk(s) && s.indents != [] && s.started && Enabled(s, a)
    ensures Act(s, a, m).Next? ==> Sound(Act(s, a, m).scan)
  {
    hide Sound, PointersOk, InsertPotentialSimpleKey, CloseFlowEntry, PushIndent, PopIndentToHere, PopAllIndents;
    hide ScanFlowEnd, ScanFlowEntry, ScanMarker, EndStream, ScanBlockEntry, ScanKey, ScanValue, EatBreak, EatTab;
    match a
    case Start =>
    case Tab => BreakSound(s);
    case Break => BreakSound(s);
    case Outdent(atBlockEntry) => OutdentSound(s, m.column, atBlockEntry);
    case End => MarkerSound(s, Item(DOC_END, VALID, ""));
    case Marker(token) => MarkerSound(s, token);
    case FlowStart(flow) =>
      InsertKeepsFlows(s, m);
      InsertAndPushSound(s, m, true, false, s.flows + [flow], Item(if flow == FLOW_SEQ then FLOW_SEQ_START else FLOW_MAP_START, VALID, ""));
    case FlowEnd(flow) => FlowActionSound(s, m, flow);
    case FlowEntry => FlowActionSound(s, m, FLOW_SEQ);
    case BlockEntry => KeySound(s, m);
    case Key => KeySound(s, m);
    case Value => ValueSound(s, m);
    case Property(token) => SimpleActionSound(s, m, false, false, token);
    case Plain(leadingSpaces, value) => SimpleActionSound(s, m, leadingSpaces, false, Item(PLAIN_SCALAR, VALID, value));
    case Quoted(value) => SimpleActionSound(s, m, false, true, Item(NON_PLAIN_SCALAR, VALID, value));
    case Literal(value) =>
      FlagsSound(s, true, false);
      PushSound(Flags(s, true, false), Item(NON_PLAIN_SCALAR, VALID, value));
    case Dequeue => DequeueSound(s);
  }

  lemma SimpleActionSound(s: Scan, m: Mark, simpleKeyAllowed: bool, json: bool, token: Item)
    requires Sound(s) && !s.ended
    ensures PointersOk(s) && s.indents != []
    ensures Sound(Enqueue(Flags(InsertPotentialSimpleKey(s, m), simpleKeyAllowed, json), token))
  {
    hide Sound, InsertPotentialSimpleKey;
    SoundPointsInside(s);
    InsertKeepsFlows(s, m);
    InsertAndPushSound(s, m, simpleKeyAllowed, json, s.flows, token);
    var s1 := Flags(InsertPotentialSimpleKey(s, m), simpleKeyAllowed, json);
    assert s1 == s1.(flows := s.flows);
  }
}
