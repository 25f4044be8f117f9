/**
 * Counting block starts and ends. A marker inside a flow forgets the simple keys; when an undecided block start
 * was waiting for one of them, it is never decided and never ended, and the tokens cannot be balanced any more.
 */
module ScannerTally {
  import opened Tokens
  import opened ScannerState
  import opened ScannerSteps
  import opened ScannerInvariant
  import opened ScannerSound

  function Worth(i: Item): int {
    if IsEnd(i) then -1 else if IsStart(i) && i.status == VALID then 1 else 0
  }

  /** The block starts that were confirmed, less the ends. */
  function Tally(items: seq<Item>): int {
    if items == [] then 0
    else
      var last := |items| - 1;
      Tally(items[..last]) + Worth(items[last])
  }

  /** The valid indents on the stack, each of which is still to get its end. */
  function ValidOn(refs: seq<Indent>, indents: seq<nat>): nat
    requires forall i :: 0 <= i < |indents| ==> indents[i] < |refs|
  {
    if indents == [] then 0
    else
      var last := |indents| - 1;
      ValidOn(refs, indents[..last]) + (if Opened(refs[indents[last]]) then 1 else 0)
  }

  predicate Opened(indent: Indent) {
    indent.status == Valid && indent.start.To?
  }

  /** An undecided block start no simple key points at. */
  ghost predicate Lost(s: Scan, at: nat) {
    && at < |s.all| && s.all[at].kind == BLOCK_MAP_START && s.all[at].status == UNVERIFIED
    && forall i :: 0 <= i < |s.simpleKeys| ==> s.simpleKeys[i].mapStart != To(at)
  }

  ghost predicate Counted(s: Scan, lost: Pointer)
    requires IndentsOrdered(s)
  {
    Tally(s.all) == ValidOn(s.refs, s.indents) && (lost.To? ==> Lost(s, lost.at))
  }

  /** What every step keeps, whatever it does to flows: the count, and a start once it is lost. */
  ghost predicate Steady(s: Scan, lost: Pointer) {
    Sound(s) && Counted(s, lost)
  }

  // Counting

  lemma TallyMore(items: seq<Item>, i: Item)
    ensures Tally(items + [i]) == Tally(items) + Worth(i)
  {
    assert (items + [i])[..|items|] == items;
  }

  lemma {:induction false} TallyUpdate(items: seq<Item>, at: nat, i: Item)
    requires at < |items|
    ensures Tally(items[at := i]) == Tally(items) - Worth(items[at]) + Worth(i)
  {
    var last := |items| - 1;
    if at == last {
      assert items[at := i][..last] == items[..last];
    } else {
      assert items[at := i][..last] == items[..last][at := i];
      TallyUpdate(items[..last], at, i);
    }
  }

  lemma ValidOnMore(refs: seq<Indent>, indents: seq<nat>, r: nat)
    requires (forall i :: 0 <= i < |indents| ==> indents[i] < |refs|) && r < |refs|
    ensures ValidOn(refs, indents + [r]) == ValidOn(refs, indents) + (if Opened(refs[r]) then 1 else 0)
  {
    assert (indents + [r])[..|indents|] == indents;
  }

  lemma {:induction false} ValidOnSame(refs: seq<Indent>, refs': seq<Indent>, indents: seq<nat>)
    requires forall i :: 0 <= i < |indents| ==> indents[i] < |refs| && indents[i] < |refs'|
    requires forall i :: 0 <= i < |indents| ==> Opened(refs'[indents[i]]) == Opened(refs[indents[i]])
    ensures ValidOn(refs', indents) == ValidOn(refs, indents)
  {
    if indents != [] {
      ValidOnSame(refs, refs', indents[..|indents| - 1]);
    }
  }

  /** An indent on the stack is there once, so confirming it counts once. */
  lemma {:induction false} ValidOnUpdate(refs: seq<Indent>, indents: seq<nat>, r: nat)
    requires forall i :: 0 <= i < |indents| ==> indents[i] < |refs|
    requires Ascending(indents) && r in indents && refs[r].status != Valid && refs[r].start.To?
    ensures ValidOn(MarkIndent(refs, To(r), Valid), indents) == ValidOn(refs, indents) + 1
  {
    var refs' := MarkIndent(refs, To(r), Valid);
    var last := |indents| - 1;
    var below := indents[..last];
    if indents[last] == r {
      ValidOnSame(refs, refs', below);
    } else {
      ValidOnUpdate(refs, below, r);
    }
  }

  /** All block starts, less the ends. */
  function Balance(items: seq<Item>): int {
    if items == [] then 0
    else
      var last := |items| - 1;
      Balance(items[..last]) + (if IsStart(items[last]) then 1 else if IsEnd(items[last]) then -1 else 0)
  }

  lemma {:induction false} NestingBalances(items: seq<Item>, n: nat)
    requires n <= |items| && Nesting(items, n).Open?
    ensures |Nesting(items, n).starts| == Balance(items[..n])
  {
    hide Nesting;
    if n == 0 {
      NestingStart(items);
    } else {
      NestingStep(items, n);
      NestingBalances(items, n - 1);
      assert items[..n][..n - 1] == items[..n - 1];
    }
  }

  /** An undecided start is in the balance and not in the tally. */
  lemma {:induction false} BalanceCounts(items: seq<Item>, lost: Pointer)
    requires lost.To? && lost.at < |items| ==> items[lost.at].kind == BLOCK_MAP_START && items[lost.at].status == UNVERIFIED
    ensures Balance(items) >= Tally(items) + (if lost.To? && lost.at < |items| then 1 else 0)
  {
    if items != [] {
      BalanceCounts(items[..|items| - 1], lost);
    }
  }

  /** Once a start is lost, there are more starts than ends. */
  lemma LostIsNeverBalanced(s: Scan, lost: Pointer)
    requires Steady(s, lost) && lost.To?
    ensures Balance(s.all) > 0 && Nesting(s.all, |s.all|) != Open([])
  {
    BalanceCounts(s.all, lost);
    assert s.all[..|s.all|] == s.all;
    if Nesting(s.all, |s.all|).Open? {
      NestingBalances(s.all, |s.all|);
    }
  }

  // The private steps

  lemma SteadyPointsInside(s: Scan, lost: Pointer)
    requires Steady(s, lost)
    ensures Sound(s) && PointersOk(s) && s.indents != []
  {
    SoundPointsInside(s);
  }

  lemma PushSteady(s: Scan, token: Item, lost: Pointer)
    requires Steady(s, lost) && !IsBlockToken(token.kind)
    ensures Steady(s.(all := s.all + [token]), lost)
  {
    PushSound(s, token);
    TallyMore(s.all, token);
    hide IndentsOrdered, KeysOk, Tally, ValidOn;
  }

  /** The count depends neither on the flows nor on the flags, and forgetting keys finds no lost start. */
  lemma FrameSteady(s: Scan, s': Scan, lost: Pointer)
    requires Steady(s, lost) && Sound(s')
    requires s'.all == s.all && s'.refs == s.refs && s'.indents == s.indents && s'.simpleKeys <= s.simpleKeys
    ensures Steady(s', lost)
  {
    hide IndentsOrdered, KeysOk, Tally, ValidOn;
  }

  lemma FlagsSteady(s: Scan, simpleKeyAllowed: bool, json: bool, lost: Pointer)
    requires Steady(s, lost)
    ensures Steady(Flags(s, simpleKeyAllowed, json), lost)
  {
    FlagsSound(s, simpleKeyAllowed, json);
    hide Sound, Counted;
    FrameSteady(s, Flags(s, simpleKeyAllowed, json), lost);
  }

  lemma PushIndentCounts(s: Scan, column: int, kind: IndentType, status: IndentStatus, lost: Pointer)
    requires Steady(s, lost) && PointersOk(s) && s.indents != [] && column >= 0 && kind != NONE && status != Invalid
    requires IndentsOrdered(PushIndent(s, column, kind, status).0)
    ensures Counted(PushIndent(s, column, kind, status).0, lost)
  {
    hide IndentsOrdered, KeysOk, Tally, ValidOn;
    var (s', p) := PushIndent(s, column, kind, status);
    if p.To? {
      OpenedCounts(s.all, s'.all[|s.all|], s.refs, s'.refs[|s.refs|], s.indents);
    }
  }

  /** A confirmed start and its valid indent count alike, and so do an undecided start and its indent. */
  lemma OpenedCounts(all: seq<Item>, start: Item, refs: seq<Indent>, indent: Indent, indents: seq<nat>)
    requires forall i :: 0 <= i < |indents| ==> indents[i] < |refs|
    requires IsStart(start) && indent.start.To? && (start.status == VALID <==> indent.status == Valid)
    ensures Tally(all + [start]) - Tally(all) == ValidOn(refs + [indent], indents + [|refs|]) - ValidOn(refs, indents)
  {
    hide Tally, ValidOn;
    TallyMore(all, start);
    ValidOnSame(refs, refs + [indent], indents);
    ValidOnMore(refs + [indent], indents, |refs|);
  }

  lemma PushIndentSteady(s: Scan, column: int, kind: IndentType, lost: Pointer)
    requires Steady(s, lost) && column >= 0 && kind != NONE
    ensures PointersOk(s) && s.indents != [] && Steady(PushIndent(s, column, kind, Valid).0, lost)
  {
    PushIndentSound(s, column, kind);
    PushIndentCounts(s, column, kind, Valid, lost);
    hide PushIndent, Counted, IndentsOrdered, KeysOk;
  }

  lemma InsertSteady(s: Scan, m: Mark, lost: Pointer)
    requires Steady(s, lost) && !s.ended
    ensures PointersOk(s) && s.indents != [] && Steady(InsertPotentialSimpleKey(s, m), lost)
  {
    InsertSound(s, m);
    if CanInsertPotentialSimpleKey(s) {
      PushIndentOrders(s, m.column, MAP, Unknown);
      PushIndentCounts(s, m.column, MAP, Unknown, lost);
      InsertCounts(s, m, lost);
    }
  }

  lemma InsertCounts(s: Scan, m: Mark, lost: Pointer)
    requires PointersOk(s) && s.indents != [] && CanInsertPotentialSimpleKey(s)
    requires lost.To? ==> lost.at < |s.all|
    requires IndentsOrdered(PushIndent(s, m.column, MAP, Unknown).0) && Counted(PushIndent(s, m.column, MAP, Unknown).0, lost)
    requires IndentsOrdered(InsertPotentialSimpleKey(s, m))
    ensures Counted(InsertPotentialSimpleKey(s, m), lost)
  {
    hide IndentsOrdered, Tally, ValidOn;
    var s1, s' := PushIndent(s, m.column, MAP, Unknown).0, InsertPotentialSimpleKey(s, m);
    InsertFrames(s, m);
    hide PushIndent, InsertPotentialSimpleKey, PointersOk;
    TallyMore(s1.all, Item(KEY, UNVERIFIED, ""));
  }

  lemma InsertFrames(s: Scan, m: Mark)
    requires PointersOk(s) && s.indents != [] && CanInsertPotentialSimpleKey(s)
    ensures var s1, s' := PushIndent(s, m.column, MAP, Unknown).0, InsertPotentialSimpleKey(s, m);
            && s'.all == s1.all + [Item(KEY, UNVERIFIED, "")] && s'.refs == s1.refs && s'.indents == s1.indents
            && s1.simpleKeys == s.simpleKeys && |s'.simpleKeys| == |s.simpleKeys| + 1 && s'.simpleKeys[..|s.simpleKeys|] == s.simpleKeys
            && (s'.simpleKeys[|s.simpleKeys|].mapStart.To? ==> s'.simpleKeys[|s.simpleKeys|].mapStart.at == |s.all|)
  {
  }

  lemma ResolveSteady(s: Scan, valid: bool, lost: Pointer)
    requires Steady(s, lost) && s.simpleKeys != []
    ensures PointersOk(s) && Steady(ResolveTop(s, valid), lost)
  {
    ResolveSound(s, valid);
    SoundPointsInside(s);
    var k := s.simpleKeys[|s.simpleKeys| - 1];
    assert KeyOk(s, k);
    ResolveCounts(s, k, valid);
    if lost.To? {
      LostIsNotResolved(s, valid, lost.at);
    }
    hide IndentsOrdered, KeysOk, KeyOk, Tally, ValidOn, Lost, Resolve;
  }

  /** The start and the indent of a confirmed key begin to count together. */
  lemma ResolveCounts(s: Scan, k: SimpleKey, valid: bool)
    requires IndentsOrdered(s) && PointersOk(s) && KeyOk(s, k) && KeyPointsInside(s, k)
    ensures var s' := Resolve(s, k, valid);
            && |s'.refs| == |s.refs| && s'.indents == s.indents
            && Tally(s'.all) - Tally(s.all) == ValidOn(s'.refs, s.indents) - ValidOn(s.refs, s.indents)
  {
    hide Tally, ValidOn, Ascending, DistinctStarts, StartsIndent;
    var status := if valid then VALID else INVALID;
    var all1 := MarkToken(s.all, k.mapStart, status);
    TallyUpdate(all1, k.key, all1[k.key].(status := status));
    if k.mapStart.To? {
      var start := s.all[k.mapStart.at];
      TallyUpdate(s.all, k.mapStart.at, start.(status := status));
      if valid {
        ValidOnUpdate(s.refs, s.indents, k.indent.at);
      } else {
        ValidOnSame(s.refs, MarkIndent(s.refs, k.indent, Invalid), s.indents);
      }
    }
  }

  lemma LostIsNotResolved(s: Scan, valid: bool, at: nat)
    requires Sound(s) && PointersOk(s) && s.simpleKeys != [] && Lost(s, at)
    ensures Lost(ResolveTop(s, valid), at)
  {
    hide IndentsOrdered;
    assert KeyOk(s, s.simpleKeys[|s.simpleKeys| - 1]);
  }

  lemma InvalidateSteady(s: Scan, lost: Pointer)
    requires Steady(s, lost)
    ensures PointersOk(s) && Steady(InvalidateSimpleKey(s), lost)
  {
    hide Sound, Counted;
    SteadyPointsInside(s, lost);
    if ExistsActiveSimpleKey(s) {
      ResolveSteady(s, false, lost);
    }
  }

  lemma VerifySteady(s: Scan, m: Mark, lost: Pointer)
    requires Steady(s, lost)
    ensures PointersOk(s) && Steady(VerifySimpleKey(s, m).0, lost)
  {
    hide Sound, Counted;
    SteadyPointsInside(s, lost);
    if ExistsActiveSimpleKey(s) {
      ResolveSteady(s, VerifySimpleKey(s, m).1, lost);
    }
  }

  lemma PopIndentSteady(s: Scan, lost: Pointer)
    requires Steady(s, lost) && PointersOk(s) && s.indents != [] && !InFlow(s) && Top(s).kind != NONE
    ensures Steady(PopIndent(s), lost) && !InFlow(PopIndent(s)) && PopIndent(s).ended == s.ended
  {
    PopIndentSound(s);
    if Top(s).status == Valid {
      PopValidOrders(s);
      PopValidFrame(s);
      hide Sound, KeysOk, IndentsOrdered, PopIndent;
      PopValidCounts(s, lost);
    } else {
      InvalidateSteady(s, lost);
      InvalidateAndPop(s);
      NothingConfirmed(s);
      hide KeysOk, PopIndent, InvalidateSimpleKey, Tally;
      assert !Opened(InvalidateSimpleKey(s).refs[s.indents[|s.indents| - 1]]);
    }
  }

  /** The end token of a valid indent makes up for its start. */
  lemma PopValidCounts(s: Scan, lost: Pointer)
    requires PointersOk(s) && s.indents != [] && Top(s).status == Valid && Top(s).kind != NONE && Top(s).start.To?
    requires IndentsOrdered(s) && Counted(s, lost) && IndentsOrdered(PopIndent(s))
    ensures Counted(PopIndent(s), lost)
  {
    PopValidFrame(s);
    var end := Item(if Top(s).kind == SEQ then BLOCK_SEQ_END else BLOCK_MAP_END, VALID, "");
    TallyMore(s.all, end);
    hide IndentsOrdered, PopIndent, Tally;
  }

  lemma NothingConfirmed(s: Scan)
    requires PointersOk(s) && s.indents != [] && Top(s).status != Valid
    ensures var s' := InvalidateSimpleKey(s);
            |s'.refs| == |s.refs| && !Opened(s'.refs[s.indents[|s.indents| - 1]])
  {
  }

  // The loops over the indents

  ghost predicate SteadilyLeft(s': Scan, ended: bool, lost: Pointer) {
    Steady(s', lost) && !InFlow(s') && s'.ended == ended && PointersOk(s')
  }

  lemma {:induction false} PopToColumnSteady(s: Scan, column: int, atBlockEntry: bool, lost: Pointer)
    requires Steady(s, lost) && PointersOk(s) && !InFlow(s) && column >= 0
    ensures SteadilyLeft(PopToColumn(s, column, atBlockEntry), s.ended, lost)
    decreases |s.indents|
  {
    SteadyPointsInside(s, lost);
    hide Sound, Counted, PointersOk, PopIndent;
    if Top(s).column >= column && !(Top(s).column == column && !(Top(s).kind == SEQ && !atBlockEntry)) {
      SoundTop(s);
      PopIndentSteady(s, lost);
      PopIndentKeepsPointers(s);
      PopToColumnSteady(PopIndent(s), column, atBlockEntry, lost);
    }
  }

  lemma {:induction false} PopInvalidSteady(s: Scan, lost: Pointer)
    requires Steady(s, lost) && PointersOk(s) && !InFlow(s)
    ensures SteadilyLeft(PopInvalid(s), s.ended, lost)
    decreases |s.indents|
  {
    SteadyPointsInside(s, lost);
    hide Sound, Counted, PointersOk, PopIndent;
    if Top(s).status == Invalid {
      SoundTop(s);
      PopIndentSteady(s, lost);
      PopIndentKeepsPointers(s);
      PopInvalidSteady(PopIndent(s), lost);
    }
  }

  lemma {:induction false} PopToNoneSteady(s: Scan, lost: Pointer)
    requires Steady(s, lost) && PointersOk(s) && !InFlow(s)
    ensures SteadilyLeft(PopToNone(s), s.ended, lost)
    decreases |s.indents|
  {
    SteadyPointsInside(s, lost);
    hide Sound, Counted, PointersOk, PopIndent;
    if Top(s).kind != NONE {
      PopIndentSteady(s, lost);
      PopIndentKeepsPointers(s);
      PopToNoneSteady(PopIndent(s), lost);
    }
  }

  lemma OutdentSteady(s: Scan, column: int, atBlockEntry: bool, lost: Pointer)
    requires Steady(s, lost) && PointersOk(s) && column >= 0
    ensures Steady(PopIndentToHere(s, column, atBlockEntry), lost) && Steady(PopAllIndents(s), lost)
  {
    hide Steady, PointersOk;
    if !InFlow(s) {
      PopToColumnSteady(s, column, atBlockEntry, lost);
      PopInvalidSteady(PopToColumn(s, column, atBlockEntry), lost);
      PopToNoneSteady(s, lost);
    }
  }

  // The actions

  lemma MarkerSteady(s: Scan, token: Item, lost: Pointer)
    requires Steady(s, lost) && !IsBlockToken(token.kind)
    ensures PointersOk(s) && Steady(ScanMarker(s, token), lost) && Steady(EndStream(s), lost)
  {
    hide Sound, Counted, PopAllIndents, PointersOk;
    SteadyPointsInside(s, lost);
    OutdentSteady(s, 0, false, lost);
    var s1 := PopAllIndents(s);
    SteadyPointsInside(s1, lost);
    KeysForgotten(s1, lost);
    PushSteady(Flags(PopAllSimpleKeys(s1), false, false), token, lost);
  }

  lemma KeysForgotten(s: Scan, lost: Pointer)
    requires Steady(s, lost)
    ensures Steady(Flags(PopAllSimpleKeys(s), false, false), lost)
    ensures Steady(PopAllSimpleKeys(s).(simpleKeyAllowed := false, ended := true), lost)
  {
    LeftBehindSound(s, Item(KEY, VALID, ""));
    NoKeysSound(s, s.ended);
    assert PopAllSimpleKeys(s) == PopAllSimpleKeys(s).(ended := s.ended);
    FlagsSound(PopAllSimpleKeys(s), false, false);
    hide Sound, Counted;
    FrameSteady(s, Flags(PopAllSimpleKeys(s), false, false), lost);
    FrameSteady(s, PopAllSimpleKeys(s).(simpleKeyAllowed := false, ended := true), lost);
  }

  /** A marker inside a flow loses the block start the first key was to decide. */
  lemma MarkerForgets(s: Scan, token: Item, lost: Pointer)
    requires Steady(s, lost) && InFlow(s) && !IsBlockToken(token.kind) && s.simpleKeys != [] && s.simpleKeys[0].indent.To?
    ensures s.simpleKeys[0].mapStart.To? && PointersOk(s) && Steady(ScanMarker(s, token), s.simpleKeys[0].mapStart)
  {
    MarkerSteady(s, token, lost);
    assert KeyOk(s, s.simpleKeys[0]);
    hide IndentsOrdered, Tally, ValidOn;
  }

  lemma CloseFlowEntrySteady(s: Scan, m: Mark, lost: Pointer)
    requires Steady(s, lost)
    ensures PointersOk(s) && Steady(CloseFlowEntry(s, m), lost)
  {
    hide Steady, VerifySimpleKey, InvalidateSimpleKey;
    VerifySteady(s, m, lost);
    InvalidateSteady(s, lost);
    PushSteady(VerifySimpleKey(s, m).0, Item(VALUE, VALID, ""), lost);
  }

  lemma FlowActionSteady(s: Scan, m: Mark, flow: Flow, lost: Pointer)
    requires Steady(s, lost)
    ensures PointersOk(s) && Steady(ScanFlowEntry(s, m), lost)
    ensures ScanFlowEnd(s, m, flow).Next? ==> Steady(ScanFlowEnd(s, m, flow).scan, lost)
  {
    hide Sound, Counted, CloseFlowEntry;
    SteadyPointsInside(s, lost);
    CloseFlowEntrySteady(s, m, lost);
    CloseFlowEntrySound(s, m);
    var s0 := CloseFlowEntry(s, m);
    FlagsSteady(s0, true, false, lost);
    PushSteady(Flags(s0, true, false), Item(FLOW_ENTRY, VALID, ""), lost);
    if InFlow(s) {
      var s1 := Flags(s0, false, true);
      FlagsSteady(s0, false, true, lost);
      var s2 := s1.(flows := s1.flows[..|s1.flows| - 1]);
      FlowsSound(s1, s2.flows);
      FrameSteady(s1, s2, lost);
      PushSteady(s2, Item(if flow == FLOW_SEQ then FLOW_SEQ_END else FLOW_MAP_END, VALID, ""), lost);
    }
  }

  /** The actions that begin with a potential simple key. */
  lemma InsertingSteady(s: Scan, m: Mark, simpleKeyAllowed: bool, json: bool, flows: seq<Flow>, token: Item, lost: Pointer)
    requires Steady(s, lost) && !s.ended && (flows == s.flows || |flows| == |s.flows| + 1) && !IsBlockToken(token.kind)
    ensures PointersOk(s) && s.indents != [] && InsertPotentialSimpleKey(s, m).flows == s.flows
    ensures var s1 := Flags(InsertPotentialSimpleKey(s, m), simpleKeyAllowed, json);
            Steady(Enqueue(s1.(flows := flows), token), lost)
  {
    hide Sound, Counted, InsertPotentialSimpleKey;
    SteadyPointsInside(s, lost);
    InsertSteady(s, m, lost);
    InsertKeepsFlows(s, m);
    var s0 := InsertPotentialSimpleKey(s, m);
    var s1 := Flags(s0, simpleKeyAllowed, json);
    FlagsSteady(s0, simpleKeyAllowed, json, lost);
    if flows == s.flows {
      assert s1 == s1.(flows := flows);
    } else {
      FlowsSound(s1, flows);
      FrameSteady(s1, s1.(flows := flows), lost);
    }
    PushSteady(s1.(flows := flows), token, lost);
  }

  /** The actions that begin with an indent. */
  lemma IndentingSteady(s: Scan, column: int, kind: IndentType, simpleKeyAllowed: bool, json: bool, token: TokenType, lost: Pointer)
    requires Steady(s, lost) && column >= 0 && kind != NONE && !IsBlockToken(token)
    ensures PointersOk(s) && s.indents != []
    ensures Steady(Push(Flags(PushIndent(s, column, kind, Valid).0, simpleKeyAllowed, json), token, ""), lost)
  {
    hide Steady, PushIndent;
    PushIndentSteady(s, column, kind, lost);
    FlagsSteady(PushIndent(s, column, kind, Valid).0, simpleKeyAllowed, json, lost);
    PushSteady(Flags(PushIndent(s, column, kind, Valid).0, simpleKeyAllowed, json), Item(token, VALID, ""), lost);
  }

  lemma KeySteady(s: Scan, m: Mark, lost: Pointer)
    requires Steady(s, lost) && PointersOk(s) && s.indents != []
    ensures ScanKey(s, m).Next? ==> Steady(ScanKey(s, m).scan, lost)
    ensures ScanBlockEntry(s, m).Next? ==> Steady(ScanBlockEntry(s, m).scan, lost)
  {
    hide Steady, PushIndent;
    IndentingSteady(s, m.column, SEQ, true, false, BLOCK_ENTRY, lost);
    IndentingSteady(s, m.column, MAP, !InFlow(s), PushIndent(s, m.column, MAP, Valid).0.canBeJSONFlow, KEY, lost);
  }

  lemma ValueSteady(s: Scan, m: Mark, lost: Pointer)
    requires Steady(s, lost) && PointersOk(s) && s.indents != []
    ensures ScanValue(s, m).Next? ==> Steady(ScanValue(s, m).scan, lost)
  {
    hide Sound, Counted, VerifySimpleKey, PushIndent;
    VerifySteady(s, m, lost);
    var s1 := VerifySimpleKey(s, m).0;
    SteadyPointsInside(s1, lost);
    FlagsSteady(s1, false, false, lost);
    PushSteady(Flags(s1, false, false), Item(VALUE, VALID, ""), lost);
    IndentingSteady(s1, m.column, MAP, !InFlow(s), false, VALUE, lost);
  }

  lemma BreakSteady(s: Scan, lost: Pointer)
    requires Steady(s, lost) && PointersOk(s)
    ensures Steady(EatBreak(s), lost) && Steady(EatTab(s), lost)
  {
    hide Steady, InvalidateSimpleKey;
    InvalidateSteady(s, lost);
    FlagsSteady(InvalidateSimpleKey(s), true, InvalidateSimpleKey(s).canBeJSONFlow, lost);
    FlagsSteady(s, false, s.canBeJSONFlow, lost);
  }

  lemma DequeueSteady(s: Scan, lost: Pointer)
    requires Steady(s, lost) && CanDequeue(s)
    ensures Steady(s.(front := s.front + 1), lost)
  {
    DequeueSound(s);
    hide Sound, Counted;
    FrameSteady(s, s.(front := s.front + 1), lost);
  }

  lemma StartSteady()
    ensures Steady(StartStream(INITIAL), Nil)
  {
    StartSound();
    assert ValidOn([Indent(-1, NONE, Valid, Nil)], [0]) == 0;
  }

  /** No action upsets the count, and no action finds a lost start again. */
  lemma ActSteady(s: Scan, a: Action, m: Mark, lost: Pointer)
    requires Steady(s, lost) && PointersOk(s) && s.indents != [] && s.started && Enabled(s, a)
    ensures Act(s, a, m).Next? ==> Steady(Act(s, a, m).scan, lost)
  {
    hide Steady, PointersOk, InsertPotentialSimpleKey, PushIndent, PopIndentToHere;
    hide ScanFlowEnd, ScanFlowEntry, ScanMarker, EndStream, ScanBlockEntry, ScanKey, ScanValue, EatBreak, EatTab;
    match a
    case Start =>
    case Tab => BreakSteady(s, lost);
    case Break => BreakSteady(s, lost);
    case Outdent(atBlockEntry) => OutdentSteady(s, m.column, atBlockEntry, lost);
    case End => MarkerSteady(s, Item(DOC_END, VALID, ""), lost);
    case Marker(token) => MarkerSteady(s, token, lost);
    case FlowStart(flow) =>
      InsertingSteady(s, m, true, false, s.flows + [flow], Item(if flow == FLOW_SEQ then FLOW_SEQ_START else FLOW_MAP_START, VALID, ""), lost);
    case FlowEnd(flow) => FlowActionSteady(s, m, flow, lost);
    case FlowEntry => FlowActionSteady(s, m, FLOW_SEQ, lost);
    case BlockEntry => KeySteady(s, m, lost);
    case Key => KeySteady(s, m, lost);
    case Value => ValueSteady(s, m, lost);
    case Property(token) => SimpleSteady(s, m, false, false, token, lost);
    case Plain(leadingSpaces, value) => SimpleSteady(s, m, leadingSpaces, false, Item(PLAIN_SCALAR, VALID, value), lost);
    case Quoted(value) => SimpleSteady(s, m, false, true, Item(NON_PLAIN_SCALAR, VALID, value), lost);
    case Literal(value) =>
      FlagsSteady(s, true, false, lost);
      PushSteady(Flags(s, true, false), Item(NON_PLAIN_SCALAR, VALID, value), lost);
    case Dequeue => DequeueSteady(s, lost);
  }

  lemma SimpleSteady(s: Scan, m: Mark, simpleKeyAllowed: bool, json: bool, token: Item, lost: Pointer)
    requires Steady(s, lost) && !s.ended && !IsBlockToken(token.kind) && PointersOk(s) && s.indents != []
    ensures Steady(Enqueue(Flags(InsertPotentialSimpleKey(s, m), simpleKeyAllowed, json), token), lost)
  {
    hide Steady, InsertPotentialSimpleKey;
    InsertingSteady(s, m, simpleKeyAllowed, json, s.flows, token, lost);
    var s1 := Flags(InsertPotentialSimpleKey(s, m), simpleKeyAllowed, json);
    assert s1 == s1.(flows := s.flows);
  }
}
