/** The scanner invariant over every run, and what it means for the tokens handed out. */
module ScannerRuns {
  import opened Tokens
  import opened ScannerState
  import opened ScannerSteps
  import opened ScannerInvariant
  import opened ScannerSound
  import opened ScannerTally

  lemma KeysDropped(s: Scan)
    requires Running(s) && |s.indents| == 1 && !InFlow(s)
    requires s.simpleKeys == [] || s.simpleKeys[0].indent.Nil?
    ensures Running(PopAllSimpleKeys(s))
  {
  }

  /** In block context, once only the NONE marker is left, the one key there may be has no indent. */
  lemma LastKeyHasNoIndent(s: Scan)
    requires Running(s) && |s.indents| == 1
    ensures s.simpleKeys == [] || s.simpleKeys[0].indent.Nil?
  {
    if s.simpleKeys != [] {
      assert KeyOk(s, s.simpleKeys[0]);
    }
  }

  lemma FlowOpens(s: Scan, flow: Flow)
    requires Running(s)
    ensures Running(s.(flows := s.flows + [flow]))
  {
    hide IndentsOrdered, Nested;
    var s' := s.(flows := s.flows + [flow]);
    assert forall k :: KeyOk(s, k) ==> KeyOk(s', k);
    NestedFrame(s, s');
  }

  lemma FlowCloses(s: Scan)
    requires Running(s) && InFlow(s) && !ExistsActiveSimpleKey(s)
    ensures Running(s.(flows := s.flows[..|s.flows| - 1]))
  {
    hide IndentsOrdered, Nested;
    var s' := s.(flows := s.flows[..|s.flows| - 1]);
    assert forall k :: KeyOk(s, k) ==> KeyOk(s', k);
    NestedFrame(s, s');
  }

  lemma NestedFrame(s: Scan, s': Scan)
    requires IndentsOrdered(s) && Nested(s) && s' == s.(flows := s'.flows)
    ensures IndentsOrdered(s') && Nested(s')
  {
  }

  /** Leaving everything, in block context. */
  lemma AllLeft(s: Scan)
    requires Running(s) && !InFlow(s)
    ensures PointersOk(s)
    ensures var s' := PopAllSimpleKeys(PopAllIndents(s));
            Running(s') && s'.ended == s.ended && |s'.indents| == 1 && s'.simpleKeys == []
  {
    RunningPointsInside(s);
    PopToNoneKeeps(s);
    hide Running;
    LastKeyHasNoIndent(PopAllIndents(s));
    KeysDropped(PopAllIndents(s));
  }

  lemma MarkerKeeps(s: Scan, token: Item)
    requires Running(s) && !InFlow(s) && !IsBlockToken(token.kind)
    ensures PointersOk(s) && Running(ScanMarker(s, token))
  {
    hide Running;
    AllLeft(s);
    FlagsKeep(PopAllSimpleKeys(PopAllIndents(s)), false, false);
    PushKeeps(Flags(PopAllSimpleKeys(PopAllIndents(s)), false, false), token);
  }

  lemma EndKeeps(s: Scan)
    requires Running(s) && !InFlow(s)
    ensures PointersOk(s) && Running(EndStream(s))
  {
    AllLeft(s);
    Ended(PopAllSimpleKeys(PopAllIndents(s)));
  }

  lemma Ended(s: Scan)
    requires Running(s) && |s.indents| == 1 && s.simpleKeys == []
    ensures Running(s.(simpleKeyAllowed := false, ended := true))
  {
  }

  /** A marker inside a flow keeps the invariant exactly if no block start waits for a key that it forgets. */
  lemma MarkerInFlow(s: Scan, token: Item)
    requires Running(s) && InFlow(s) && !IsBlockToken(token.kind)
    ensures PointersOk(s)
    ensures Running(ScanMarker(s, token)) <==> (s.simpleKeys == [] || s.simpleKeys[0].indent.Nil?)
  {
    RunningPointsInside(s);
    if s.simpleKeys == [] || s.simpleKeys[0].indent.Nil? {
      KeysForgottenInFlow(s);
      hide Running, PointersOk;
      PushKeeps(Flags(PopAllSimpleKeys(s), false, false), token);
    } else {
      IndentStaysUndecided(s, token);
    }
  }

  lemma IndentStaysUndecided(s: Scan, token: Item)
    requires Running(s) && PointersOk(s) && InFlow(s) && s.simpleKeys != [] && s.simpleKeys[0].indent.To?
    ensures !Running(ScanMarker(s, token))
  {
    hide IndentsOrdered, Nested;
    var k, s' := s.simpleKeys[0], ScanMarker(s, token);
    assert KeyOk(s, k);
    var i :| 0 <= i < |s.indents| && s.indents[i] == k.indent.at;
    assert s'.refs[s'.indents[i]].status == Unknown;
  }

  lemma KeysForgottenInFlow(s: Scan)
    requires Running(s) && InFlow(s) && (s.simpleKeys == [] || s.simpleKeys[0].indent.Nil?)
    ensures Running(Flags(PopAllSimpleKeys(s), false, false))
  {
    hide IndentsOrdered, Nested;
    if s.simpleKeys != [] {
      assert KeyOk(s, s.simpleKeys[0]);
    }
    KeysFrame(s, Flags(PopAllSimpleKeys(s), false, false));
  }

  lemma KeysFrame(s: Scan, s': Scan)
    requires IndentsOrdered(s) && Nested(s)
    requires s' == s.(simpleKeys := s'.simpleKeys, simpleKeyAllowed := s'.simpleKeyAllowed,
                      canBeJSONFlow := s'.canBeJSONFlow, ended := s'.ended)
    ensures IndentsOrdered(s') && Nested(s')
  {
  }

  /** The end of the text inside a flow closes nothing: the blocks left open are those open before. */
  lemma EndInFlow(s: Scan)
    requires Running(s) && InFlow(s)
    ensures PointersOk(s) && EndedInFlow(EndStream(s))
    ensures OpenStarts(EndStream(s).refs, EndStream(s).indents) == OpenStarts(s.refs, s.indents)
  {
    RunningPointsInside(s);
    MarkerSound(s, Item(DOC_END, VALID, ""));
    hide IndentsOrdered, Nested, KeysOk;
    KeysFrame(s, EndStream(s));
  }

  lemma FlowStartKeeps(s: Scan, m: Mark, flow: Flow)
    requires Running(s) && !s.ended
    ensures PointersOk(s) && s.indents != [] && Running(ScanFlowStart(s, m, flow))
  {
    hide Running;
    InsertKeeps(s, m);
    var s1 := Flags(InsertPotentialSimpleKey(s, m), true, false);
    FlagsKeep(InsertPotentialSimpleKey(s, m), true, false);
    FlowOpens(s1, flow);
    PushKeeps(s1.(flows := s1.flows + [flow]), Item(if flow == FLOW_SEQ then FLOW_SEQ_START else FLOW_MAP_START, VALID, ""));
  }

  lemma CloseFlowEntryKeeps(s: Scan, m: Mark)
    requires Running(s)
    ensures PointersOk(s) && Running(CloseFlowEntry(s, m)) && CloseFlowEntry(s, m).flows == s.flows
    ensures InFlow(s) ==> !ExistsActiveSimpleKey(CloseFlowEntry(s, m))
  {
    hide Running, VerifySimpleKey, InvalidateSimpleKey;
    RunningPointsInside(s);
    ActiveKeyIsAlone(s, m);
    VerifyKeeps(s, m);
    InvalidateKeeps(s);
    PushKeeps(VerifySimpleKey(s, m).0, Item(VALUE, VALID, ""));
  }

  /** Once the active key is gone, none is left at its flow level. */
  lemma ActiveKeyIsAlone(s: Scan, m: Mark)
    requires Running(s) && PointersOk(s)
    ensures !ExistsActiveSimpleKey(VerifySimpleKey(s, m).0) && !ExistsActiveSimpleKey(InvalidateSimpleKey(s))
    ensures VerifySimpleKey(s, m).0.flows == s.flows && InvalidateSimpleKey(s).flows == s.flows
  {
    hide IndentsOrdered, Nested, IndentsDecided;
  }

  lemma FlowEndKeeps(s: Scan, m: Mark, flow: Flow)
    requires Running(s)
    ensures PointersOk(s) && var r := ScanFlowEnd(s, m, flow); r.Next? ==> Running(r.scan)
  {
    hide Running;
    CloseFlowEntryKeeps(s, m);
    if InFlow(s) {
      var s1 := Flags(CloseFlowEntry(s, m), false, true);
      FlagsKeep(CloseFlowEntry(s, m), false, true);
      FlowCloses(s1);
      PushKeeps(s1.(flows := s1.flows[..|s1.flows| - 1]), Item(if flow == FLOW_SEQ then FLOW_SEQ_END else FLOW_MAP_END, VALID, ""));
    }
  }

  lemma FlowEntryKeeps(s: Scan, m: Mark)
    requires Running(s)
    ensures PointersOk(s) && Running(ScanFlowEntry(s, m))
  {
    hide Running;
    CloseFlowEntryKeeps(s, m);
    FlagsKeep(CloseFlowEntry(s, m), true, false);
    PushKeeps(Flags(CloseFlowEntry(s, m), true, false), Item(FLOW_ENTRY, VALID, ""));
  }

  lemma BlockEntryKeeps(s: Scan, m: Mark)
    requires Running(s) && !s.ended
    ensures PointersOk(s) && s.indents != [] && var r := ScanBlockEntry(s, m); r.Next? ==> Running(r.scan)
  {
    hide Running;
    PushIndentKeeps(s, m.column, SEQ);
    var s1 := PushIndent(s, m.column, SEQ, Valid).0;
    FlagsKeep(s1, true, false);
    PushKeeps(Flags(s1, true, false), Item(BLOCK_ENTRY, VALID, ""));
  }

  lemma KeyKeeps(s: Scan, m: Mark)
    requires Running(s) && !s.ended
    ensures PointersOk(s) && s.indents != [] && var r := ScanKey(s, m); r.Next? ==> Running(r.scan)
  {
    hide Running;
    PushIndentKeeps(s, m.column, MAP);
    var s1 := PushIndent(s, m.column, MAP, Valid).0;
    FlagsKeep(s1, !InFlow(s), s1.canBeJSONFlow);
    PushKeeps(Flags(s1, !InFlow(s), s1.canBeJSONFlow), Item(KEY, VALID, ""));
  }

  lemma ValueKeeps(s: Scan, m: Mark)
    requires Running(s) && !s.ended
    ensures PointersOk(s) && s.indents != [] && var r := ScanValue(s, m); r.Next? ==> Running(r.scan)
  {
    hide Running;
    VerifyKeeps(s, m);
    RunningPointsInside(s);
    var (s1, isKey) := VerifySimpleKey(s, m);
    if isKey {
      FlagsKeep(s1, false, false);
      PushKeeps(Flags(s1, false, false), Item(VALUE, VALID, ""));
    } else {
      PushIndentKeeps(s1, m.column, MAP);
      var s2 := PushIndent(s1, m.column, MAP, Valid).0;
      FlagsKeep(s2, !InFlow(s), false);
      PushKeeps(Flags(s2, !InFlow(s), false), Item(VALUE, VALID, ""));
    }
  }

  lemma InsertAndPushKeeps(s: Scan, m: Mark, simpleKeyAllowed: bool, json: bool, token: Item)
    requires Running(s) && !s.ended && !IsBlockToken(token.kind)
    ensures PointersOk(s) && s.indents != []
    ensures Running(Enqueue(Flags(InsertPotentialSimpleKey(s, m), simpleKeyAllowed, json), token))
  {
    hide Running;
    InsertKeeps(s, m);
    FlagsKeep(InsertPotentialSimpleKey(s, m), simpleKeyAllowed, json);
    PushKeeps(Flags(InsertPotentialSimpleKey(s, m), simpleKeyAllowed, json), token);
  }

  lemma BreakKeeps(s: Scan)
    requires Running(s)
    ensures PointersOk(s) && Running(EatBreak(s))
  {
    hide Running;
    InvalidateKeeps(s);
    FlagsKeep(InvalidateSimpleKey(s), true, InvalidateSimpleKey(s).canBeJSONFlow);
  }

  lemma StartKeeps()
    ensures Running(StartStream(INITIAL))
  {
    assert OpenStarts([Indent(-1, NONE, Valid, Nil)], [0]) == [];
  }

  lemma DequeueKeeps(s: Scan)
    requires Running(s) && CanDequeue(s)
    ensures Running(s.(front := s.front + 1))
  {
    hide IndentsOrdered, Nested;
    var s' := s.(front := s.front + 1);
    forall i | 0 <= i < |s.simpleKeys|
      ensures KeyOk(s', s.simpleKeys[i])
    {
      assert KeyOk(s, s.simpleKeys[i]);
    }
    FrontFrame(s);
  }

  lemma FrontFrame(s: Scan)
    requires IndentsOrdered(s) && Nested(s)
    ensures IndentsOrdered(s.(front := s.front + 1)) && Nested(s.(front := s.front + 1))
  {
  }

  /** No action breaks the invariant but a marker that forgets a block start. */
  lemma ActKeeps(s: Scan, a: Action, m: Mark)
    requires Inv(s) && Enabled(s, a) && !ForgetsStart(s, a)
    ensures PointersOk(s) && (s.started ==> s.indents != [])
    ensures Act(s, a, m).Next? ==> Inv(Act(s, a, m).scan)
  {
    if s == INITIAL {
      StartKeeps();
    } else {
      SoundPointsInside(s);
      if Running(s) {
        RunningActKeeps(s, a, m);
      } else {
        DequeueSound(s);
        FrontFrame(s);
      }
    }
    hide Running, Sound, Act;
  }

  lemma RunningActKeeps(s: Scan, a: Action, m: Mark)
    requires Running(s) && PointersOk(s) && s.indents != [] && s.started && Enabled(s, a) && !ForgetsStart(s, a)
    ensures Act(s, a, m).Next? ==> Inv(Act(s, a, m).scan)
  {
    hide Running;
    match a
    case Start =>
    case Tab => FlagsKeep(s, false, s.canBeJSONFlow);
    case Break => BreakKeeps(s);
    case Outdent(atBlockEntry) => PopIndentToHereKeeps(s, m.column, atBlockEntry);
    case End =>
      if InFlow(s) {
        EndInFlow(s);
      } else {
        EndKeeps(s);
      }
    case Marker(token) =>
      if InFlow(s) {
        MarkerInFlow(s, token);
      } else {
        MarkerKeeps(s, token);
      }
    case FlowStart(flow) => FlowStartKeeps(s, m, flow);
    case FlowEnd(flow) => FlowEndKeeps(s, m, flow);
    case FlowEntry => FlowEntryKeeps(s, m);
    case BlockEntry => BlockEntryKeeps(s, m);
    case Key => KeyKeeps(s, m);
    case Value => ValueKeeps(s, m);
    case Property(token) => InsertAndPushKeeps(s, m, false, false, token);
    case Plain(leadingSpaces, value) => InsertAndPushKeeps(s, m, leadingSpaces, false, Item(PLAIN_SCALAR, VALID, value));
    case Quoted(value) => InsertAndPushKeeps(s, m, false, true, Item(NON_PLAIN_SCALAR, VALID, value));
    case Literal(value) =>
      FlagsKeep(s, true, false);
      PushKeeps(Flags(s, true, false), Item(NON_PLAIN_SCALAR, VALID, value));
    case Dequeue => DequeueKeeps(s);
  }

  // Runs

  datatype Step = Step(action: Action, mark: Mark)

  ghost predicate StepLeads(before: Scan, step: Step, s: Scan) {
    && PointersOk(before) && (before.started ==> before.indents != [])
    && Enabled(before, step.action) && Act(before, step.action, step.mark) == Next(s)
  }

  ghost predicate LastStep(before: Scan, early: bool, step: Step, s: Scan, forgot: bool) {
    StepLeads(before, step, s) && forgot == (early || ForgetsStart(before, step.action))
  }

  /** The steps lead from a fresh scanner to s, and `forgot` says whether one of them forgot a block start. */
  ghost predicate Reaches(steps: seq<Step>, s: Scan, forgot: bool) {
    if steps == [] then s == INITIAL && !forgot
    else
      var last := |steps| - 1;
      exists before, early :: Reaches(steps[..last], before, early) && LastStep(before, early, steps[last], s, forgot)
  }

  lemma ReachesOn(steps: seq<Step>, before: Scan, forgot: bool, step: Step, s: Scan)
    requires Reaches(steps, before, forgot) && StepLeads(before, step, s)
    ensures Reaches(steps + [step], s, forgot || ForgetsStart(before, step.action))
  {
    var more := steps + [step];
    assert more[..|steps|] == steps && more[|steps|] == step;
    assert LastStep(before, forgot, more[|steps|], s, forgot || ForgetsStart(before, step.action));
  }

  ghost predicate InitialOrSound(s: Scan) {
    s == INITIAL || Sound(s)
  }

  lemma StepSound(before: Scan, step: Step, s: Scan)
    requires InitialOrSound(before) && StepLeads(before, step, s)
    ensures Sound(s)
  {
    hide Sound, Act;
    if before == INITIAL {
      StartSound();
      StartsFirst(step, s);
    } else {
      StartedWhenSound(before);
      ActSound(before, step.action, step.mark);
    }
  }

  lemma StartedWhenSound(s: Scan)
    requires Sound(s)
    ensures s.started && s.indents != []
  {
  }

  lemma StartsFirst(step: Step, s: Scan)
    requires StepLeads(INITIAL, step, s)
    ensures s == StartStream(INITIAL)
  {
  }

  lemma {:induction false} ReachableSound(steps: seq<Step>, s: Scan, forgot: bool)
    requires Reaches(steps, s, forgot)
    ensures InitialOrSound(s)
  {
    if steps != [] {
      var last := |steps| - 1;
      var before, early :| Reaches(steps[..last], before, early) && LastStep(before, early, steps[last], s, forgot);
      ReachableSound(steps[..last], before, early);
      hide Sound;
      StepSound(before, steps[last], s);
    }
  }

  lemma {:induction false} ReachableInv(steps: seq<Step>, s: Scan)
    requires Reaches(steps, s, false)
    ensures Inv(s)
  {
    if steps != [] {
      var last := |steps| - 1;
      var before, early :| Reaches(steps[..last], before, early) && LastStep(before, early, steps[last], s, false);
      ReachableInv(steps[..last], before);
      hide Inv;
      ActKeeps(before, steps[last].action, steps[last].mark);
    }
  }

  /** What every run keeps: the count, and once a start was forgotten, a lost start. */
  ghost predicate SteadyRun(s: Scan, lost: Pointer, forgot: bool) {
    (s == INITIAL && !forgot) || (Steady(s, lost) && (forgot ==> lost.To?))
  }

  lemma StepSteady(before: Scan, step: Step, s: Scan, lost: Pointer)
    requires Steady(before, lost) && StepLeads(before, step, s)
    ensures Steady(s, lost)
  {
    SteadyPointsInside(before, lost);
    StartedWhenSound(before);
    hide Steady, Sound, Act, PointersOk;
    ActSteady(before, step.action, step.mark, lost);
  }

  lemma StepForgets(before: Scan, step: Step, s: Scan, lost: Pointer)
    requires Steady(before, lost) && StepLeads(before, step, s) && ForgetsStart(before, step.action)
    ensures before.simpleKeys[0].mapStart.To? && Steady(s, before.simpleKeys[0].mapStart)
  {
    SteadyPointsInside(before, lost);
    StartedWhenSound(before);
    hide Steady, Sound, Act, PointersOk, ScanMarker;
    MarkerActs(before, step.action, step.mark);
    MarkerForgets(before, step.action.token, lost);
  }

  lemma MarkerActs(s: Scan, a: Action, m: Mark)
    requires PointersOk(s) && s.indents != [] && s.started && Enabled(s, a) && a.Marker?
    ensures Act(s, a, m) == Next(ScanMarker(s, a.token)) && !IsBlockToken(a.token.kind)
  {
  }

  lemma {:induction false} ReachableSteady(steps: seq<Step>, s: Scan, forgot: bool) returns (lost: Pointer)
    requires Reaches(steps, s, forgot)
    ensures SteadyRun(s, lost, forgot)
  {
    lost := Nil;
    if steps != [] {
      var last := |steps| - 1;
      var before, early :| Reaches(steps[..last], before, early) && LastStep(before, early, steps[last], s, forgot);
      lost := ReachableSteady(steps[..last], before, early);
      hide Steady;
      if before == INITIAL {
        StartSteady();
        StartsFirst(steps[last], s);
        lost := Nil;
      } else {
        StepSteady(before, steps[last], s, lost);
        if ForgetsStart(before, steps[last].action) {
          StepForgets(before, steps[last], s, lost);
          lost := before.simpleKeys[0].mapStart;
        }
      }
    }
  }

  // What the invariant says

  /** Columns never decrease up the indent stack; equal columns are a sequence directly on a map. */
  lemma {:induction false} IndentColumns(s: Scan, i: nat, j: nat)
    requires IndentsOrdered(s) && i < j < |s.indents|
    ensures s.refs[s.indents[i]].column <= s.refs[s.indents[j]].column
    ensures s.refs[s.indents[i]].column == s.refs[s.indents[j]].column ==>
              j == i + 1 && s.refs[s.indents[i]].kind == MAP && s.refs[s.indents[j]].kind == SEQ
    decreases j
  {
    assert StartsIndent(s.refs[s.indents[j - 1]], s.refs[s.indents[j]].column, s.refs[s.indents[j]].kind);
    if i < j - 1 {
      IndentColumns(s, i, j - 1);
    }
  }

  /** The NONE marker stays at the bottom, at column -1, from the start of the stream on. */
  lemma ReachableIndents(steps: seq<Step>, s: Scan, forgot: bool)
    requires Reaches(steps, s, forgot) && s.started
    ensures s.indents != [] && s.indents[0] < |s.refs| && s.refs[s.indents[0]] == Indent(-1, NONE, Valid, Nil)
    ensures IndentsOrdered(s)
  {
    ReachableSound(steps, s, forgot);
  }

  /** In every reachable state the keys' levels grow, and their pointers lead to undecided tokens in the queue. */
  lemma ReachableKeys(steps: seq<Step>, s: Scan, forgot: bool, i: nat)
    requires Reaches(steps, s, forgot) && i < |s.simpleKeys|
    ensures s.simpleKeys[i].flowLevel <= |s.flows|
    ensures i > 0 ==> s.simpleKeys[i - 1].flowLevel < s.simpleKeys[i].flowLevel
    ensures Undecided(s, s.simpleKeys[i].key, KEY)
    ensures s.simpleKeys[i].mapStart.To? ==> Undecided(s, s.simpleKeys[i].mapStart.at, BLOCK_MAP_START)
  {
    ReachableSound(steps, s, forgot);
    assert KeyOk(s, s.simpleKeys[i]);
  }

  lemma {:induction false} PrefixNests(items: seq<Item>, n: nat, m: nat)
    requires m <= n <= |items| && Nesting(items, n).Open?
    ensures Nesting(items, m).Open?
    decreases n
  {
    if m < n {
      PrefixNests(items, n - 1, m);
    }
  }

  /**
   * Unless a start was forgotten, ends match starts in whatever was queued, and in every prefix of it. At the
   * end, outside a flow, no block token is left undecided.
   */
  lemma ReachableNests(steps: seq<Step>, s: Scan, n: nat)
    requires Reaches(steps, s, false) && n <= |s.all|
    ensures Nesting(s.all, n).Open?
    ensures s.ended && !InFlow(s) ==> forall j :: 0 <= j < |s.all| && IsBlockToken(s.all[j].kind) ==> s.all[j].status != UNVERIFIED
  {
    ReachableInv(steps, s);
    if s != INITIAL {
      PrefixNests(s.all, |s.all|, n);
    }
  }

  /** A block is open: an indent above the NONE marker was not refused. */
  predicate BlockIsOpen(s: Scan) {
    exists i :: 1 <= i < |s.indents| && s.indents[i] < |s.refs| && s.refs[s.indents[i]].status != Invalid
  }

  lemma OpenStartsAreBlocks(s: Scan)
    requires IndentsOrdered(s)
    ensures OpenStarts(s.refs, s.indents) == [] <==> !BlockIsOpen(s)
  {
    var starts := OpenStarts(s.refs, s.indents);
    if i :| 1 <= i < |s.indents| && s.refs[s.indents[i]].status != Invalid {
      assert s.indents[0] < s.indents[i];
      OpenStartsMember(s.refs, s.indents, s.refs[s.indents[i]].start.at);
    }
    if starts != [] {
      OpenStartsMember(s.refs, s.indents, starts[0]);
      var i :| 0 <= i < |s.indents| && s.refs[s.indents[i]].status != Invalid && s.refs[s.indents[i]].start == To(starts[0]);
      assert i >= 1;
    }
  }

  /**
   * At the end all blocks are closed exactly if no block start was forgotten and the text did not end in a flow
   * inside a block.
   */
  lemma ClosedExactly(steps: seq<Step>, s: Scan, forgot: bool)
    requires Reaches(steps, s, forgot) && s.ended
    ensures Nesting(s.all, |s.all|) == Open([]) <==> !forgot && !(InFlow(s) && BlockIsOpen(s))
  {
    ReachableSound(steps, s, forgot);
    OpenStartsAreBlocks(s);
    hide BlockIsOpen;
    if forgot {
      var lost := ReachableSteady(steps, s, forgot);
      LostIsNeverBalanced(s, lost);
    } else {
      ReachableInv(steps, s);
      if Running(s) {
        assert OpenStarts(s.refs, s.indents) == [];
      }
    }
  }

  lemma ForgottenUnbalances(steps: seq<Step>, s: Scan)
    requires Reaches(steps, s, true)
    ensures Balance(s.all) > 0
  {
    var lost := ReachableSteady(steps, s, true);
    LostIsNeverBalanced(s, lost);
  }

  /** The steps lead on from s to s'. */
  ghost predicate LeadsOn(s: Scan, steps: seq<Step>, s': Scan) {
    if steps == [] then s' == s
    else
      var last := |steps| - 1;
      exists before :: LeadsOn(s, steps[..last], before) && StepLeads(before, steps[last], s')
  }

  lemma {:induction false} StaysLost(s: Scan, steps: seq<Step>, s': Scan, lost: Pointer)
    requires Steady(s, lost) && LeadsOn(s, steps, s')
    ensures Steady(s', lost)
  {
    if steps != [] {
      var last := |steps| - 1;
      var before :| LeadsOn(s, steps[..last], before) && StepLeads(before, steps[last], s');
      hide Steady;
      StaysLost(s, steps[..last], before, lost);
      StepSteady(before, steps[last], s', lost);
    }
  }

  /** A forgotten start stays undecided for ever, and the tokens are never balanced again. */
  lemma ForgottenForEver(steps: seq<Step>, s: Scan, forgot: bool, step: Step, s1: Scan, more: seq<Step>, s2: Scan)
    requires Reaches(steps, s, forgot) && StepLeads(s, step, s1) && ForgetsStart(s, step.action) && LeadsOn(s1, more, s2)
    ensures s.simpleKeys[0].mapStart.To? && Lost(s2, s.simpleKeys[0].mapStart.at)
    ensures Nesting(s2.all, |s2.all|) != Open([])
  {
    var lost := ReachableSteady(steps, s, forgot);
    assert s != INITIAL;
    StepForgets(s, step, s1, lost);
    hide Steady;
    StaysLost(s1, more, s2, s.simpleKeys[0].mapStart);
    LostIsNeverBalanced(s2, s.simpleKeys[0].mapStart);
  }

  // Tokens that were handed out

  /** The tokens that count: those not INVALID. */
  function Kept(items: seq<Item>): seq<Item> {
    if items == [] then []
    else
      var last := |items| - 1;
      Kept(items[..last]) + (if items[last].status == INVALID then [] else [items[last]])
  }

  /** The same blocks are open in both words. */
  ghost predicate SameOpen(items: seq<Item>, open: seq<nat>, items': seq<Item>, open': seq<nat>) {
    && |open| == |open'|
    && (forall j :: 0 <= j < |open| ==> open[j] < |items| && open'[j] < |items'| && items[open[j]].kind == items'[open'[j]].kind)
  }

  lemma NestAlike(items: seq<Item>, open: seq<nat>, at: nat, items': seq<Item>, open': seq<nat>, at': nat)
    requires SameOpen(items, open, items', open') && at < |items| && at' < |items'| && items[at] == items'[at']
    requires Nest(items, open, at).Open?
    ensures Nest(items', open', at').Open?
    ensures SameOpen(items, Nest(items, open, at).starts, items', Nest(items', open', at').starts)
  {
  }

  lemma KeptStep(items: seq<Item>, n: nat)
    requires 0 < n <= |items|
    ensures Kept(items[..n]) == Kept(items[..n - 1]) + (if items[n - 1].status == INVALID then [] else [items[n - 1]])
  {
    assert items[..n][..n - 1] == items[..n - 1];
  }

  lemma InvalidDoesNotNest(items: seq<Item>, open: seq<nat>, at: nat)
    requires at < |items| && items[at].status == INVALID && forall j :: 0 <= j < |open| ==> open[j] < |items|
    ensures Nest(items, open, at) == Open(open)
  {
  }

  /** One more token in both words. */
  lemma KeptOneMore(items: seq<Item>, open: seq<nat>, at: nat, before: seq<Item>)
    requires at < |items| && items[at].status != INVALID && Nesting(before, |before|).Open?
    requires SameOpen(items, open, before, Nesting(before, |before|).starts) && Nest(items, open, at).Open?
    ensures var kept := before + [items[at]];
            Nesting(kept, |kept|).Open? && SameOpen(items, Nest(items, open, at).starts, kept, Nesting(kept, |kept|).starts)
  {
    hide Nesting;
    var kept := before + [items[at]];
    NestingSame(before, kept, |before|);
    NestingStep(kept, |kept|);
    var open' := Nesting(before, |before|).starts;
    SameOpenLonger(items, open, before, open', items[at]);
    NestAlike(items, open, at, kept, open', |before|);
  }

  lemma SameOpenLonger(items: seq<Item>, open: seq<nat>, before: seq<Item>, open': seq<nat>, item: Item)
    requires SameOpen(items, open, before, open')
    ensures SameOpen(items, open, before + [item], open')
  {
  }

  /** INVALID tokens do not matter to the nesting. */
  lemma {:induction false} KeptNests(items: seq<Item>, n: nat)
    requires n <= |items| && Nesting(items, n).Open?
    ensures var kept := Kept(items[..n]);
            Nesting(kept, |kept|).Open? && SameOpen(items, Nesting(items, n).starts, kept, Nesting(kept, |kept|).starts)
  {
    hide Nesting, SameOpen, Nest, Kept;
    if n == 0 {
      NothingKept(items);
    } else {
      NestingStep(items, n);
      KeptNests(items, n - 1);
      KeptStep(items, n);
      var open := Nesting(items, n - 1).starts;
      var before := Kept(items[..n - 1]);
      if items[n - 1].status == INVALID {
        InvalidDoesNotNest(items, open, n - 1);
        assert before + [] == before;
      } else {
        KeptOneMore(items, open, n - 1, before);
      }
    }
  }

  lemma NothingKept(items: seq<Item>)
    ensures Kept(items[..0]) == [] && Nesting(items, 0) == Open([]) && Nesting([], 0) == Open([])
    ensures SameOpen(items, [], [], [])
  {
  }

  lemma {:induction false} KeptBalances(items: seq<Item>)
    ensures Balance(Kept(items)) == Balance(items)
  {
    if items != [] {
      var last := |items| - 1;
      var before := Kept(items[..last]);
      KeptBalances(items[..last]);
      if items[last].status == INVALID {
        assert before + [] == before;
      } else {
        assert (before + [items[last]])[..|before|] == before;
      }
    }
  }

  /** Leaving out the INVALID tokens does not change whether every block is closed. */
  lemma KeptCloses(items: seq<Item>)
    requires Nesting(items, |items|).Open? || Balance(items) > 0
    ensures var kept := Kept(items); Nesting(items, |items|) == Open([]) <==> Nesting(kept, |kept|) == Open([])
  {
    hide Nesting, Kept, Balance, SameOpen;
    var kept := Kept(items);
    assert items[..|items|] == items && kept[..|kept|] == kept;
    if Nesting(items, |items|).Open? {
      KeptNests(items, |items|);
      SameOpenLength(items, Nesting(items, |items|).starts, kept, Nesting(kept, |kept|).starts);
    } else {
      KeptBalances(items);
      NothingBalances(kept);
    }
  }

  lemma SameOpenLength(items: seq<Item>, open: seq<nat>, items': seq<Item>, open': seq<nat>)
    requires SameOpen(items, open, items', open')
    ensures |open| == |open'|
  {
  }

  lemma NothingBalances(items: seq<Item>)
    ensures Nesting(items, |items|) == Open([]) ==> Balance(items) == 0
  {
    assert items[..|items|] == items;
    if Nesting(items, |items|).Open? {
      NestingBalances(items, |items|);
    }
  }

  /** s' has the same queue front, and the tokens before it are as they were. */
  ghost predicate Extends(s: Scan, s': Scan) {
    s'.front == s.front <= |s.all| <= |s'.all| && s'.all[..s.front] == s.all[..s.front]
  }

  lemma ResolveExtends(s: Scan, k: SimpleKey, valid: bool)
    requires KeyOk(s, k) && KeyPointsInside(s, k)
    ensures Extends(s, Resolve(s, k, valid))
  {
    var s' := Resolve(s, k, valid);
    assert forall i :: 0 <= i < s.front ==> s'.all[i] == s.all[i];
  }

  lemma DecideExtends(s: Scan, m: Mark)
    requires Sound(s) && PointersOk(s)
    ensures Extends(s, InvalidateSimpleKey(s)) && Extends(s, VerifySimpleKey(s, m).0)
  {
    if ExistsActiveSimpleKey(s) {
      var k := s.simpleKeys[|s.simpleKeys| - 1];
      ResolveExtends(s, k, false);
      ResolveExtends(s, k, VerifySimpleKey(s, m).1);
    }
  }

  lemma InsertExtends(s: Scan, m: Mark, kind: IndentType, status: IndentStatus)
    requires PointersOk(s) && s.indents != []
    ensures Extends(s, InsertPotentialSimpleKey(s, m)) && Extends(s, PushIndent(s, m.column, kind, status).0)
  {
  }

  lemma PopIndentExtends(s: Scan)
    requires Sound(s) && PointersOk(s) && s.indents != [] && !InFlow(s) && Top(s).kind != NONE
    ensures Extends(s, PopIndent(s))
  {
    FrontInside(s);
    if Top(s).status == Valid {
      PopValidFrame(s);
      hide Sound, PopIndent;
    } else {
      DecideExtends(s, Mark(0, 0, 0));
      InvalidateAndPop(s);
      hide Sound, PopIndent, InvalidateSimpleKey;
    }
  }

  lemma {:induction false} PopToColumnExtends(s: Scan, column: int, atBlockEntry: bool)
    requires Sound(s) && PointersOk(s) && !InFlow(s) && column >= 0
    ensures Extends(s, PopToColumn(s, column, atBlockEntry))
    decreases |s.indents|
  {
    hide Sound;
    SoundPointsInside(s);
    if Top(s).column >= column && !(Top(s).column == column && !(Top(s).kind == SEQ && !atBlockEntry)) {
      SoundTop(s);
      PopIndentSound(s);
      PopIndentExtends(s);
      PopIndentKeepsPointers(s);
      PopToColumnExtends(PopIndent(s), column, atBlockEntry);
    }
  }

  lemma {:induction false} PopInvalidExtends(s: Scan)
    requires Sound(s) && PointersOk(s) && !InFlow(s)
    ensures Extends(s, PopInvalid(s))
    decreases |s.indents|
  {
    hide Sound;
    SoundPointsInside(s);
    if Top(s).status == Invalid {
      SoundTop(s);
      PopIndentSound(s);
      PopIndentExtends(s);
      PopIndentKeepsPointers(s);
      PopInvalidExtends(PopIndent(s));
    }
  }

  lemma {:induction false} PopToNoneExtends(s: Scan)
    requires Sound(s) && PointersOk(s) && !InFlow(s)
    ensures Extends(s, PopToNone(s))
    decreases |s.indents|
  {
    hide Sound;
    SoundPointsInside(s);
    if Top(s).kind != NONE {
      PopIndentSound(s);
      PopIndentExtends(s);
      PopIndentKeepsPointers(s);
      PopToNoneExtends(PopIndent(s));
    }
  }

  lemma OutdentExtends(s: Scan, column: int, atBlockEntry: bool)
    requires Sound(s) && PointersOk(s) && column >= 0
    ensures Extends(s, PopIndentToHere(s, column, atBlockEntry)) && Extends(s, PopAllIndents(s))
  {
    hide Sound;
    FrontInside(s);
    if !InFlow(s) {
      PopToColumnExtends(s, column, atBlockEntry);
      PopToColumnSound(s, column, atBlockEntry);
      PopInvalidExtends(PopToColumn(s, column, atBlockEntry));
      PopToNoneExtends(s);
    }
  }

  lemma FrontInside(s: Scan)
    requires Sound(s)
    ensures s.front <= |s.all|
  {
  }

  lemma AppendedExtends(s: Scan, s1: Scan, s2: Scan)
    requires Extends(s, s1) && s2.front == s1.front && s1.all <= s2.all
    ensures Extends(s, s2)
  {
  }

  lemma TailExtends(s: Scan, s1: Scan, s2: Scan)
    requires Extends(s, s1) && Extends(s1, s2)
    ensures Extends(s, s2)
  {
  }

  lemma CloseFlowEntryExtends(s: Scan, m: Mark)
    requires Sound(s) && PointersOk(s)
    ensures Extends(s, CloseFlowEntry(s, m))
  {
    hide Sound, InvalidateSimpleKey, VerifySimpleKey;
    DecideExtends(s, m);
    FrontInside(s);
    if InFlow(s) && s.flows[|s.flows| - 1] == FLOW_MAP {
      AppendedExtends(s, VerifySimpleKey(s, m).0, CloseFlowEntry(s, m));
    }
  }

  lemma ValueExtends(s: Scan, m: Mark)
    requires Sound(s) && PointersOk(s) && s.indents != [] && ScanValue(s, m).Next?
    requires !s.ended
    ensures Extends(s, ScanValue(s, m).scan)
  {
    hide Sound, VerifySimpleKey, PushIndent, PointersOk;
    DecideExtends(s, m);
    VerifySound(s, m);
    var (s1, isKey) := VerifySimpleKey(s, m);
    SoundPointsInside(s1);
    if isKey {
      AppendedExtends(s, s1, ScanValue(s, m).scan);
    } else {
      InsertExtends(s1, m, MAP, Valid);
      TailExtends(s, s1, PushIndent(s1, m.column, MAP, Valid).0);
      AppendedExtends(s, PushIndent(s1, m.column, MAP, Valid).0, ScanValue(s, m).scan);
    }
  }

  lemma MarkerExtends(s: Scan, token: Item)
    requires Sound(s) && PointersOk(s)
    ensures Extends(s, ScanMarker(s, token)) && Extends(s, EndStream(s))
  {
    hide Sound, PopAllIndents;
    OutdentExtends(s, 0, false);
    AppendedExtends(s, PopAllIndents(s), ScanMarker(s, token));
  }

  /** The actions that begin with a potential simple key, and those that begin with an indent. */
  lemma InsertingExtends(s: Scan, a: Action, m: Mark)
    requires Sound(s) && PointersOk(s) && s.indents != [] && Enabled(s, a) && Act(s, a, m).Next?
    requires a.FlowStart? || a.Property? || a.Plain? || a.Quoted? || a.BlockEntry? || a.Key?
    ensures Extends(s, Act(s, a, m).scan)
  {
    hide Sound, PointersOk, PushIndent, InsertPotentialSimpleKey;
    InsertExtends(s, m, if a.Key? then MAP else SEQ, Valid);
    if a.BlockEntry? || a.Key? {
      AppendedExtends(s, PushIndent(s, m.column, if a.Key? then MAP else SEQ, Valid).0, Act(s, a, m).scan);
    } else {
      AppendedExtends(s, InsertPotentialSimpleKey(s, m), Act(s, a, m).scan);
    }
  }

  lemma FlowExtends(s: Scan, a: Action, m: Mark)
    requires Sound(s) && PointersOk(s) && s.indents != [] && Enabled(s, a) && Act(s, a, m).Next?
    requires a.FlowEnd? || a.FlowEntry?
    ensures Extends(s, Act(s, a, m).scan)
  {
    hide Sound, PointersOk, CloseFlowEntry;
    CloseFlowEntryExtends(s, m);
    AppendedExtends(s, CloseFlowEntry(s, m), Act(s, a, m).scan);
  }

  lemma SoundActExtends(s: Scan, a: Action, m: Mark)
    requires Sound(s) && PointersOk(s) && s.indents != [] && s.started && Enabled(s, a) && Act(s, a, m).Next?
    ensures !a.Dequeue? ==> Extends(s, Act(s, a, m).scan)
  {
    hide Sound, PointersOk;
    hide InvalidateSimpleKey, VerifySimpleKey, PushIndent, InsertPotentialSimpleKey, PopIndentToHere;
    hide ScanMarker, EndStream, ScanFlowStart, ScanFlowEnd, ScanFlowEntry, ScanBlockEntry, ScanKey, ScanValue, ScanProperty;
    hide ScanPlainScalar, ScanQuotedScalar;
    FrontInside(s);
    match a
    case Start =>
    case Tab =>
    case Break =>
      DecideExtends(s, m);
      AppendedExtends(s, InvalidateSimpleKey(s), EatBreak(s));
    case Outdent(atBlockEntry) => OutdentExtends(s, m.column, atBlockEntry);
    case End => MarkerExtends(s, Item(DOC_END, VALID, ""));
    case Marker(token) => MarkerExtends(s, token);
    case FlowEnd(_) => FlowExtends(s, a, m);
    case FlowEntry => FlowExtends(s, a, m);
    case Value => ValueExtends(s, m);
    case Literal(_) =>
    case Dequeue =>
    case _ => InsertingExtends(s, a, m);
  }

  /** A token that was handed out is never changed: simple keys are decided only while in the queue. */
  lemma DequeuedIsFinal(steps: seq<Step>, s: Scan, step: Step, s': Scan, forgot: bool)
    requires Reaches(steps, s, forgot) && StepLeads(s, step, s')
    ensures s.front <= s'.front && s.front <= |s.all| <= |s'.all| && s'.all[..s.front] == s.all[..s.front]
  {
    ReachableSound(steps, s, forgot);
    hide Reaches, Sound, PointersOk;
    if s != INITIAL {
      StartedWhenSound(s);
      FrontInside(s);
      hide Act;
      SoundActExtends(s, step.action, step.mark);
    }
  }

  /** How many tokens in front are decided: the next one, if there is one, is UNVERIFIED. */
  function Decided(items: seq<Item>): (n: nat)
    ensures n <= |items| && (n < |items| ==> items[n].status == UNVERIFIED)
    ensures forall i :: 0 <= i < n ==> items[i].status != UNVERIFIED
  {
    if items == [] || items[0].status == UNVERIFIED then 0 else 1 + Decided(items[1..])
  }

  lemma DecidedSteps(items: seq<Item>, front: nat)
    requires front <= |items| && (front < |items| ==> items[front].status == UNVERIFIED)
    requires forall i :: 0 <= i < front ==> items[i].status != UNVERIFIED
    ensures Decided(items) == front
  {
  }

  /** While the stream has not ended, only what was decided is handed out. */
  lemma {:induction false} HandedOutIsDecided(steps: seq<Step>, s: Scan, forgot: bool, i: nat)
    requires Reaches(steps, s, forgot) && !s.ended && i < s.front
    ensures i < |s.all| && s.all[i].status != UNVERIFIED
  {
    if steps != [] {
      var last := |steps| - 1;
      var before, early :| Reaches(steps[..last], before, early) && LastStep(before, early, steps[last], s, forgot);
      DequeuedIsFinal(steps[..last], before, steps[last], s, early);
      hide Reaches;
      if i < before.front && !before.ended {
        HandedOutIsDecided(steps[..last], before, early, i);
        assert s.all[i] == s.all[..before.front][i];
      } else {
        OneAtATime(steps[..last], before, early, steps[last], s);
      }
    }
  }

  /** Only taking a token from the queue hands one out, and it does nothing else. */
  lemma OneAtATime(steps: seq<Step>, before: Scan, forgot: bool, step: Step, s: Scan)
    requires Reaches(steps, before, forgot) && StepLeads(before, step, s)
    ensures before.ended ==> s.ended
    ensures if step.action.Dequeue? then s == before.(front := before.front + 1) && CanDequeue(before) else s.front == before.front
  {
    if before != INITIAL && !step.action.Dequeue? {
      ReachableSound(steps, before, forgot);
      StartedWhenSound(before);
      hide Reaches, Sound, Act;
      SoundActExtends(before, step.action, step.mark);
    }
  }

  // The text "[", a line with "---", a line with "]"

  const CUT_START := Scan([], 0, true, false, true, false, [], [Indent(-1, NONE, Valid, Nil)], [0], [])

  const CUT_TOKENS := [Item(BLOCK_MAP_START, UNVERIFIED, ""), Item(KEY, UNVERIFIED, ""), Item(FLOW_SEQ_START, VALID, "")]

  const CUT_INDENTS := [Indent(-1, NONE, Valid, Nil), Indent(0, MAP, Unknown, To(0))]

  const CUT_OPENED := Scan(CUT_TOKENS, 0, true, false, true, false,
                           [SimpleKey(Mark(0, 0, 0), 0, To(1), To(0), 1)], CUT_INDENTS, [0, 1], [FLOW_SEQ])

  const CUT_MARKED := Scan(CUT_TOKENS + [Item(DOC_START, VALID, "")], 0, true, false, false, false,
                           [], CUT_INDENTS, [0, 1], [FLOW_SEQ])

  const CUT_CLOSED := Scan(CUT_TOKENS + [Item(DOC_START, VALID, ""), Item(FLOW_SEQ_END, VALID, "")], 0, true, false, false, true,
                           [], CUT_INDENTS, [0, 1], [])

  lemma CutSteps()
    ensures CUT_START == StartStream(INITIAL)
    ensures PointersOk(CUT_START) && CUT_OPENED == ScanFlowStart(CUT_START, Mark(0, 0, 0), FLOW_SEQ)
    ensures PointersOk(CUT_OPENED) && CUT_MARKED == ScanMarker(CUT_OPENED, Item(DOC_START, VALID, ""))
  {
  }

  lemma CutFlowEnds()
    ensures PointersOk(CUT_MARKED) && ScanFlowEnd(CUT_MARKED, Mark(6, 2, 0), FLOW_SEQ) == Next(CUT_CLOSED)
  {
  }

  lemma CutStreamEnds()
    ensures PointersOk(CUT_CLOSED) && PopAllIndents(CUT_CLOSED) == CUT_CLOSED.(indents := [0])
  {
    assert PopIndent(CUT_CLOSED) == CUT_CLOSED.(indents := [0]);
    assert PopToNone(CUT_CLOSED.(indents := [0])) == CUT_CLOSED.(indents := [0]);
  }

  const CUT_STEPS := [
    Step(Start, Mark(0, 0, 0)), Step(FlowStart(FLOW_SEQ), Mark(0, 0, 0)), Step(Marker(Item(DOC_START, VALID, "")), Mark(2, 1, 0)),
    Step(FlowEnd(FLOW_SEQ), Mark(6, 2, 0)), Step(End, Mark(7, 2, 1))]

  /** A run of the scanner that leaves a block start in the queue, undecided and without an end. */
  lemma CutFlowBreaksNesting()
    ensures PointersOk(CUT_CLOSED)
    ensures var s := EndStream(CUT_CLOSED);
            && Reaches(CUT_STEPS, s, true) && s.ended && !InFlow(s)
            && s.all == CUT_CLOSED.all && s.all[0] == Item(BLOCK_MAP_START, UNVERIFIED, "") && Nesting(s.all, |s.all|) == Open([0])
  {
    CutSteps();
    CutFlowEnds();
    CutStreamEnds();
    CutTokens();
    CutNesting(CUT_CLOSED.all);
    hide Nesting, Reaches;
    CutRun();
  }

  lemma CutRun()
    requires PointersOk(CUT_CLOSED)
    ensures Reaches(CUT_STEPS, EndStream(CUT_CLOSED), true)
  {
    var start, bracket, marker, closing, end := CUT_STEPS[0], CUT_STEPS[1], CUT_STEPS[2], CUT_STEPS[3], CUT_STEPS[4];
    assert [] + [start] == [start] && [start] + [bracket] == [start, bracket];
    assert [start, bracket] + [marker] == [start, bracket, marker];
    assert [start, bracket, marker] + [closing] == [start, bracket, marker, closing];
    assert CUT_STEPS == [start, bracket, marker, closing] + [end];
    CutStepsLead();
    hide Reaches, StepLeads;
    FreshScanner();
    ReachesOn([], INITIAL, false, start, CUT_START);
    ReachesOn([start], CUT_START, false, bracket, CUT_OPENED);
    ReachesOn([start, bracket], CUT_OPENED, false, marker, CUT_MARKED);
    ReachesOn([start, bracket, marker], CUT_MARKED, true, closing, CUT_CLOSED);
    ReachesOn([start, bracket, marker, closing], CUT_CLOSED, true, end, EndStream(CUT_CLOSED));
  }

  lemma CutStepsLead()
    requires PointersOk(CUT_CLOSED)
    ensures StepLeads(INITIAL, CUT_STEPS[0], CUT_START) && StepLeads(CUT_START, CUT_STEPS[1], CUT_OPENED)
    ensures StepLeads(CUT_OPENED, CUT_STEPS[2], CUT_MARKED) && StepLeads(CUT_MARKED, CUT_STEPS[3], CUT_CLOSED)
    ensures StepLeads(CUT_CLOSED, CUT_STEPS[4], EndStream(CUT_CLOSED))
  {
    CutSteps();
    CutFlowEnds();
    hide StartStream, ScanFlowStart, ScanMarker, ScanFlowEnd, EndStream;
  }

  lemma FreshScanner()
    ensures Reaches([], INITIAL, false)
  {
  }

  lemma CutTokens()
    ensures var items := CUT_CLOSED.all;
            |items| == 5 && items[0] == Item(BLOCK_MAP_START, UNVERIFIED, "") && forall j :: 1 <= j < 5 ==> !IsBlockToken(items[j].kind)
  {
  }

  lemma CutNesting(items: seq<Item>)
    requires |items| == 5 && items[0] == Item(BLOCK_MAP_START, UNVERIFIED, "")
    requires forall j :: 1 <= j < 5 ==> !IsBlockToken(items[j].kind)
    ensures Nesting(items, |items|) == Open([0])
  {
    OtherTokensNest(items, 5, 1);
    FirstStartNests(items);
  }

  lemma FirstStartNests(items: seq<Item>)
    requires items != [] && IsStart(items[0])
    ensures Nesting(items, 1) == Open([0])
  {
    NestingStep(items, 1);
  }

  lemma {:induction false} OtherTokensNest(items: seq<Item>, n: nat, m: nat)
    requires m <= n <= |items| && forall j :: m <= j < n ==> !IsBlockToken(items[j].kind)
    ensures Nesting(items, n) == Nesting(items, m)
    decreases n
  {
    if m < n {
      OtherTokensNest(items, n - 1, m);
    }
  }
}
