/**
 * The Scanner class over its input. Every method does to the fields what the transition of the same name
 * does to the state, so each token queue a scanner produces is that of a run; scanning always ends.
 */
module Scanning {
  import opened Tokens
  import opened Streaming
  import opened ScannerState
  import opened ScannerSteps
  import opened ScannerInvariant
  import opened ScannerSound
  import opened ScannerRuns
  import opened ScannerTally
  import opened TokenText
  import opened ScannerBranches
  import opened ScannerText
  import opened ScalarReading
  import opened ScalarLines
  import opened ScalarScanning
  import opened QuotedScalars
  import Exp

  /** The sound states, as the ranks of the loop in EnsureTokensInQueue see them. */
  function Phase(started: bool, ended: bool): nat {
    if ended then 0 else if started then 1 else 2
  }

  class Scanner {
    const input: Stream
    var tokens: seq<Item>
    var front: nat
    var startedStream: bool
    var endedStream: bool
    var simpleKeyAllowed: bool
    var canBeJSONFlow: bool
    var simpleKeys: seq<SimpleKey>
    var indentRefs: seq<Indent>
    var indents: seq<nat>
    var flows: seq<Flow>
    /** The steps taken so far, and whether one of them forgot a block start. */
    ghost var steps: seq<Step>
    ghost var forgot: bool

    ghost function State(): Scan
      reads this
    {
      Scan(tokens, front, startedStream, endedStream, simpleKeyAllowed, canBeJSONFlow, simpleKeys, indentRefs, indents, flows)
    }

    ghost predicate Valid()
      reads this
    {
      Reaches(steps, State(), forgot)
    }

    /** Started, not ended, and inside the methods that follow one another in a scan. */
    ghost predicate Active()
      reads this
    {
      Valid() && Sound(State()) && !endedStream
    }

    constructor (input: Stream)
      ensures this.input == input && Valid() && State() == INITIAL && !forgot
    {
      this.input := input;
      tokens, front, startedStream, endedStream, simpleKeyAllowed, canBeJSONFlow := [], 0, false, false, false, false;
      simpleKeys, indentRefs, indents, flows := [], [], [], [];
      steps, forgot := [], false;
    }

    /** Adds to the record the action that led here from `before`. */
    ghost method Record(before: Scan, action: Action, mark: Mark)
      requires Reaches(steps, before, forgot) && Sound(before) && Enabled(before, action)
      requires PointersOk(before) && before.indents != []
      requires Act(before, action, mark) == Next(State())
      modifies this`steps, this`forgot
      ensures Valid() && Sound(State())
      ensures forgot == (old(forgot) || ForgetsStart(before, action))
      ensures !action.Dequeue? ==> Extends(before, State())
    {
      hide Reaches, Act, Sound, PointersOk, Extends;
      StartedWhenSound(before);
      SoundActExtends(before, action, mark);
      var step := Step(action, mark);
      LeadsTo(before, step, State());
      ReachesOn(steps, before, forgot, step, State());
      ActSound(before, action, mark);
      steps, forgot := steps + [step], forgot || ForgetsStart(before, action);
    }

    // Simple keys (simplekey.cpp)

    predicate CanInsertPotentialSimpleKey()
      reads this
    {
      simpleKeyAllowed && !ExistsActiveSimpleKey()
    }

    predicate ExistsActiveSimpleKey()
      reads this
    {
      simpleKeys != [] && simpleKeys[|simpleKeys| - 1].flowLevel == |flows|
    }

    method SetStatus(key: SimpleKey, valid: bool)
      requires KeyPointsInside(State(), key)
      modifies this`tokens, this`indentRefs
      ensures State() == Resolve(old(State()), key, valid)
    {
      if key.indent.To? {
        indentRefs := indentRefs[key.indent.at := indentRefs[key.indent.at].(status := if valid then IndentStatus.Valid else Invalid)];
      }
      if key.mapStart.To? {
        tokens := tokens[key.mapStart.at := tokens[key.mapStart.at].(status := if valid then VALID else INVALID)];
      }
      tokens := tokens[key.key := tokens[key.key].(status := if valid then VALID else INVALID)];
    }

    method InsertPotentialSimpleKey()
      requires Sound(State()) && PointersOk(State()) && indents != []
      modifies this`tokens, this`indentRefs, this`indents, this`simpleKeys
      ensures State() == ScannerState.InsertPotentialSimpleKey(old(State()), input.Here())
    {
      if !CanInsertPotentialSimpleKey() {
        return;
      }
      hide PushIndent;
      var indent, mapStart := PushMapStart();
      tokens := tokens + [Item(KEY, UNVERIFIED, "")];
      simpleKeys := simpleKeys + [SimpleKey(input.Here(), |flows|, indent, mapStart, |tokens| - 1)];
    }

    /** "First add a map start, if necessary", undecided like the key. */
    method PushMapStart() returns (indent: Pointer, mapStart: Pointer)
      requires PointersOk(State()) && indents != []
      modifies this`tokens, this`indentRefs, this`indents
      ensures (State(), indent) == PushIndent(old(State()), input.column, MAP, Unknown)
      ensures mapStart == if indent.To? then To(|old(tokens)|) else Nil
    {
      UndecidedIndent(State(), input.column);
      FlowPushesNoIndent(State(), input.column);
      hide PushIndent;
      indent, mapStart := Nil, Nil;
      if flows == [] {
        indent := PushIndentTo(input.column, MAP);
        if indent.To? {
          mapStart := indentRefs[indent.at].start;
          indentRefs := indentRefs[indent.at := indentRefs[indent.at].(status := Unknown)];
          tokens := tokens[mapStart.at := tokens[mapStart.at].(status := UNVERIFIED)];
        }
      }
    }

    method InvalidateSimpleKey()
      requires PointersOk(State())
      modifies this`tokens, this`indentRefs, this`simpleKeys
      ensures State() == ScannerState.InvalidateSimpleKey(old(State()))
    {
      if !ExistsActiveSimpleKey() {
        return;
      }
      var last := |simpleKeys| - 1;
      SetStatus(simpleKeys[last], false);
      simpleKeys := simpleKeys[..last];
    }

    method VerifySimpleKey() returns (isValid: bool)
      requires PointersOk(State())
      modifies this`tokens, this`indentRefs, this`simpleKeys
      ensures (State(), isValid) == ScannerState.VerifySimpleKey(old(State()), input.Here())
    {
      if !ExistsActiveSimpleKey() {
        return false;
      }
      var key := simpleKeys[|simpleKeys| - 1];
      isValid := input.line == key.mark.line && input.pos - key.mark.pos <= MAX_KEY_LENGTH;
      SetStatus(key, isValid);
      simpleKeys := simpleKeys[..|simpleKeys| - 1];
    }

    method PopAllSimpleKeys()
      modifies this`simpleKeys
      ensures State() == ScannerSteps.PopAllSimpleKeys(old(State()))
    {
      while simpleKeys != []
        invariant State() == old(State()).(simpleKeys := simpleKeys)
        decreases |simpleKeys|
      {
        simpleKeys := simpleKeys[..|simpleKeys| - 1];
      }
    }

    // Indents (scanner.cpp)

    /** The new indent is VALID; InsertPotentialSimpleKey makes it undecided. */
    method PushIndentTo(column: int, kind: IndentType) returns (p: Pointer)
      requires PointersOk(State()) && indents != [] && kind != IndentType.NONE
      modifies this`tokens, this`indentRefs, this`indents
      ensures (State(), p) == PushIndent(old(State()), column, kind, IndentStatus.Valid)
    {
      if flows != [] {
        return Nil;
      }
      var last := indentRefs[indents[|indents| - 1]];
      if column < last.column {
        return Nil;
      }
      if column == last.column && !(kind == SEQ && last.kind == MAP) {
        return Nil;
      }
      tokens := tokens + [Item(StartTokenFor(kind), VALID, "")];
      indents := indents + [|indentRefs|];
      indentRefs := indentRefs + [Indent(column, kind, IndentStatus.Valid, To(|tokens| - 1))];
      p := To(|indentRefs| - 1);
    }

    method PopIndent()
      requires PointersOk(State()) && indents != []
      modifies this`tokens, this`indentRefs, this`indents, this`simpleKeys
      ensures State() == ScannerState.PopIndent(old(State()))
    {
      var indent := indentRefs[indents[|indents| - 1]];
      indents := indents[..|indents| - 1];
      if indent.status != IndentStatus.Valid {
        InvalidateSimpleKey();
        return;
      }
      if indent.kind == SEQ {
        tokens := tokens + [Item(BLOCK_SEQ_END, VALID, "")];
      } else if indent.kind == MAP {
        tokens := tokens + [Item(BLOCK_MAP_END, VALID, "")];
      }
    }

    method PopIndentToHere()
      requires PointersOk(State())
      modifies this`tokens, this`indentRefs, this`indents, this`simpleKeys
      ensures State() == ScannerState.PopIndentToHere(old(State()), input.column, Exp.BlockEntry(input.text, input.pos))
    {
      hide ScannerState.PopIndent;
      if flows != [] {
        return;
      }
      var atBlockEntry := Exp.BlockEntry(input.text, input.pos);
      PopToColumnKeepsPointers(State(), input.column, atBlockEntry);
      while indents != []
        invariant PointersOk(State()) && flows == []
        invariant PopToColumn(State(), input.column, atBlockEntry) == old(PopToColumn(State(), input.column, atBlockEntry))
        decreases |indents|
      {
        var indent := indentRefs[indents[|indents| - 1]];
        if indent.column < input.column {
          break;
        }
        if indent.column == input.column && !(indent.kind == SEQ && !atBlockEntry) {
          break;
        }
        PopIndentKeepsPointers(State());
        PopIndent();
      }
      while indents != [] && indentRefs[indents[|indents| - 1]].status == Invalid
        invariant PointersOk(State())
        invariant PopInvalid(State()) == old(ScannerState.PopIndentToHere(State(), input.column, atBlockEntry))
        decreases |indents|
      {
        PopIndentKeepsPointers(State());
        PopIndent();
      }
    }

    method PopAllIndents()
      requires PointersOk(State())
      modifies this`tokens, this`indentRefs, this`indents, this`simpleKeys
      ensures State() == ScannerState.PopAllIndents(old(State()))
    {
      hide ScannerState.PopIndent;
      if flows != [] {
        return;
      }
      while indents != [] && indentRefs[indents[|indents| - 1]].kind != IndentType.NONE
        invariant PointersOk(State()) && flows == []
        invariant PopToNone(State()) == old(PopToNone(State()))
        decreases |indents|
      {
        PopIndentKeepsPointers(State());
        PopIndent();
      }
    }

    // The stream's start and end

    method StartStream()
      requires Valid() && State() == INITIAL
      modifies this
      ensures Valid() && Sound(State()) && startedStream && !endedStream && forgot == old(forgot)
      ensures State() == ScannerSteps.StartStream(INITIAL)
    {
      hide Sound, Reaches;
      startedStream := true;
      simpleKeyAllowed := true;
      indentRefs := indentRefs + [Indent(-1, IndentType.NONE, IndentStatus.Valid, Nil)];
      indents := indents + [|indentRefs| - 1];
      LeadsTo(INITIAL, Step(Start, input.Here()), State());
      ReachesOn(steps, INITIAL, forgot, Step(Start, input.Here()), State());
      StartSound();
      steps := steps + [Step(Start, input.Here())];
    }

    method EndStream()
      requires Active()
      modifies this, input`column
      ensures Valid() && Sound(State()) && endedStream && forgot == old(forgot) && Extends(old(State()), State())
      ensures PointersOk(old(State())) && State() == ScannerSteps.EndStream(old(State()))
      ensures input.Here() == old(input.Here()).(column := 0)
    {
      hide Sound, Reaches, PointersOk, Extends;
      if input.column > 0 {
        input.ResetColumn();
      }
      ghost var before := State();
      SoundPointsInside(before);
      PopAllIndents();
      PopAllSimpleKeys();
      simpleKeyAllowed := false;
      endedStream := true;
      StartedWhenSound(before);
      Record(before, Action.End, input.Here());
    }

    // Tokens (scantoken.cpp)

    method ScanDirective()
      requires Active() && input.More()
      modifies this, input
      ensures Active() && forgot == (old(forgot) || StartWaits(old(State()))) && input.pos > old(input.pos) && Extends(old(State()), State())
      ensures PointersOk(old(State()))
      ensures State() == ScanMarker(old(State()), DirectiveAt(input.text, old(input.pos) + 1))
      ensures input.Here() == AfterMany(input.text, old(input.Here()),
                                        ParamsEnd(input.text, WordEnd(input.text, old(input.pos) + 1)) - old(input.pos))
    {
      hide Sound, PointersOk, Reaches, Extends, Exp.At, WordEnd, ParamsAt;
      ghost var before, mark := State(), input.Here();
      SoundPointsInside(before);
      PopAllIndents();
      PopAllSimpleKeys();
      simpleKeyAllowed := false;
      canBeJSONFlow := false;
      var token := ReadDirective(input);
      tokens := tokens + [token];
      StartedWhenSound(before);
      Record(before, Marker(token), mark);
    }

    method ScanDocStart()
      requires Active() && input.More()
      modifies this, input
      ensures Active() && forgot == (old(forgot) || StartWaits(old(State()))) && input.pos > old(input.pos) && Extends(old(State()), State())
      ensures PointersOk(old(State())) && State() == ScanMarker(old(State()), Item(DOC_START, VALID, ""))
      ensures input.Here() == AfterMany(input.text, old(input.Here()), 3)
    {
      hide Sound, PointersOk, Reaches, Extends;
      ghost var before, mark := State(), input.Here();
      SoundPointsInside(before);
      PopAllIndents();
      PopAllSimpleKeys();
      simpleKeyAllowed := false;
      canBeJSONFlow := false;
      input.Eat(3);
      tokens := tokens + [Item(DOC_START, VALID, "")];
      StartedWhenSound(before);
      Record(before, Marker(Item(DOC_START, VALID, "")), mark);
    }

    method ScanDocEnd()
      requires Active() && input.More()
      modifies this, input
      ensures Active() && forgot == (old(forgot) || StartWaits(old(State()))) && input.pos > old(input.pos) && Extends(old(State()), State())
      ensures PointersOk(old(State())) && State() == ScanMarker(old(State()), Item(DOC_END, VALID, ""))
      ensures input.Here() == AfterMany(input.text, old(input.Here()), 3)
    {
      hide Sound, PointersOk, Reaches, Extends;
      ghost var before, mark := State(), input.Here();
      SoundPointsInside(before);
      PopAllIndents();
      PopAllSimpleKeys();
      simpleKeyAllowed := false;
      canBeJSONFlow := false;
      input.Eat(3);
      tokens := tokens + [Item(DOC_END, VALID, "")];
      StartedWhenSound(before);
      Record(before, Marker(Item(DOC_END, VALID, "")), mark);
    }

    method ScanFlowStart()
      requires Active() && input.More()
      modifies this, input
      ensures Active() && forgot == old(forgot) && input.pos > old(input.pos) && Extends(old(State()), State())
      ensures PointersOk(old(State())) && old(indents) != []
      ensures State() == ScannerSteps.ScanFlowStart(old(State()), old(input.Here()), if old(input.Peek()) == '[' then FLOW_SEQ else FLOW_MAP)
      ensures input.Here() == AfterMany(input.text, old(input.Here()), 1)
    {
      hide Sound, PointersOk, Reaches, Extends, ScannerState.InsertPotentialSimpleKey;
      ghost var before, mark := State(), input.Here();
      SoundPointsInside(before);
      InsertPotentialSimpleKey();
      simpleKeyAllowed := true;
      canBeJSONFlow := false;
      var c := input.Get();
      var flow := if c == '[' then FLOW_SEQ else FLOW_MAP;
      flows := flows + [flow];
      tokens := tokens + [Item(if flow == FLOW_SEQ then FLOW_SEQ_START else FLOW_MAP_START, VALID, "")];
      StartedWhenSound(before);
      Record(before, FlowStart(flow), mark);
    }

    /** A solo entry in the flow context. */
    method CloseFlowEntry()
      requires PointersOk(State())
      modifies this`tokens, this`indentRefs, this`simpleKeys
      ensures State() == ScannerSteps.CloseFlowEntry(old(State()), input.Here())
    {
      hide ScannerState.VerifySimpleKey, ScannerState.InvalidateSimpleKey;
      if flows != [] {
        var isKey := false;
        if flows[|flows| - 1] == FLOW_MAP {
          isKey := VerifySimpleKey();
        }
        if isKey {
          tokens := tokens + [Item(VALUE, VALID, "")];
        } else if flows[|flows| - 1] == FLOW_SEQ {
          InvalidateSimpleKey();
        }
      }
    }

    method ScanFlowEnd() returns (ok: bool)
      requires Active() && input.More()
      modifies this, input
      ensures ok ==> Active() && forgot == old(forgot) && input.pos > old(input.pos) && Extends(old(State()), State())
      ensures PointersOk(old(State()))
      ensures var r := ScannerSteps.ScanFlowEnd(old(State()), old(input.Here()), if old(input.Peek()) == ']' then FLOW_SEQ else FLOW_MAP);
              (ok <==> r.Next?) && (ok ==> State() == r.scan && input.Here() == AfterMany(input.text, old(input.Here()), 1))
    {
      hide Sound, PointersOk, Reaches, Extends, ScannerSteps.CloseFlowEntry, Act;
      ghost var before, mark := State(), input.Here();
      SoundPointsInside(before);
      if flows == [] {
        return false;
      }
      CloseFlowEntrySound(before, mark);
      CloseFlowEntry();
      simpleKeyAllowed := false;
      canBeJSONFlow := true;
      var c := input.Get();
      var flow := if c == ']' then FLOW_SEQ else FLOW_MAP;
      if flows[|flows| - 1] != flow {
        return false;
      }
      flows := flows[..|flows| - 1];
      tokens := tokens + [Item(if flow == FLOW_SEQ then FLOW_SEQ_END else FLOW_MAP_END, VALID, "")];
      StartedWhenSound(before);
      ActsAsFlowEnd(before, mark, flow);
      Record(before, FlowEnd(flow), mark);
      ok := true;
    }

    method ScanFlowEntry()
      requires Active() && input.More()
      modifies this, input
      ensures Active() && forgot == old(forgot) && input.pos > old(input.pos) && Extends(old(State()), State())
      ensures PointersOk(old(State())) && State() == ScannerSteps.ScanFlowEntry(old(State()), old(input.Here()))
      ensures input.Here() == AfterMany(input.text, old(input.Here()), 1)
    {
      hide Sound, PointersOk, Reaches, Extends, ScannerSteps.CloseFlowEntry;
      ghost var before, mark := State(), input.Here();
      SoundPointsInside(before);
      CloseFlowEntry();
      simpleKeyAllowed := true;
      canBeJSONFlow := false;
      input.Eat(1);
      tokens := tokens + [Item(FLOW_ENTRY, VALID, "")];
      StartedWhenSound(before);
      Record(before, FlowEntry, mark);
    }

    method ScanBlockEntry() returns (ok: bool)
      requires Active() && input.More()
      modifies this, input
      ensures ok ==> Active() && forgot == old(forgot) && input.pos > old(input.pos) && Extends(old(State()), State())
      ensures PointersOk(old(State())) && old(indents) != []
      ensures var r := ScannerSteps.ScanBlockEntry(old(State()), old(input.Here()));
              (ok <==> r.Next?) && (ok ==> State() == r.scan && input.Here() == AfterMany(input.text, old(input.Here()), 1))
    {
      hide Sound, PointersOk, Reaches, Extends, PushIndent, AfterMany;
      ghost var before, mark := State(), input.Here();
      SoundPointsInside(before);
      if flows != [] {
        return false;
      }
      if !simpleKeyAllowed {
        return false;
      }
      var _ := PushIndentTo(input.column, SEQ);
      simpleKeyAllowed := true;
      canBeJSONFlow := false;
      input.Eat(1);
      tokens := tokens + [Item(BLOCK_ENTRY, VALID, "")];
      StartedWhenSound(before);
      Record(before, BlockEntry, mark);
      ok := true;
    }

    method ScanKey() returns (ok: bool)
      requires Active() && input.More()
      modifies this, input
      ensures ok ==> Active() && forgot == old(forgot) && input.pos > old(input.pos) && Extends(old(State()), State())
      ensures PointersOk(old(State())) && old(indents) != []
      ensures var r := ScannerSteps.ScanKey(old(State()), old(input.Here()));
              (ok <==> r.Next?) && (ok ==> State() == r.scan && input.Here() == AfterMany(input.text, old(input.Here()), 1))
    {
      hide Sound, PointersOk, Reaches, Extends, PushIndent, AfterMany;
      ghost var before, mark := State(), input.Here();
      SoundPointsInside(before);
      FlowPushesNoIndent(before, input.column);
      if flows == [] {
        if !simpleKeyAllowed {
          return false;
        }
        var _ := PushIndentTo(input.column, MAP);
      }
      simpleKeyAllowed := flows == [];
      input.Eat(1);
      tokens := tokens + [Item(KEY, VALID, "")];
      StartedWhenSound(before);
      Record(before, Action.Key, mark);
      ok := true;
    }

    method ScanValue() returns (ok: bool)
      requires Active() && input.More()
      modifies this, input
      ensures ok ==> Active() && forgot == old(forgot) && input.pos > old(input.pos) && Extends(old(State()), State())
      ensures PointersOk(old(State())) && old(indents) != []
      ensures var r := ScannerSteps.ScanValue(old(State()), old(input.Here()));
              (ok <==> r.Next?) && (ok ==> State() == r.scan && input.Here() == AfterMany(input.text, old(input.Here()), 1))
    {
      hide Sound, PointersOk, Reaches, Extends, PushIndent, ScannerState.VerifySimpleKey, Act, AfterMany;
      ghost var before, mark := State(), input.Here();
      SoundPointsInside(before);
      VerifySound(before, mark);
      VerifyChangesLittle(before, mark);
      ghost var verified := ScannerState.VerifySimpleKey(before, mark).0;
      SoundPointsInside(verified);
      FlowPushesNoIndent(verified, input.column);
      var isSimpleKey := VerifySimpleKey();
      canBeJSONFlow := false;
      if isSimpleKey {
        simpleKeyAllowed := false;
      } else {
        if flows == [] {
          if !simpleKeyAllowed {
            return false;
          }
          PushIgnoresFlags(verified, State(), input.column);
          var _ := PushIndentTo(input.column, MAP);
        }
        simpleKeyAllowed := flows == [];
      }
      input.Eat(1);
      tokens := tokens + [Item(VALUE, VALID, "")];
      StartedWhenSound(before);
      ActsAsValue(before, mark);
      Record(before, Value, mark);
      ok := true;
    }

    method ScanAnchorOrAlias() returns (ok: bool)
      requires Active() && input.More()
      modifies this, input
      ensures ok ==> Active() && forgot == old(forgot) && input.pos > old(input.pos) && Extends(old(State()), State())
      ensures PointersOk(old(State())) && old(indents) != []
      ensures var i := old(input.pos) + 1; var j := AnchorRun(input.text, i);
              && (ok <==> j > i && EndsAnchor(input.text, j))
              && (ok ==> State() == ScanProperty(old(State()), old(input.Here()),
                                                 Item(if old(input.Peek()) == '*' then ALIAS else ANCHOR, VALID, input.text[i..j])))
              && (ok ==> input.Here() == AfterMany(input.text, old(input.Here()), j - old(input.pos)))
    {
      hide Sound, PointersOk, Reaches, Extends, ScannerState.InsertPotentialSimpleKey, Act, AnchorRun, EndsAnchor, Advanced,
           OnFrom, AfterMany;
      ghost var before, mark := State(), input.Here();
      SoundPointsInside(before);
      InsertPotentialSimpleKey();
      simpleKeyAllowed := false;
      canBeJSONFlow := false;
      var indicator := input.Get();
      var kind := if indicator == '*' then ALIAS else ANCHOR;
      FirstRead(input, mark);
      ghost var inside := input.Here();
      var named, name := ReadAnchor(input);
      AdvancedBehind(input, mark, inside);
      AdvancedBy(input, mark);
      if !named {
        return false;
      }
      tokens := tokens + [Item(kind, VALID, name)];
      StartedWhenSound(before);
      ActsAsProperty(before, Item(kind, VALID, name), mark);
      Record(before, Property(Item(kind, VALID, name)), mark);
      ok := true;
    }

    method ScanTag() returns (ok: bool)
      requires Active() && input.More()
      modifies this, input
      ensures ok ==> Active() && forgot == old(forgot) && input.pos > old(input.pos) && Extends(old(State()), State())
      ensures PointersOk(old(State())) && old(indents) != []
      ensures var tag := TagAt(input.text, old(input.pos) + 1);
              && (ok <==> tag.TagText?)
              && (ok ==> State() == ScanProperty(old(State()), old(input.Here()), tag.token))
              && (ok ==> input.Here() == AfterMany(input.text, old(input.Here()), tag.end - old(input.pos)))
    {
      hide Sound, PointersOk, Reaches, Extends, ScannerState.InsertPotentialSimpleKey, Act, TagAt, Advanced, OnFrom, AfterMany;
      ghost var before, mark := State(), input.Here();
      SoundPointsInside(before);
      InsertPotentialSimpleKey();
      simpleKeyAllowed := false;
      canBeJSONFlow := false;
      var _ := input.Get();
      FirstRead(input, mark);
      ghost var inside := input.Here();
      var read, token := ReadTag(input);
      if !read {
        return false;
      }
      AdvancedBehind(input, mark, inside);
      AdvancedBy(input, mark);
      tokens := tokens + [token];
      StartedWhenSound(before);
      TagIsTag(input.text, mark.pos + 1);
      ActsAsProperty(before, token, mark);
      Record(before, Property(token), mark);
      ok := true;
    }

    method ScanPlainScalar() returns (ok: bool)
      requires Active() && input.More() && !StopsAt(input.text, input.Here(), PlainParams(flows != [], TopIndent(State())))
      modifies this, input
      ensures ok ==> Active() && forgot == old(forgot) && input.pos > old(input.pos) && Extends(old(State()), State())
      ensures PointersOk(old(State())) && old(indents) != []
      ensures var r := ReadScalar(input.text, old(input.Here()), PlainParams(old(flows) != [], TopIndent(old(State()))));
              && (ok <==> r.ScalarEnds?)
              && (ok ==> State() == ScannerSteps.ScanPlainScalar(old(State()), old(input.Here()), r.leadingSpaces, r.value))
              && (ok ==> input.Here() == r.mark)
    {
      hide Sound, PointersOk, Reaches, Extends, ScannerState.InsertPotentialSimpleKey, Act, ReadScalar, StopsAt;
      ghost var before, mark := State(), input.Here();
      SoundPointsInside(before);
      var params := PlainParams(flows != [], GetTopIndent());
      InsertPotentialSimpleKey();
      var r := ScanScalar(input, params);
      if r.Threw? {
        return false;
      }
      ScalarMoves(input.text, mark, params);
      simpleKeyAllowed := r.leadingSpaces;
      canBeJSONFlow := false;
      tokens := tokens + [Item(PLAIN_SCALAR, VALID, r.value)];
      StartedWhenSound(before);
      ActsAsScalar(before, r.leadingSpaces, r.value, mark);
      Record(before, Action.Plain(r.leadingSpaces, r.value), mark);
      ok := true;
    }

    method ScanQuotedScalar() returns (ok: bool)
      requires Active() && input.More()
      modifies this, input
      ensures ok ==> Active() && forgot == old(forgot) && input.pos > old(input.pos) && Extends(old(State()), State())
      ensures PointersOk(old(State())) && old(indents) != []
      ensures var r := QuotedAt(input.text, old(input.Here()));
              && (ok <==> r.ScalarEnds?)
              && (ok ==> State() == ScannerSteps.ScanQuotedScalar(old(State()), old(input.Here()), r.value) && input.Here() == r.mark)
    {
      hide Sound, PointersOk, Reaches, Extends, ScannerState.InsertPotentialSimpleKey, OneLine, Act, QuotedAt;
      ghost var before, mark := State(), input.Here();
      SoundPointsInside(before);
      InsertPotentialSimpleKey();
      var r := ReadQuoted(input);
      if r.Threw? {
        return false;
      }
      simpleKeyAllowed := false;
      canBeJSONFlow := true;
      tokens := tokens + [Item(NON_PLAIN_SCALAR, VALID, r.value)];
      StartedWhenSound(before);
      ActsAsScalar(before, false, r.value, mark);
      Record(before, Quoted(r.value), mark);
      ok := true;
    }

    method ScanBlockScalar() returns (ok: bool)
      requires Active() && input.More()
      modifies this, input
      ensures ok ==> Active() && forgot == old(forgot) && input.pos > old(input.pos) && Extends(old(State()), State())
      ensures var r := BlockAt(input.text, old(input.Here()), TopIndent(old(State())));
              && (ok <==> r.ScalarEnds?)
              && (ok ==> State() == ScannerSteps.ScanBlockScalar(old(State()), r.value) && input.Here() == r.mark)
    {
      hide Sound, PointersOk, Reaches, Extends, HeaderAt, HeaderEnd, ReadScalar;
      ghost var before, mark := State(), input.Here();
      SoundPointsInside(before);
      var header, params := ReadBlockHeader(input);
      if !header {
        return false;
      }
      var top := GetTopIndent();
      if top >= 0 {
        params := params.(indent := params.indent + top);
      }
      var r := ScanScalar(input, params);
      if r.Threw? {
        return false;
      }
      simpleKeyAllowed := true;
      canBeJSONFlow := false;
      tokens := tokens + [Item(NON_PLAIN_SCALAR, VALID, r.value)];
      StartedWhenSound(before);
      Record(before, Literal(r.value), mark);
      ok := true;
    }

    function GetTopIndent(): int
      requires PointersOk(State())
      reads this
    {
      if indents == [] then 0 else indentRefs[indents[|indents| - 1]].column
    }

    // Between tokens (scanner.cpp)

    method ScanToNextToken()
      requires Active()
      modifies this, input
      ensures Active() && forgot == old(forgot) && input.pos >= old(input.pos) && Extends(old(State()), State())
      ensures !IsBlankHere(input) && !Exp.IsBreak(input.Peek()) && flows == old(flows)
      ensures Place(State(), input.Here()) == Gap(input.text, Place(old(State()), old(input.Here())))
    {
      hide Sound, PointersOk, Reaches, Extends, Blanks, Comment, ScannerState.InvalidateSimpleKey;
      ExtendsItself(State());
      ghost var whole := Gap(input.text, Place(State(), input.Here()));
      while true
        invariant Active() && forgot == old(forgot) && input.pos >= old(input.pos) && flows == old(flows)
        invariant Extends(old(State()), State())
        invariant Gap(input.text, Place(State(), input.Here())) == whole
        decreases input.Left()
      {
        ghost var start := State();
        EatBlanks();
        TailExtends(old(State()), start, State());
        EatComment(input);
        if !Exp.IsBreak(input.Peek()) {
          break;
        }
        input.Eat(Exp.Break(input.text, input.pos));
        ghost var before, mark := State(), input.Here();
        SoundPointsInside(before);
        InvalidateKeepsFlows(before);
        InvalidateSimpleKey();
        if flows == [] {
          simpleKeyAllowed := true;
        }
        StartedWhenSound(before);
        Record(before, Action.Break, mark);
        TailExtends(old(State()), before, State());
      }
    }

    /** Eats spaces and tabs; after a tab in block context no simple key may start on this line. */
    method EatBlanks()
      requires Active()
      modifies this, input
      ensures Active() && forgot == old(forgot) && input.pos >= old(input.pos) && flows == old(flows) && Extends(old(State()), State())
      ensures !IsBlankHere(input)
      ensures Place(State(), input.Here()) == Blanks(input.text, Place(old(State()), old(input.Here())))
    {
      hide Sound, PointersOk, Reaches, Extends;
      ExtendsItself(State());
      while input.More() && Exp.IsBlank(input.Peek())
        invariant Active() && forgot == old(forgot) && input.pos >= old(input.pos) && flows == old(flows)
        invariant Extends(old(State()), State())
        invariant Blanks(input.text, Place(State(), input.Here())) == Blanks(input.text, Place(old(State()), old(input.Here())))
        decreases input.Left()
      {
        if input.Peek() == '\t' {
          ghost var before := State();
          SoundPointsInside(before);
          if flows == [] {
            simpleKeyAllowed := false;
          }
          StartedWhenSound(before);
          Record(before, Tab, input.Here());
          TailExtends(old(State()), before, State());
        }
        input.Eat(1);
      }
    }

    // The queue (scanner.cpp)

    /** The states a finished call leads to: what is behind the front of the queue stays. */
    ghost predicate Behind(before: Scan, hadForgotten: bool)
      reads this
    {
      Valid() && Extends(before, State()) && (forgot ==> hadForgotten || before.flows != [])
    }

    /** Closer to the end of the input, or in a later phase. */
    ghost predicate Progress(started: bool, ended: bool, left: nat)
      reads this, input
    {
      || Phase(startedStream, endedStream) < Phase(started, ended)
      || (Phase(startedStream, endedStream) == Phase(started, ended) && input.Left() < left)
    }

    lemma ValidIsSound()
      requires Valid()
      ensures startedStream ==> Sound(State()) && PointersOk(State()) && indents != []
      ensures !startedStream ==> State() == INITIAL
    {
      ReachableSound(steps, State(), forgot);
      hide Sound, PointersOk, Reaches;
      if State() != INITIAL {
        StartedWhenSound(State());
        SoundPointsInside(State());
      }
    }

    lemma FrontIsInside()
      requires Valid()
      ensures front <= |tokens|
    {
      ValidIsSound();
    }

    /**
     * Starts the stream, ends it, throws, or reads at least one character. Once started, what it does follows from
     * the text: skip to the next token, leave the blocks that end there, and take the action the characters call for.
     */
    method ScanNextToken() returns (ok: bool)
      requires Valid()
      modifies this, input
      ensures ok ==> Behind(old(State()), old(forgot))
      ensures ok && !old(endedStream) ==> startedStream && Progress(old(startedStream), old(endedStream), old(input.Left()))
      ensures old(endedStream) ==> ok && State() == old(State()) && input.Here() == old(input.Here())
      ensures !old(startedStream) && !old(endedStream) ==>
                ok && State() == ScannerSteps.StartStream(INITIAL) && input.Here() == old(input.Here())
      ensures old(startedStream) && !old(endedStream) ==>
                Sound(old(State())) &&
                TokenFrom(input.text, Place(old(State()), old(input.Here()))) ==
                if ok then Leads(Place(State(), input.Here())) else Throws
    {
      hide Sound, PointersOk, Reaches, Extends, ScannerState.PopIndentToHere, Gap, Act, Enabled, CalledFor, BranchAt;
      ghost var before := State();
      ValidIsSound();
      if endedStream {
        ExtendsItself(before);
        return true;
      }
      if !startedStream {
        StartStream();
        InitialExtends(State());
        return true;
      }
      ScanToNextToken();
      ghost var spaced, mark := State(), input.Here();
      Outdent();
      TailExtends(before, spaced, State());
      ghost var indented := State();
      if !input.More() {
        EndStream();
        ok := true;
      } else {
        ok := ScanToken();
      }
      if ok {
        TailExtends(before, indented, State());
        StartedWhenSound(State());
      }
    }

    method Outdent()
      requires Active()
      modifies this
      ensures Active() && forgot == old(forgot) && flows == old(flows) && Extends(old(State()), State())
      ensures PointersOk(old(State()))
      ensures State() == ScannerState.PopIndentToHere(old(State()), input.column, Exp.BlockEntry(input.text, input.pos))
    {
      hide Sound, PointersOk, Reaches, Extends, ScannerState.PopIndentToHere;
      ghost var before := State();
      SoundPointsInside(before);
      StartedWhenSound(before);
      OutdentChangesLittle(before, input.column, Exp.BlockEntry(input.text, input.pos));
      PopIndentToHere();
      Record(before, Action.Outdent(Exp.BlockEntry(input.text, input.pos)), input.Here());
    }

    /** What the characters at the input's position call for was done: the action was taken, or threw. */
    ghost predicate Did(called: Called, before: Scan, mark: Mark, ok: bool)
      reads this, input
    {
      CanAct(before) && (called.Called? ==> Scans(called.action)) &&
      Obey(called, before, mark) == if ok then Leads(Place(State(), input.Here())) else Throws
    }

    /** Branches on the next few characters. */
    method ScanToken() returns (ok: bool)
      requires Active() && input.More() && !IsBlankHere(input) && !Exp.IsBreak(input.Peek())
      modifies this, input
      ensures ok ==> Active() && Sound(State()) && input.pos > old(input.pos) && Extends(old(State()), State())
      ensures ok && forgot ==> old(forgot) || old(flows) != []
      ensures Did(CalledFor(BranchAt(input.text, old(input.Here()), old(flows) != [], old(canBeJSONFlow)), input.text,
                            old(input.Here()), old(State())), old(State()), old(input.Here()), ok)
    {
      hide Sound, PointersOk, Reaches, Extends, ScanMarker, ScannerSteps.ScanFlowStart, ScannerSteps.ScanFlowEnd,
           ScannerSteps.ScanFlowEntry, WordEnd, DirectiveAt, ParamsEnd, NodeAt, Exp.DocStart, Exp.DocEnd, CalledForContent, AfterMany;
      ghost var before := State();
      SoundPointsInside(before);
      StartedWhenSound(before);
      if input.column == 0 && input.Peek() == '%' {
        ScanDirective();
        return true;
      }
      if input.column == 0 && Exp.DocStart(input.text, input.pos) {
        ScanDocStart();
        return true;
      }
      if input.column == 0 && Exp.DocEnd(input.text, input.pos) {
        ScanDocEnd();
        return true;
      }
      if input.Peek() == '[' || input.Peek() == '{' {
        ScanFlowStart();
        return true;
      }
      if input.Peek() == ']' || input.Peek() == '}' {
        ok := ScanFlowEnd();
        return;
      }
      if input.Peek() == ',' {
        ScanFlowEntry();
        return true;
      }
      ok := ScanNode();
    }

    /** The branches for what is no marker and no flow indicator. */
    method ScanNode() returns (ok: bool)
      requires Active() && input.More() && !IsBlankHere(input) && !Exp.IsBreak(input.Peek())
      requires !(input.column == 0 && Exp.DocIndicator(input.text, input.pos))
      modifies this, input
      ensures ok ==> Active() && Sound(State()) && input.pos > old(input.pos) && Extends(old(State()), State()) && forgot == old(forgot)
      ensures Did(CalledFor(NodeAt(input.text, old(input.pos), old(flows) != [], old(canBeJSONFlow)), input.text,
                            old(input.Here()), old(State())), old(State()), old(input.Here()), ok)
    {
      hide Sound, PointersOk, Reaches, Extends, ScannerSteps.ScanBlockEntry, ScannerSteps.ScanKey, ScannerSteps.ScanValue,
           IsValue, Exp.BlockEntry, Exp.Key, ContentAt, CalledForContent;
      ghost var before := State();
      SoundPointsInside(before);
      StartedWhenSound(before);
      if Exp.BlockEntry(input.text, input.pos) {
        ok := ScanBlockEntry();
        return;
      }
      if Exp.Key(input.text, input.pos) {
        ok := ScanKey();
        return;
      }
      if IsValue(input.text, input.pos, flows != [], canBeJSONFlow) {
        ok := ScanValue();
        return;
      }
      ContentIsContent(input.text, input.Here(), flows != [], before);
      ok := ScanContent();
    }

    /** The branches for properties and scalars. */
    method ScanContent() returns (ok: bool)
      requires Active() && input.More() && !IsBlankHere(input) && !Exp.IsBreak(input.Peek())
      requires !(input.column == 0 && Exp.DocIndicator(input.text, input.pos))
      requires !IsValue(input.text, input.pos, flows != [], canBeJSONFlow)
      modifies this, input
      ensures ok ==> Active() && Sound(State()) && input.pos > old(input.pos) && Extends(old(State()), State()) && forgot == old(forgot)
      ensures Did(CalledForContent(ContentAt(input.text, old(input.pos), old(flows) != []), input.text, old(input.Here()), old(State())),
                  old(State()), old(input.Here()), ok)
    {
      hide Sound, PointersOk, Reaches, Extends, ScanProperty, AnchorRun, EndsAnchor, TagAt, ScalarAt, IsValue, Exp.DocIndicator;
      ghost var before := State();
      SoundPointsInside(before);
      StartedWhenSound(before);
      if input.Peek() == '*' || input.Peek() == '&' {
        ok := ScanAnchorOrAlias();
        return;
      }
      if input.Peek() == '!' {
        ok := ScanTag();
        return;
      }
      ok := ScanText();
    }

    /** The branches for scalars. */
    method ScanText() returns (ok: bool)
      requires Active() && input.More() && !IsBlankHere(input) && !Exp.IsBreak(input.Peek())
      requires !(input.column == 0 && Exp.DocIndicator(input.text, input.pos))
      requires !IsValue(input.text, input.pos, flows != [], canBeJSONFlow)
      modifies this, input
      ensures ok ==> Active() && Sound(State()) && input.pos > old(input.pos) && Extends(old(State()), State()) && forgot == old(forgot)
      ensures Did(CalledForContent(ScalarAt(input.text, old(input.pos), old(flows) != []), input.text, old(input.Here()), old(State())),
                  old(State()), old(input.Here()), ok)
    {
      hide Sound, PointersOk, Reaches, Extends, QuotedAt, BlockAt, ReadScalar, Exp.DocIndicator, IsValue, Act, Obey;
      ghost var before, mark := State(), input.Here();
      SoundPointsInside(before);
      StartedWhenSound(before);
      if flows == [] && (input.Peek() == '|' || input.Peek() == '>') {
        ok := ScanBlockScalar();
        ObeyBlock(before, mark, BlockAt(input.text, mark, TopIndent(before)));
        return;
      }
      if input.Peek() == '\'' || input.Peek() == '"' {
        ok := ScanQuotedScalar();
        ObeyQuoted(before, mark, QuotedAt(input.text, mark));
        return;
      }
      if if flows == [] then Exp.PlainScalar(input.text, input.pos) else Exp.PlainScalarInFlow(input.text, input.pos) {
        NoValueInFlow(input.text, input.pos, flows != [], canBeJSONFlow);
        PlainDoesNotStop(input.text, input.Here(), flows != [], TopIndent(State()), canBeJSONFlow);
        hide StopsAt, Exp.PlainScalar, Exp.PlainScalarInFlow;
        ok := ScanPlainScalar();
        ObeyPlain(before, mark, ReadScalar(input.text, mark, PlainParams(InFlow(before), TopIndent(before))));
        return;
      }
      ok := false;
      ObeyNothing(before, mark);
    }

    /** What was taken from the queue so far, without what had turned INVALID. */
    ghost function HandedOut(): seq<Item>
      reads this
    {
      if front <= |tokens| then Kept(tokens[..front]) else []
    }

    /** What scanning the rest of the text leads to, a function of the text and the state. */
    ghost function Rest(): Remainder
      requires Valid()
      reads this, input
    {
      ValidIsSound();
      StartSound();
      if startedStream then
        RewoundSound(State());
        ScanOn(input.text, Place(Rewound(State()), input.Here()))
      else ScanOn(input.text, Place(ScannerSteps.StartStream(INITIAL), input.Here()))
    }

    /** Not farther from the end of the input than before, nor in an earlier phase. */
    ghost predicate NoFarther(started: bool, ended: bool, left: nat, waiting: int)
      reads this, input
    {
      || Progress(started, ended, left)
      || (Phase(startedStream, endedStream) == Phase(started, ended) && input.Left() == left && |tokens| - front <= waiting)
    }

    /** Scanning the rest throws, and everything to be handed out before has been. */
    static ghost predicate ThrowsNow(rest: Remainder, items: seq<Item>) {
      rest.threw && HandedOutOf(rest) == items
    }

    /** A scan that throws is asked for when nothing decided is left in the queue. */
    lemma ThrowsWhenAsked()
      requires Valid() && !endedStream && (front < |tokens| ==> tokens[front].status == UNVERIFIED)
      ensures ThrowsNow(Remainder(Place(Rewound(State()), input.Here()), true), HandedOut())
    {
      FrontIsInside();
      forall i | 0 <= i < front
        ensures tokens[i].status != UNVERIFIED
      {
        HandedOutIsDecided(steps, State(), forgot, i);
      }
      DecidedSteps(tokens, front);
      hide Reaches;
    }

    /** One scan leads on to what was to come, or throws because that does. */
    lemma RestGoesOn(p: Place)
      requires Valid() && startedStream && Sound(p.scan) && p.scan.started && !p.scan.ended
      requires TokenFrom(input.text, p) == Leads(Place(State(), input.Here()))
      ensures Sound(Rewound(p.scan)) && ScanOn(input.text, RewoundPlace(p)) == Rest()
    {
      hide Sound, Reaches, TokenFrom;
      RewoundSound(p.scan);
      RewoundToken(input.text, p);
    }

    lemma RestThrows(p: Place)
      requires Sound(p.scan) && p.scan.started && !p.scan.ended && TokenFrom(input.text, p).Throws?
      ensures Sound(Rewound(p.scan)) && ScanOn(input.text, RewoundPlace(p)) == Remainder(RewoundPlace(p), true)
    {
      hide Sound, TokenFrom;
      RewoundSound(p.scan);
      RewoundToken(input.text, p);
    }

    /** ScanNextToken, and what it means for the rest. */
    method ScanOneMore() returns (ok: bool)
      requires Valid() && !endedStream
      modifies this, input
      ensures ok ==> Behind(old(State()), old(forgot)) && startedStream
      ensures ok ==> Progress(old(startedStream), old(endedStream), old(input.Left()))
      ensures if ok then Rest() == old(Rest()) else old(Rest()) == Remainder(Place(Rewound(old(State())), old(input.Here())), true)
    {
      hide Sound, Reaches, TokenFrom, ScanOn, Extends;
      ghost var before, wasStarted := Place(State(), input.Here()), startedStream;
      ValidIsSound();
      ok := ScanNextToken();
      if wasStarted {
        if ok {
          RestGoesOn(before);
        } else {
          RestThrows(before);
        }
      } else {
        assert Rewound(State()) == State();
      }
    }

    /** Returns or throws on every text; all it takes from the queue are tokens known to be INVALID. */
    method EnsureTokensInQueue() returns (ok: bool)
      requires Valid()
      modifies this, input
      ensures ok ==> Valid() && HandedOut() == old(HandedOut())
      ensures ok ==> (front < |tokens| && tokens[front].status == VALID) || (endedStream && (front < |tokens| ==> tokens[front].status == UNVERIFIED))
      ensures if ok then Rest() == old(Rest()) else ThrowsNow(old(Rest()), old(HandedOut()))
      ensures ok ==> NoFarther(old(startedStream), old(endedStream), old(input.Left()), old(|tokens| - front))
    {
      hide Sound, PointersOk, Reaches, ScanOn;
      ValidIsSound();
      FrontIsInside();
      while true
        invariant Valid() && front <= |tokens| && HandedOut() == old(HandedOut()) && Rest() == old(Rest())
        invariant NoFarther(old(startedStream), old(endedStream), old(input.Left()), old(|tokens| - front))
        decreases Phase(startedStream, endedStream), input.Left(), |tokens| - front
      {
        if front < |tokens| {
          if tokens[front].status == VALID {
            return true;
          }
          if tokens[front].status == INVALID {
            SkipInvalid(tokens, front);
            Dequeue();
            continue;
          }
        }
        if endedStream {
          return true;
        }
        ghost var behind := tokens[..front];
        ThrowsWhenAsked();
        ok := ScanOneMore();
        if !ok {
          return;
        }
        assert tokens[..front] == behind;
      }
    }

    method Dequeue()
      requires Valid() && front < |tokens| && (tokens[front].status != UNVERIFIED || endedStream)
      modifies this
      ensures Valid() && State() == old(State()).(front := old(front) + 1) && forgot == old(forgot)
      ensures Rest() == old(Rest())
    {
      hide Sound, PointersOk, Reaches, ScanOn;
      ghost var before := State();
      ValidIsSound();
      front := front + 1;
      StartedWhenSound(before);
      Record(before, Action.Dequeue, input.Here());
      assert Rewound(State()) == Rewound(before);
    }

    /**
     * Unless a block start was forgotten, what was handed out nests. After the end nothing is left open exactly
     * if none was forgotten and the text did not end in a flow inside a block.
     */
    lemma HandedOutNests()
      requires Valid()
      ensures !forgot ==> Nesting(HandedOut(), |HandedOut()|).Open?
      ensures endedStream && front == |tokens| ==>
                (Nesting(HandedOut(), |HandedOut()|) == Open([]) <==> !forgot && !(flows != [] && BlockIsOpen(State())))
    {
      ValidIsSound();
      FrontIsInside();
      hide Reaches, Nesting, Kept, PointersOk, BlockIsOpen, Balance;
      if !forgot {
        ReachableNests(steps, State(), front);
        KeptNests(tokens, front);
      }
      if endedStream && front == |tokens| {
        assert tokens[..front] == tokens;
        ClosedExactly(steps, State(), forgot);
        if forgot {
          ForgottenUnbalances(steps, State());
        }
        KeptCloses(tokens);
      }
    }

    method IsEmpty() returns (ok: bool, empty: bool)
      requires Valid()
      modifies this, input
      ensures ok ==> Valid() && (empty <==> front >= |tokens|) && (empty ==> endedStream)
      ensures ok ==> HandedOut() == old(HandedOut())
      ensures if ok then Rest() == old(Rest()) else ThrowsNow(old(Rest()), old(HandedOut()))
    {
      ok := EnsureTokensInQueue();
      empty := front >= |tokens|;
    }

    /** The next token, VALID unless the stream has ended. */
    method Peek() returns (ok: bool, token: Option)
      requires Valid()
      modifies this, input
      ensures ok ==> Valid() && HandedOut() == old(HandedOut())
      ensures ok ==> token == (if front < |tokens| then Some(tokens[front]) else None)
      ensures ok && token.Some? ==> token.item.status == VALID || (endedStream && token.item.status == UNVERIFIED)
      ensures if ok then Rest() == old(Rest()) else ThrowsNow(old(Rest()), old(HandedOut()))
    {
      ok := EnsureTokensInQueue();
      token := if front < |tokens| then Some(tokens[front]) else None;
    }

    /** Hands out the token in front, if there is one, after all that were handed out before. */
    method Pop() returns (ok: bool, token: Option)
      requires Valid()
      modifies this, input
      ensures ok ==> Valid() && HandedOut() == old(HandedOut()) + (if token.Some? then [token.item] else [])
      ensures ok && token.None? ==> endedStream && front >= |tokens|
      ensures if ok then Rest() == old(Rest()) else ThrowsNow(old(Rest()), old(HandedOut()))
      ensures ok && token.Some? ==> NoFarther(old(startedStream), old(endedStream), old(input.Left()), old(|tokens| - front) - 1)
    {
      hide Reaches, ScanOn;
      ok := EnsureTokensInQueue();
      token := None;
      if ok && front < |tokens| {
        token := Some(tokens[front]);
        KeepOne(tokens, front);
        Dequeue();
      }
    }

    /** After the last token, what was handed out are all tokens of the text. */
    lemma AllHandedOut()
      requires Valid() && endedStream && front >= |tokens|
      ensures !Rest().threw && HandedOut() == HandedOutOf(Rest())
    {
      FrontIsInside();
      EndedIsStarted();
      assert tokens[..front] == tokens;
      hide Reaches;
    }

    lemma EndedIsStarted()
      requires Valid() && endedStream
      ensures startedStream
    {
      ValidIsSound();
    }
  }

  datatype Option = None | Some(item: Item)

  /** Asked for one token after the other, a scanner hands out the tokens of its text, up to where it throws. */
  method ScanAll(text: string) returns (ok: bool, items: seq<Item>)
    ensures TokensOf(text) == Tokenized(items, !ok)
  {
    hide ScanOn, Reaches, Kept;
    var input := new Stream(text);
    var scanner := new Scanner(input);
    NothingHandedOut(scanner);
    items := [];
    ghost var rest := scanner.Rest();
    while true
      invariant scanner.Valid() && scanner.HandedOut() == items && scanner.Rest() == rest
      decreases Phase(scanner.startedStream, scanner.endedStream), input.Left(), |scanner.tokens| - scanner.front
    {
      scanner.FrontIsInside();
      var token;
      ok, token := scanner.Pop();
      if !ok {
        return;
      }
      if token.None? {
        break;
      }
      scanner.FrontIsInside();
      items := items + [token.item];
    }
    scanner.AllHandedOut();
  }

  lemma NothingHandedOut(scanner: Scanner)
    requires scanner.Valid() && scanner.State() == INITIAL
    ensures scanner.HandedOut() == []
  {
  }

  lemma SkipInvalid(items: seq<Item>, front: nat)
    requires front < |items| && items[front].status == INVALID
    ensures Kept(items[..front + 1]) == Kept(items[..front])
  {
    assert items[..front + 1][..front] == items[..front];
  }

  lemma KeepOne(items: seq<Item>, front: nat)
    requires front < |items| && items[front].status != INVALID
    ensures Kept(items[..front + 1]) == Kept(items[..front]) + [items[front]]
  {
    assert items[..front + 1][..front] == items[..front];
  }

  lemma InitialExtends(s: Scan)
    requires s == StartStream(INITIAL)
    ensures Extends(INITIAL, s)
  {
  }

  lemma OutdentChangesLittle(s: Scan, column: nat, atBlockEntry: bool)
    requires Sound(s) && PointersOk(s)
    ensures var s' := ScannerState.PopIndentToHere(s, column, atBlockEntry);
            s'.flows == s.flows && s'.ended == s.ended
  {
    hide Sound, PointersOk;
    if !InFlow(s) {
      PopToColumnSound(s, column, atBlockEntry);
      PopInvalidSound(PopToColumn(s, column, atBlockEntry), column);
    }
  }

  predicate IsBlankHere(input: Stream)
    reads input
  {
    Exp.IsBlank(input.Peek())
  }

  // What is read after an indicator

  /** A comment, up to the end of its line. */
  method EatComment(input: Stream)
    modifies input
    ensures input.pos >= old(input.pos)
    ensures !old(IsBlankHere(input)) ==> !IsBlankHere(input)
    ensures if old(input.Peek()) == '#' then !input.More() || Exp.IsBreak(input.Peek()) else input.pos == old(input.pos)
    ensures input.Here() == Comment(input.text, old(input.Here()))
  {
    if input.Peek() == '#' {
      while input.More() && !Exp.IsBreak(input.Peek())
        invariant input.pos >= old(input.pos)
        invariant LineRest(input.text, input.Here()) == LineRest(input.text, old(input.Here()))
        decreases input.Left()
      {
        input.Eat(1);
      }
    }
  }

  method ReadDirective(input: Stream) returns (token: Item)
    requires input.More()
    modifies input
    ensures input.pos > old(input.pos)
    ensures token == DirectiveAt(input.text, old(input.pos) + 1)
    ensures Advanced(input, old(input.Here())) && input.pos == ParamsEnd(input.text, WordEnd(input.text, old(input.pos) + 1))
  {
    hide WordEnd, BlankEnd, Advanced, OnFrom, ParamsAt, ParamsEnd;
    ghost var here := input.Here();
    var _ := input.Get();
    ghost var inside := input.Here();
    FirstRead(input, here);
    var name := ReadWord(input);
    AdvancedBehind(input, here, inside);
    var params := [];
    ghost var all, end := ParamsAt(input.text, input.pos), ParamsEnd(input.text, input.pos);
    assert params + all == all;
    while true
      invariant input.pos > old(input.pos) && input.pos <= |input.text| && Advanced(input, here)
      invariant params + ParamsAt(input.text, input.pos) == all && ParamsEnd(input.text, input.pos) == end
      decreases input.Left()
    {
      ghost var gap := input.Here();
      AdvancedHere(input, here);
      EatBlankRun(input);
      AdvancedBehind(input, here, gap);
      ParamsFrom(input.text, input.pos);
      if !input.More() || Exp.IsBreak(input.Peek()) || input.Peek() == '#' {
        assert params + [] == params;
        break;
      }
      ghost var before, word := params, input.Here();
      AdvancedHere(input, here);
      var param := ReadWord(input);
      AdvancedBehind(input, here, word);
      params := params + [param];
      assert before + ([param] + ParamsAt(input.text, input.pos)) == params + ParamsAt(input.text, input.pos);
    }
    token := Item(DIRECTIVE, VALID, name, VERBATIM, params);
  }

  /** The parameters from a place that is no blank. */
  lemma ParamsFrom(t: string, i: nat)
    requires i <= |t| && (i < |t| ==> !Exp.IsBlank(t[i]))
    ensures var k := WordEnd(t, i);
            if i >= |t| || Exp.IsBreak(t[i]) || t[i] == '#' then ParamsAt(t, i) == [] && ParamsEnd(t, i) == i
            else ParamsAt(t, i) == [t[i..k]] + ParamsAt(t, k) && ParamsEnd(t, i) == ParamsEnd(t, k)
  {
    assert BlankEnd(t, i) == i;
  }

  lemma FirstRead(input: Stream, here: Mark)
    requires input.Here() == After(input.text, here)
    ensures Advanced(input, here) && OnFrom(input.text, here, input.Here())
  {
    assert AfterMany(input.text, here, 1) == After(input.text, AfterMany(input.text, here, 0));
  }

  predicate OnFrom(t: string, start: Mark, m: Mark) {
    m.pos >= start.pos && m == AfterMany(t, start, m.pos - start.pos)
  }

  lemma AdvancedHere(input: Stream, start: Mark)
    requires Advanced(input, start)
    ensures OnFrom(input.text, start, input.Here())
  {
  }

  lemma AdvancedBy(input: Stream, start: Mark)
    requires Advanced(input, start)
    ensures input.pos >= start.pos && input.Here() == AfterMany(input.text, start, input.pos - start.pos)
  {
  }

  lemma AdvancedBehind(input: Stream, start: Mark, mid: Mark)
    requires OnFrom(input.text, start, mid) && Advanced(input, mid)
    ensures Advanced(input, start)
  {
    AdvancedTwice(input, start, mid);
  }

  method EatBlankRun(input: Stream)
    requires input.pos <= |input.text|
    modifies input
    ensures input.pos == BlankEnd(input.text, old(input.pos)) && input.pos <= |input.text| && Advanced(input, old(input.Here()))
    ensures !Exp.IsBlank(input.Peek())
    ensures ParamsAt(input.text, input.pos) == ParamsAt(input.text, old(input.pos))
    ensures ParamsEnd(input.text, input.pos) == ParamsEnd(input.text, old(input.pos))
  {
    while Exp.IsBlank(input.Peek())
      invariant old(input.pos) <= input.pos <= |input.text| && Advanced(input, old(input.Here()))
      invariant BlankEnd(input.text, input.pos) == BlankEnd(input.text, old(input.pos))
      decreases input.Left()
    {
      var _ := input.Get();
    }
    hide ParamsAt;
    SameParams(input.text, old(input.pos), input.pos);
  }

  lemma SameParams(t: string, i: nat, j: nat)
    requires j == BlankEnd(t, i)
    ensures ParamsAt(t, j) == ParamsAt(t, i) && ParamsEnd(t, j) == ParamsEnd(t, i)
  {
    assert BlankEnd(t, j) == j;
  }

  /** Characters up to the next blank or break. */
  method ReadWord(input: Stream) returns (word: string)
    modifies input
    ensures input.pos == WordEnd(input.text, old(input.pos)) && Advanced(input, old(input.Here()))
    ensures word == if old(input.pos) <= |input.text| then input.text[old(input.pos)..input.pos] else ""
    ensures old(input.More() && !Exp.IsBlankOrBreak(input.Peek())) ==> input.pos > old(input.pos)
  {
    word := "";
    while input.More() && !Exp.IsBlankOrBreak(input.Peek())
      invariant input.pos >= old(input.pos) && (old(input.pos) <= |input.text| ==> input.pos <= |input.text|)
      invariant WordEnd(input.text, input.pos) == WordEnd(input.text, old(input.pos)) && Advanced(input, old(input.Here()))
      invariant word == if old(input.pos) <= |input.text| then input.text[old(input.pos)..input.pos] else ""
      decreases input.Left()
    {
      var c := input.Get();
      word := word + [c];
    }
  }

  method ReadAnchor(input: Stream) returns (ok: bool, name: string)
    modifies input
    ensures input.pos == AnchorRun(input.text, old(input.pos)) && Advanced(input, old(input.Here()))
    ensures name == if old(input.pos) <= |input.text| then input.text[old(input.pos)..input.pos] else ""
    ensures ok <==> name != "" && EndsAnchor(input.text, input.pos)
  {
    name := "";
    while input.More() && Exp.Anchor(input.text, input.pos)
      invariant input.pos >= old(input.pos) && (old(input.pos) <= |input.text| ==> input.pos <= |input.text|)
      invariant AnchorRun(input.text, input.pos) == AnchorRun(input.text, old(input.pos)) && Advanced(input, old(input.Here()))
      invariant name == if old(input.pos) <= |input.text| then input.text[old(input.pos)..input.pos] else ""
      decreases input.Left()
    {
      var c := input.Get();
      name := name + [c];
    }
    ok := name != "" && !(input.More() && !Exp.AnchorEnd(input.text, input.pos));
  }

  method ReadQuoted(input: Stream) returns (r: Scanned)
    modifies input
    ensures QuotedAt(input.text, old(input.Here())) ==
            if r.Threw? then ScalarThrows else ScalarEnds(r.value, r.leadingSpaces, input.Here())
  {
    hide ReadScalar;
    var params := QuotedParams(if input.Peek() == '\'' then Single else Double);
    var _ := input.Get();
    r := ScanScalar(input, params);
  }

  /** A quoted scalar that closes on its line is read as its characters and escapes say. */
  lemma QuotedLine(t: string, m: Mark, q: Quote)
    requires Exp.At(t, m.pos) == QuoteChar(q) && OneLine(t, m.pos + 1, q).Line?
    ensures var line := OneLine(t, m.pos + 1, q);
            QuotedAt(t, m).ScalarEnds? && QuotedAt(t, m).value == line.value && !QuotedAt(t, m).leadingSpaces
            && QuotedAt(t, m).mark.pos == line.end + 1
  {
    hide ReadScalar, OneLine;
    QuotedOnOneLine(t, After(t, m), QuotedParams(q));
  }

  // Tags (scantag.cpp)

  method ReadTag(input: Stream) returns (ok: bool, token: Item)
    requires input.pos <= |input.text|
    modifies input
    ensures var tag := TagAt(input.text, old(input.pos));
            (ok <==> tag.TagText?) && (ok ==> token == tag.token && input.pos == tag.end && Advanced(input, old(input.Here())))
    ensures input.pos >= old(input.pos)
  {
    hide VerbatimEnd, HandleFrom, TagRun, Advanced, OnFrom;
    ghost var here := input.Here();
    token := Item(TAG, VALID, "");
    if input.More() && input.Peek() == '<' {
      var tag;
      ok, tag := ScanVerbatimTag(input);
      token := token.(value := tag, tag := VERBATIM);
    } else {
      var canBeHandle, value;
      ok, value, canBeHandle := ScanTagHandle(input);
      token := token.(value := value, tag := HandleKind(value, canBeHandle));
      if ok && canBeHandle && input.Peek() == '!' {
        ghost var mark := input.Here();
        AdvancedHere(input, here);
        var _ := input.Get();
        FirstRead(input, mark);
        AdvancedBehind(input, here, mark);
        AdvancedHere(input, here);
        ghost var behind := input.Here();
        var suffix;
        ok, suffix := ScanTagSuffix(input);
        AdvancedBehind(input, here, behind);
        token := token.(params := [suffix], tag := NAMED_HANDLE);
      }
    }
  }

  /** The next n characters. */
  method Take(input: Stream, ghost start: Mark, n: nat) returns (s: string)
    requires Advanced(input, start) && input.pos + n <= |input.text|
    modifies input
    ensures Advanced(input, start) && input.pos == old(input.pos) + n && s == input.text[old(input.pos)..input.pos]
  {
    hide Advanced;
    ghost var here := input.Here();
    AdvancedHere(input, start);
    s := input.GetString(n);
    ReadMany(input, here, n);
    AdvancedBehind(input, start, here);
    assert s == input.text[here.pos..here.pos + n];
  }

  lemma Longer(t: string, i: nat, j: nat, k: nat)
    requires i <= j <= k <= |t|
    ensures t[i..j] + t[j..k] == t[i..k]
  {
  }

  lemma NotMoved(input: Stream)
    ensures Advanced(input, input.Here())
  {
  }

  method ScanVerbatimTag(input: Stream) returns (ok: bool, tag: string)
    requires input.More()
    modifies input
    ensures input.pos >= old(input.pos)
    ensures var j := VerbatimEnd(input.text, old(input.pos) + 1);
            (ok <==> j != -1) && (ok ==> tag == input.text[old(input.pos) + 1..j] && input.pos == j + 1 && Advanced(input, old(input.Here())))
  {
    hide Advanced, Exp.URI;
    tag := "";
    ghost var from := input.Here();
    var _ := input.Get();
    ghost var start := input.pos;
    FirstRead(input, from);
    while input.More()
      invariant start <= input.pos <= |input.text| && tag == input.text[start..input.pos] && Advanced(input, from)
      invariant VerbatimEnd(input.text, input.pos) == VerbatimEnd(input.text, start)
      decreases input.Left()
    {
      if input.Peek() == '>' {
        var _ := Take(input, from, 1);
        return true, tag;
      }
      var n := Exp.URI(input.text, input.pos);
      if n == 0 {
        break;
      }
      ghost var here := input.pos;
      var s := Take(input, from, n);
      Longer(input.text, start, here, input.pos);
      tag := tag + s;
    }
    ok := false;
  }

  method ScanTagHandle(input: Stream) returns (ok: bool, tag: string, canBeHandle: bool)
    requires input.pos <= |input.text|
    modifies input
    ensures input.pos >= old(input.pos)
    ensures var h := HandleFrom(input.text, old(input.pos), true);
            && (ok <==> h.Handle?)
            && (ok ==> canBeHandle == h.canBeHandle && input.pos == h.end && tag == input.text[old(input.pos)..h.end])
    ensures Advanced(input, old(input.Here()))
  {
    hide Advanced;
    NotMoved(input);
    tag, canBeHandle := "", true;
    while input.More()
      invariant old(input.pos) <= input.pos <= |input.text| && tag == input.text[old(input.pos)..input.pos]
      invariant HandleFrom(input.text, input.pos, canBeHandle) == HandleFrom(input.text, old(input.pos), true)
      invariant Advanced(input, old(input.Here()))
      decreases input.Left()
    {
      if input.Peek() == '!' {
        if !canBeHandle {
          return false, tag, canBeHandle;
        }
        break;
      }
      var n := 0;
      if canBeHandle {
        n := if Exp.IsWord(input.Peek()) then 1 else 0;
        canBeHandle := n > 0;
      }
      if !canBeHandle {
        n := Exp.Tag(input.text, input.pos);
      }
      if n == 0 {
        break;
      }
      ghost var here := input.pos;
      var s := Take(input, old(input.Here()), n);
      Longer(input.text, old(input.pos), here, input.pos);
      tag := tag + s;
    }
    ok := true;
  }

  method ScanTagSuffix(input: Stream) returns (ok: bool, tag: string)
    requires input.pos <= |input.text|
    modifies input
    ensures input.pos == TagRun(input.text, old(input.pos)) && tag == input.text[old(input.pos)..input.pos]
    ensures Advanced(input, old(input.Here()))
    ensures ok <==> tag != ""
  {
    hide Advanced;
    NotMoved(input);
    tag := "";
    while input.More()
      invariant old(input.pos) <= input.pos <= |input.text| && tag == input.text[old(input.pos)..input.pos]
      invariant TagRun(input.text, input.pos) == TagRun(input.text, old(input.pos)) && Advanced(input, old(input.Here()))
      decreases input.Left()
    {
      var n := Exp.Tag(input.text, input.pos);
      if n == 0 {
        break;
      }
      ghost var here := input.pos;
      var s := Take(input, old(input.Here()), n);
      Longer(input.text, old(input.pos), here, input.pos);
      tag := tag + s;
    }
    ok := tag != "";
  }

  /** The line of a block scalar's indicator: false for a zero indent or a stray character. */
  method ReadBlockHeader(input: Stream) returns (ok: bool, p: Params)
    modifies input
    ensures input.pos > old(input.pos)
    ensures var h := HeaderAt(input.text, old(input.pos));
            && (ok <==> h.Header?)
            && (ok ==> p == h.params && input.Here() == HeaderEnd(input.text, old(input.Here())))
  {
    ghost var here := input.Here();
    p := BlockParams(input.Peek() == '>');
    ghost var start := p;
    var _ := input.Get();
    var n := Exp.Chomp(input.text, input.pos);
    for i := 0 to n
      invariant input.Here() == AfterMany(input.text, After(input.text, here), i)
      invariant Indicated(p, input.text, input.pos, n - i) == Indicated(start, input.text, old(input.pos) + 1, n)
    {
      var c := input.Get();
      if c == '+' {
        p := p.(chomp := KEEP);
      } else if c == '-' {
        p := p.(chomp := STRIP);
      } else if Exp.IsDigit(c) {
        if c == '0' {
          return false, p;
        }
        p := p.(indent := c as int - '0' as int, detectIndent := false);
      }
    }
    while Exp.IsBlank(input.Peek())
      invariant input.pos > old(input.pos)
      invariant BlankMark(input.text, input.Here()) == BlankMark(input.text, AfterMany(input.text, After(input.text, here), n))
      decreases input.Left()
    {
      var _ := input.Get();
    }
    EatComment(input);
    ok := !(input.More() && !Exp.IsBreak(input.Peek()));
  }

  lemma ExtendsItself(s: Scan)
    requires Sound(s)
    ensures Extends(s, s)
  {
  }

  lemma ContentIsContent(t: string, m: Mark, inFlow: bool, s: Scan)
    requires m.pos < |t|
    ensures CalledFor(ContentAt(t, m.pos, inFlow), t, m, s) == CalledForContent(ContentAt(t, m.pos, inFlow), t, m, s)
  {
    hide BlockAt, QuotedAt, ReadScalar, TagAt;
  }

  lemma ObeyBlock(s: Scan, m: Mark, r: ScalarScan)
    requires CanAct(s)
    ensures r.ScalarEnds? ==> Obey(Called(Literal(r.value), r.mark), s, m) == Leads(Place(ScannerSteps.ScanBlockScalar(s, r.value), r.mark))
    ensures Obey(NoAction, s, m) == Throws
  {
  }

  lemma ObeyQuoted(s: Scan, m: Mark, r: ScalarScan)
    requires CanAct(s)
    ensures r.ScalarEnds? ==> Obey(Called(Quoted(r.value), r.mark), s, m) == Leads(Place(ScannerSteps.ScanQuotedScalar(s, m, r.value), r.mark))
    ensures Obey(NoAction, s, m) == Throws
  {
  }

  lemma ObeyPlain(s: Scan, m: Mark, r: ScalarScan)
    requires CanAct(s)
    ensures r.ScalarEnds? ==>
              Obey(Called(Action.Plain(r.leadingSpaces, r.value), r.mark), s, m) ==
              Leads(Place(ScannerSteps.ScanPlainScalar(s, m, r.leadingSpaces, r.value), r.mark))
    ensures Obey(NoAction, s, m) == Throws
  {
  }

  lemma ObeyNothing(s: Scan, m: Mark)
    requires CanAct(s)
    ensures Obey(NoAction, s, m) == Throws
  {
  }

  lemma ActsAsProperty(s: Scan, token: Item, m: Mark)
    requires PointersOk(s) && s.indents != [] && s.started && !s.ended
    requires token.status == VALID && token.kind in {ANCHOR, ALIAS, TAG}
    ensures Enabled(s, Property(token)) && Act(s, Property(token), m) == Next(ScanProperty(s, m, token))
  {
  }

  lemma ActsAsScalar(s: Scan, leadingSpaces: bool, value: string, m: Mark)
    requires PointersOk(s) && s.indents != [] && s.started && !s.ended
    ensures Enabled(s, Quoted(value)) && Act(s, Quoted(value), m) == Next(ScannerSteps.ScanQuotedScalar(s, m, value))
    ensures Enabled(s, Action.Plain(leadingSpaces, value))
    ensures Act(s, Action.Plain(leadingSpaces, value), m) == Next(ScannerSteps.ScanPlainScalar(s, m, leadingSpaces, value))
  {
  }

  lemma ActsAsValue(s: Scan, m: Mark)
    requires PointersOk(s) && s.indents != [] && s.started && !s.ended
    ensures Enabled(s, Value) && Act(s, Value, m) == ScannerSteps.ScanValue(s, m)
  {
  }

  lemma ActsAsFlowEnd(s: Scan, m: Mark, flow: Flow)
    requires PointersOk(s) && s.indents != [] && s.started && !s.ended
    ensures Enabled(s, FlowEnd(flow)) && Act(s, FlowEnd(flow), m) == ScannerSteps.ScanFlowEnd(s, m, flow)
  {
  }

  lemma FlowPushesNoIndent(s: Scan, column: int)
    requires PointersOk(s) && s.indents != []
    ensures InFlow(s) ==> PushIndent(s, column, MAP, IndentStatus.Valid) == (s, Nil) == PushIndent(s, column, MAP, Unknown)
  {
  }

  /** An undecided indent is a valid one whose status, and whose start token's, was changed. */
  lemma UndecidedIndent(s: Scan, column: int)
    requires PointersOk(s) && s.indents != []
    ensures var (v, p) := PushIndent(s, column, MAP, IndentStatus.Valid); var (u, q) := PushIndent(s, column, MAP, Unknown);
            && p == q && (p.Nil? ==> u == v == s)
            && (p.To? ==>
                  && p.at < |v.refs| && v.refs[p.at].start == To(|s.all|) && |s.all| < |v.all|
                  && u == v.(refs := v.refs[p.at := v.refs[p.at].(status := Unknown)],
                             all := v.all[|s.all| := v.all[|s.all|].(status := UNVERIFIED)]))
  {
  }

  lemma VerifyChangesLittle(s: Scan, m: Mark)
    requires PointersOk(s)
    ensures var s' := ScannerState.VerifySimpleKey(s, m).0;
            s'.flows == s.flows && s'.simpleKeyAllowed == s.simpleKeyAllowed && s'.indents == s.indents
  {
  }

  lemma InvalidateKeepsFlows(s: Scan)
    requires PointersOk(s)
    ensures ScannerState.InvalidateSimpleKey(s).flows == s.flows
  {
  }

  lemma PushIgnoresFlags(s: Scan, s': Scan, column: int)
    requires PointersOk(s) && s.indents != [] && s' == s.(canBeJSONFlow := s'.canBeJSONFlow)
    ensures PointersOk(s')
    ensures PushIndent(s', column, MAP, IndentStatus.Valid).0 ==
            PushIndent(s, column, MAP, IndentStatus.Valid).0.(canBeJSONFlow := s'.canBeJSONFlow)
  {
  }

  lemma LeadsTo(before: Scan, step: Step, s: Scan)
    requires PointersOk(before) && (before.started ==> before.indents != [])
    requires Enabled(before, step.action) && Act(before, step.action, step.mark) == Next(s)
    ensures StepLeads(before, step, s)
  {
  }
}
