/** Scanning a node that stands on one line. */
module InlineScanning {
  import opened Exp
  import opened Streaming
  import opened Tokens
  import opened ScannerState
  import opened ScannerSteps
  import opened ScannerInvariant
  import opened ScannerSound
  import opened ScalarReading
  import opened ScannerBranches
  import opened ScannerText
  import opened QuotedScalars
  import opened FlowFolding
  import opened TokenText
  import opened PlainFolding
  import opened TextPrinting
  import opened TextSteps
  import opened AtomScanning

  // What is put in the queue

  function PropItems(ps: seq<Prop>): seq<Item> {
    if ps == [] then [] else [PropItem(ps[0])] + PropItems(ps[1..])
  }

  /** The tokens, with the keys that turned out to be none. */
  function Raw(n: Inline): seq<Item>
    decreases n, 1
  {
    match n
    case Ref(name) => [Item(ALIAS, VALID, name)]
    case Inline(props, body) => PropItems(PropList(props)) + RawBody(body)
  }

  function FlowOf(isMap: bool): Flow {
    if isMap then FLOW_MAP else FLOW_SEQ
  }

  function StartOf(isMap: bool): TokenType {
    if isMap then FLOW_MAP_START else FLOW_SEQ_START
  }

  function EndOf(isMap: bool): TokenType {
    if isMap then FLOW_MAP_END else FLOW_SEQ_END
  }

  function RawBody(b: Body): seq<Item>
    decreases b, 1
  {
    match b
    case Word(text) => [Item(PLAIN_SCALAR, VALID, text)]
    case InQuotes(_, pieces) => [Item(NON_PLAIN_SCALAR, VALID, Meaning(pieces))]
    case Bracketed(isMap, entries) => [Sure(StartOf(isMap))] + (RawEntries(isMap, entries) + [Sure(EndOf(isMap))])
  }

  /** A key alone is given a value in a map; in a sequence it is none. */
  function RawEntry(isMap: bool, e: Entry): seq<Item>
    decreases e, 1
  {
    match e
    case Lone(node) => if isMap then [KeyItem(VALID)] + Raw(node) + [Sure(VALUE)] else [KeyItem(INVALID)] + Raw(node)
    case Both(key, value) => [KeyItem(VALID)] + Raw(key) + [Sure(VALUE)] + Raw(value)
  }

  function RawEntries(isMap: bool, es: seq<Entry>): seq<Item>
    decreases es, 0
  {
    if es == [] then [] else RawEntry(isMap, es[0]) + (if |es| == 1 then [] else [Sure(FLOW_ENTRY)] + RawEntries(isMap, es[1..]))
  }

  /** Whether a colon may follow at once. */
  function Json(n: Inline): bool {
    n.Inline? && !n.body.Word?
  }

  /** The state behind n: it may have been remembered as a key. */
  function Done(s: Scan, m: Mark, n: Inline): Scan
    requires s.indents != [] && PointersOk(s)
  {
    DoneWith(s, m, Raw(n), Json(n))
  }

  // Indicators in a flow

  /** In front of an entry of a flow collection. */
  ghost predicate Fresh(s: Scan) {
    Live(s) && InFlow(s) && s.simpleKeyAllowed && !ExistsActiveSimpleKey(s)
  }

  function OpeningOf(flow: Flow): char {
    if flow == FLOW_SEQ then '[' else '{'
  }

  function ClosingOf(flow: Flow): char {
    if flow == FLOW_SEQ then ']' else '}'
  }

  lemma OneRead(t: string, m: Mark)
    requires m.pos < |t| && t[m.pos] != '\n'
    ensures AfterMany(t, m, 1) == Past(m, 1)
  {
    assert AfterMany(t, m, 1) == After(t, AfterMany(t, m, 0));
  }

  lemma OpenScans(t: string, p: Place, flow: Flow, rest: string)
    requires Rests(p.scan, p.mark.column) && Follows(t, p.mark.pos, [OpeningOf(flow)] + rest)
    ensures var q := Place(ScanFlowStart(p.scan, p.mark, flow), Past(p.mark, 1));
            Fresh(q.scan) && ScanOn(t, p) == ScanOn(t, q) && Follows(t, q.mark.pos, rest)
  {
    hide Sound, PointersOk, InsertPotentialSimpleKey, PopIndentToHere, ScanOn, AfterMany;
    RestsIsIdle(p.scan, p.mark.column);
    FollowsOn(t, p.mark.pos, [OpeningOf(flow)], rest);
    OneRead(t, p.mark);
    var q := Place(ScanFlowStart(p.scan, p.mark, flow), Past(p.mark, 1));
    OpenBranch(t, p.mark, p.scan);
    TokenHere(t, p, FlowStart(flow), q);
    InsertGoesOn(p.scan, p.mark);
    LivesOn(q.scan);
    NoKeyInside(p.scan, p.mark, flow);
  }

  lemma OpenBranch(t: string, m: Mark, s: Scan)
    requires m.pos < |t| && (t[m.pos] == '[' || t[m.pos] == '{')
    ensures BranchAt(t, m, InFlow(s), s.canBeJSONFlow) == AtFlowStart && !Exp.BlockEntry(t, m.pos)
  {
  }

  lemma InsertGoesOn(s: Scan, m: Mark)
    requires s.indents != [] && PointersOk(s)
    ensures InsertPotentialSimpleKey(s, m).ended == s.ended && InsertPotentialSimpleKey(s, m).flows == s.flows
  {
  }

  lemma NoKeyInside(s: Scan, m: Mark, flow: Flow)
    requires Live(s)
    ensures !ExistsActiveSimpleKey(ScanFlowStart(s, m, flow))
  {
    InsertGoesOn(s, m);
    hide PushIndent, PointersOk, IndentsOrdered, KeyOk;
    var last := |s.simpleKeys| - 1;
    assert last >= 0 ==> s.simpleKeys[last].flowLevel <= |s.flows|;
    var s1 := InsertPotentialSimpleKey(s, m);
    assert s1.simpleKeys == s.simpleKeys || s1.simpleKeys[|s1.simpleKeys| - 1].flowLevel == |s.flows|;
  }

  /** A comma and a space. */
  lemma CommaScans(t: string, p: Place, rest: string)
    requires Live(p.scan) && InFlow(p.scan) && Follows(t, p.mark.pos, ", " + rest)
    ensures var q := Place(ScanFlowEntry(p.scan, p.mark), Past(p.mark, 2));
            Live(q.scan) && Alike(ScanOn(t, p), ScanOn(t, q)) && Follows(t, q.mark.pos, rest)
  {
    hide Sound, PointersOk, CloseFlowEntry, ScanOn, AfterMany;
    assert ", " + rest == "," + (" " + rest);
    FollowsOn(t, p.mark.pos, ",", " " + rest);
    OneRead(t, p.mark);
    FollowsOn(t, p.mark.pos + 1, " ", rest);
    var q := Place(ScanFlowEntry(p.scan, p.mark), Past(p.mark, 1));
    CommaBranch(t, p.mark, p.scan);
    TokenHere(t, p, FlowEntry, q);
    CloseGoesOn(p.scan, p.mark);
    LivesOn(q.scan);
    SpaceSkipped(t, q);
  }

  lemma CommaBranch(t: string, m: Mark, s: Scan)
    requires m.pos < |t| && t[m.pos] == ','
    ensures BranchAt(t, m, InFlow(s), s.canBeJSONFlow) == AtFlowEntry && !Exp.BlockEntry(t, m.pos)
  {
  }

  lemma CloseGoesOn(s: Scan, m: Mark)
    requires PointersOk(s)
    ensures CloseFlowEntry(s, m).ended == s.ended && CloseFlowEntry(s, m).flows == s.flows
  {
  }

  lemma CloseScans(t: string, p: Place, flow: Flow, s: Scan, rest: string)
    requires Live(p.scan) && InFlow(p.scan) && Follows(t, p.mark.pos, [ClosingOf(flow)] + rest) && ScanFlowEnd(p.scan, p.mark, flow) == Next(s)
    ensures var q := Place(s, Past(p.mark, 1)); Live(s) && ScanOn(t, p) == ScanOn(t, q) && Follows(t, q.mark.pos, rest)
  {
    hide Sound, PointersOk, CloseFlowEntry, ScanOn, AfterMany;
    FollowsOn(t, p.mark.pos, [ClosingOf(flow)], rest);
    OneRead(t, p.mark);
    CloseBranch(t, p.mark, p.scan);
    TokenHere(t, p, FlowEnd(flow), Place(s, Past(p.mark, 1)));
    CloseGoesOn(p.scan, p.mark);
    LivesOn(s);
  }

  lemma CloseBranch(t: string, m: Mark, s: Scan)
    requires m.pos < |t| && (t[m.pos] == ']' || t[m.pos] == '}')
    ensures BranchAt(t, m, InFlow(s), s.canBeJSONFlow) == AtFlowEnd && !Exp.BlockEntry(t, m.pos)
  {
  }

  /** A colon with a space or a break behind it. */
  lemma ColonScans(t: string, p: Place, s: Scan, rest: string)
    requires Rests(p.scan, p.mark.column) && Follows(t, p.mark.pos, ":" + rest)
    requires rest != "" && (rest[0] == ' ' || rest[0] == '\n') && ScanValue(p.scan, p.mark) == Next(s)
    ensures var q := Place(s, Past(p.mark, 1)); Live(s) && ScanOn(t, p) == ScanOn(t, q) && Follows(t, q.mark.pos, rest)
  {
    hide Sound, PointersOk, VerifySimpleKey, PushIndent, ScanOn, AfterMany, PopIndentToHere;
    RestsIsIdle(p.scan, p.mark.column);
    FollowsOn(t, p.mark.pos, ":", rest);
    assert t[p.mark.pos + 1] == t[p.mark.pos + 1..][0];
    OneRead(t, p.mark);
    ColonBranch(t, p.mark, p.scan);
    TokenHere(t, p, Value, Place(s, Past(p.mark, 1)));
    ValueGoesOn(p.scan, p.mark);
    LivesOn(s);
  }

  lemma ColonBranch(t: string, m: Mark, s: Scan)
    requires m.pos + 1 < |t| && t[m.pos] == ':' && (t[m.pos + 1] == ' ' || t[m.pos + 1] == '\n')
    ensures BranchAt(t, m, InFlow(s), s.canBeJSONFlow) == AtValue && !Exp.BlockEntry(t, m.pos)
  {
  }

  lemma ValueGoesOn(s: Scan, m: Mark)
    requires PointersOk(s) && s.indents != []
    ensures ScanValue(s, m).Next? ==> ScanValue(s, m).scan.ended == s.ended
  {
  }

  // Keys in a flow

  /** A key that waits to be decided. */
  lemma FreshDone(s: Scan, m: Mark, n: Inline)
    requires Fresh(s)
    ensures Done(s, m, n) ==
            s.(all := s.all + [KeyItem(UNVERIFIED)] + Raw(n), simpleKeys := s.simpleKeys + [SimpleKey(m, |s.flows|, Nil, Nil, |s.all|)],
               simpleKeyAllowed := false, canBeJSONFlow := Json(n))
  {
    hide Sound, PointersOk, Raw, Json;
  }

  lemma Decided(before: seq<Item>, after: seq<Item>, status: Status)
    ensures (before + [KeyItem(UNVERIFIED)] + after)[|before| := KeyItem(status)] == before + [KeyItem(status)] + after
    ensures (before + [KeyItem(UNVERIFIED)] + after)[|before|] == KeyItem(UNVERIFIED)
  {
  }

  lemma KeyRefused(s: Scan, m: Mark, n: Inline)
    requires Fresh(s) && PointersOk(Done(s, m, n))
    ensures InvalidateSimpleKey(Done(s, m, n)) ==
            s.(all := s.all + [KeyItem(INVALID)] + Raw(n), simpleKeyAllowed := false, canBeJSONFlow := Json(n))
  {
    FreshDone(s, m, n);
    Decided(s.all, Raw(n), INVALID);
    hide Sound, PointersOk, Raw, Done, Json;
    assert (s.simpleKeys + [SimpleKey(m, |s.flows|, Nil, Nil, |s.all|)])[..|s.simpleKeys|] == s.simpleKeys;
  }

  lemma KeyConfirmed(s: Scan, m: Mark, n: Inline, m2: Mark)
    requires Fresh(s) && PointersOk(Done(s, m, n)) && m2.line == m.line && m2.pos - m.pos <= 1024
    ensures VerifySimpleKey(Done(s, m, n), m2) ==
            (s.(all := s.all + [KeyItem(VALID)] + Raw(n), simpleKeyAllowed := false, canBeJSONFlow := Json(n)), true)
  {
    FreshDone(s, m, n);
    Decided(s.all, Raw(n), VALID);
    hide Sound, PointersOk, Raw, Done, Json;
    assert (s.simpleKeys + [SimpleKey(m, |s.flows|, Nil, Nil, |s.all|)])[..|s.simpleKeys|] == s.simpleKeys;
  }

  /** The state with more tokens, in front of the next entry. */
  function More(s: Scan, items: seq<Item>): Scan {
    s.(all := s.all + items, simpleKeyAllowed := true, canBeJSONFlow := false)
  }

  /** The state behind the collection. */
  function Closed(s: Scan, items: seq<Item>): Scan
    requires InFlow(s)
  {
    s.(all := s.all + items, flows := s.flows[..|s.flows| - 1], simpleKeyAllowed := false, canBeJSONFlow := true)
  }

  /** Whatever follows, these tokens are there, and nothing waits. */
  ghost predicate Entered(s: Scan, q: Place, isMap: bool, items: seq<Item>)
    requires InFlow(s)
  {
    && Live(q.scan) && InFlow(q.scan)
    && ScanFlowEntry(q.scan, q.mark) == More(s, items + [Sure(FLOW_ENTRY)])
    && ScanFlowEnd(q.scan, q.mark, FlowOf(isMap)) == Next(Closed(s, items + [Sure(EndOf(isMap))]))
  }

  lemma AfterItem(s: Scan, m: Mark, n: Inline, m2: Mark)
    requires Fresh(s) && Live(Done(s, m, n)) && s.flows[|s.flows| - 1] == FLOW_SEQ
    ensures Entered(s, Place(Done(s, m, n), m2), false, [KeyItem(INVALID)] + Raw(n))
  {
    KeyRefused(s, m, n);
    DoneGoesOn(s, m, Raw(n), Json(n));
    hide Sound, PointersOk, Raw, Done, InvalidateSimpleKey;
    Grouped(s.all, [KeyItem(INVALID)], Raw(n), [Sure(FLOW_ENTRY)]);
    Grouped(s.all, [KeyItem(INVALID)], Raw(n), [Sure(FLOW_SEQ_END)]);
  }

  lemma Grouped(a: seq<Item>, b: seq<Item>, c: seq<Item>, d: seq<Item>)
    ensures a + b + c + d == a + (b + c + d)
  {
  }

  lemma GroupedMore(a: seq<Item>, b: seq<Item>, c: seq<Item>, d: seq<Item>, e: seq<Item>)
    ensures a + b + c + d + e == a + (b + c + d + e)
  {
  }

  /** A key alone in a map. */
  lemma AfterLone(s: Scan, m: Mark, n: Inline, m2: Mark)
    requires Fresh(s) && Live(Done(s, m, n)) && s.flows[|s.flows| - 1] == FLOW_MAP && m2.line == m.line && m2.pos - m.pos <= 1024
    ensures Entered(s, Place(Done(s, m, n), m2), true, [KeyItem(VALID)] + Raw(n) + [Sure(VALUE)])
  {
    KeyConfirmed(s, m, n, m2);
    DoneGoesOn(s, m, Raw(n), Json(n));
    hide Sound, PointersOk, Raw, Done, VerifySimpleKey, Json;
    GroupedMore(s.all, [KeyItem(VALID)], Raw(n), [Sure(VALUE)], [Sure(FLOW_ENTRY)]);
    GroupedMore(s.all, [KeyItem(VALID)], Raw(n), [Sure(VALUE)], [Sure(FLOW_MAP_END)]);
  }

  /** The state behind a key and its colon. */
  function Keyed(s: Scan, n: Inline): Scan {
    s.(all := s.all + ([KeyItem(VALID)] + Raw(n) + [Sure(VALUE)]), simpleKeyAllowed := false, canBeJSONFlow := false)
  }

  lemma AfterKey(s: Scan, m: Mark, n: Inline, m2: Mark)
    requires Fresh(s) && Live(Done(s, m, n)) && m2.line == m.line && m2.pos - m.pos <= 1024
    ensures ScanValue(Done(s, m, n), m2) == Next(Keyed(s, n))
  {
    KeyConfirmed(s, m, n, m2);
    DoneGoesOn(s, m, Raw(n), Json(n));
    hide Sound, PointersOk, Raw, Done, VerifySimpleKey, Json;
    Grouped(s.all, [KeyItem(VALID)], Raw(n), [Sure(VALUE)]);
  }

  lemma AfterValue(s: Scan, m: Mark, key: Inline, value: Inline, m2: Mark, isMap: bool)
    requires Fresh(s) && Live(Keyed(s, key)) && Live(Done(Keyed(s, key), m, value)) && s.flows[|s.flows| - 1] == FlowOf(isMap)
    ensures Entered(s, Place(Done(Keyed(s, key), m, value), m2), isMap, [KeyItem(VALID)] + Raw(key) + [Sure(VALUE)] + Raw(value))
  {
    var s1 := Done(Keyed(s, key), m, value);
    assert s1 == Keyed(s, key).(all := Keyed(s, key).all + Raw(value), canBeJSONFlow := Json(value));
    assert VerifySimpleKey(s1, m2) == (s1, false) && InvalidateSimpleKey(s1) == s1;
    hide Sound, PointersOk, Raw, VerifySimpleKey, InvalidateSimpleKey, Json;
    Joined(s.all, [KeyItem(VALID)] + Raw(key) + [Sure(VALUE)], Raw(value), [Sure(FLOW_ENTRY)]);
    Joined(s.all, [KeyItem(VALID)] + Raw(key) + [Sure(VALUE)], Raw(value), [Sure(EndOf(isMap))]);
  }

  lemma Joined(a: seq<Item>, b: seq<Item>, c: seq<Item>, d: seq<Item>)
    ensures a + b + c + d == a + (b + c + d)
  {
  }

  // Nodes

  lemma RestsInFlow(s: Scan, column: nat)
    requires Live(s) && InFlow(s)
    ensures Rests(s, column)
  {
  }

  /** A node ends in front of this. */
  predicate StopsNode(n: Inline, rest: string, inFlow: bool) {
    match n
    case Ref(_) => StopsName(rest)
    case Inline(_, body) => StopsBody(body, rest, inFlow)
  }

  predicate StopsBody(b: Body, rest: string, inFlow: bool) {
    match b
    case Word(_) => StopsWord(rest, inFlow)
    case InQuotes(_, _) => rest == "" || rest[0] != '\''
    case Bracketed(_, _) => true
  }

  /** The tags and anchors in front of a node. */
  lemma {:induction false} PropsScan(t: string, p: Place, ps: seq<Prop>, rest: string) returns (q: Place)
    requires Rests(p.scan, p.mark.column) && (forall i :: 0 <= i < |ps| ==> PropOk(ps[i])) && Follows(t, p.mark.pos, PropsText(ps) + rest)
    ensures q == Place(if ps == [] then p.scan else DoneWith(p.scan, p.mark, PropItems(ps), false), Past(p.mark, |PropsText(ps)|))
    ensures Rests(q.scan, q.mark.column) && Alike(ScanOn(t, p), ScanOn(t, q)) && Follows(t, q.mark.pos, rest)
    decreases |ps|
  {
    hide Sound, PointersOk, ScanOn, DoneWith, PropText, PropItem, PropOk, Follows, Rests;
    if ps == [] {
      assert PropsText(ps) + rest == rest;
      q := p;
      assert Past(p.mark, 0) == p.mark;
    } else {
      var more := PropsText(ps[1..]) + rest;
      assert PropsText(ps) + rest == PropText(ps[0]) + (" " + more);
      var p1 := PropScans(t, p, ps[0], more);
      q := PropsScan(t, p1, ps[1..], rest);
      OneProp(ps[0]);
      if ps[1..] == [] {
        assert PropItems(ps) == [PropItem(ps[0])];
      } else {
        RestsLives(p.scan, p.mark.column);
        RestsLives(p1.scan, p1.mark.column);
        DoneTwice(p.scan, p.mark, [PropItem(ps[0])], false, p1.mark, PropItems(ps[1..]), false);
      }
    }
  }

  lemma OneProp(p: Prop)
    ensures PropItems([p]) == [PropItem(p)] && PropItems([]) == []
  {
  }

  lemma RestsLives(s: Scan, column: nat)
    requires Rests(s, column)
    ensures s.indents != [] && PointersOk(s) && Live(s)
  {
  }

  lemma TextGrouped(c: string, w: string, rest: string)
    ensures c + w + (" " + rest) == c + (w + (" " + rest))
  {
  }

  lemma PropScans(t: string, p: Place, prop: Prop, rest: string) returns (q: Place)
    requires Rests(p.scan, p.mark.column) && PropOk(prop) && Follows(t, p.mark.pos, PropText(prop) + (" " + rest))
    ensures q == Place(DoneWith(p.scan, p.mark, [PropItem(prop)], false), Past(p.mark, |PropText(prop)| + 1))
    ensures Rests(q.scan, q.mark.column) && Alike(ScanOn(t, p), ScanOn(t, q)) && Follows(t, q.mark.pos, rest)
  {
    hide Sound, PointersOk, ScanOn, DoneWith, NameOk, TagOk, BehindMark, Rests;
    RestsLives(p.scan, p.mark.column);
    var q1 := Place(DoneWith(p.scan, p.mark, [PropItem(prop)], false), Past(p.mark, |PropText(prop)|));
    hide Follows;
    match prop {
      case AnchorProp(name) =>
        TextGrouped("&", name, rest);
        NameScans(t, p, '&', name, " " + rest);
      case TagProp(tag) =>
        TagTextIs(tag);
        TextGrouped("!", BehindMark(tag), rest);
        TagScans(t, p, tag, rest);
    }
    FollowsOn(t, q1.mark.pos, " ", rest);
    SpaceSkipped(t, q1);
    q := Place(q1.scan, Past(q1.mark, 1));
    DoneRests(p.scan, p.mark, [PropItem(prop)], false, q.mark.column);
  }

  lemma PropsAreOk(n: Inline)
    requires n.Inline? && InlineOk(n)
    ensures CanBeWritten(n.body) && forall i :: 0 <= i < |PropList(n.props)| ==> PropOk(PropList(n.props)[i])
  {
    hide CanBeWritten, NameOk, TagOk;
  }

  lemma {:induction false} InlineScans(t: string, p: Place, n: Inline, rest: string)
    requires Rests(p.scan, p.mark.column) && InlineOk(n)
    requires Follows(t, p.mark.pos, InlineText(n) + rest) && StopsNode(n, rest, InFlow(p.scan))
    ensures var q := Place(Done(p.scan, p.mark, n), Past(p.mark, |InlineText(n)|));
            Live(q.scan) && Alike(ScanOn(t, p), ScanOn(t, q)) && Follows(t, q.mark.pos, rest)
    decreases n, 1
  {
    hide Sound, PointersOk, ScanOn, DoneWith, Follows, BodyText, CanBeWritten, NameOk, PropsText, Rests, PropItems, RawBody,
         StopsBody, PropList;
    match n
    case Ref(name) =>
      assert InlineText(n) + rest == ['*'] + (name + rest);
      NameScans(t, p, '*', name, rest);
    case Inline(props, body) =>
      PropsAreOk(n);
      var ps := PropList(props);
      assert InlineText(n) + rest == PropsText(ps) + (BodyText(body) + rest);
      var q := PropsScan(t, p, ps, BodyText(body) + rest);
      RestsLives(p.scan, p.mark.column);
      RestsLives(q.scan, q.mark.column);
      SameFlows(p.scan, p.mark, PropItems(ps));
      NoPropsText(p.mark);
      BodyScans(t, q, body, rest);
      PropsThenBody(p.scan, p.mark, ps, q.scan, q.mark, body);
  }

  lemma NoPropsText(m: Mark)
    ensures PropsText([]) == "" && Past(m, 0) == m
  {
  }

  lemma SameFlows(s: Scan, m: Mark, items: seq<Item>)
    requires Live(s)
    ensures InFlow(DoneWith(s, m, items, false)) == InFlow(s)
  {
    DoneGoesOn(s, m, items, false);
    hide Sound, PointersOk, DoneWith;
  }

  lemma PropsThenBody(s: Scan, m: Mark, ps: seq<Prop>, s1: Scan, m1: Mark, body: Body)
    requires Live(s) && Live(s1) && s1 == (if ps == [] then s else DoneWith(s, m, PropItems(ps), false)) && (ps == [] ==> m1 == m)
    ensures DoneWith(s1, m1, RawBody(body), !body.Word?) == DoneWith(s, m, PropItems(ps) + RawBody(body), !body.Word?)
  {
    hide Sound, PointersOk, DoneWith, RawBody;
    if ps == [] {
      assert PropItems(ps) + RawBody(body) == RawBody(body);
    } else {
      DoneTwice(s, m, PropItems(ps), false, m1, RawBody(body), !body.Word?);
    }
  }

  lemma {:induction false} BodyScans(t: string, p: Place, b: Body, rest: string)
    requires Rests(p.scan, p.mark.column) && CanBeWritten(b)
    requires Follows(t, p.mark.pos, BodyText(b) + rest) && StopsBody(b, rest, InFlow(p.scan))
    ensures var q := Place(DoneWith(p.scan, p.mark, RawBody(b), !b.Word?), Past(p.mark, |BodyText(b)|));
            Live(q.scan) && Alike(ScanOn(t, p), ScanOn(t, q)) && Follows(t, q.mark.pos, rest)
    decreases b, 1
  {
    hide Sound, PointersOk, ScanOn, DoneWith, Follows, EndsPlain, EntryTexts, Spelling, PiecesOk, Meaning;
    match b
    case Word(text) => WordScans(t, p, text, rest);
    case InQuotes(quote, pieces) =>
      var c, w := [QuoteChar(quote)], Spelling(pieces);
      assert c + (w + c) + rest == c + (w + (c + rest));
      QuoteScans(t, p, quote, pieces, rest);
    case Bracketed(isMap, entries) => BracketedScans(t, p, isMap, entries, rest);
  }

  lemma OpenedIs(s: Scan, m: Mark, isMap: bool, items: seq<Item>)
    requires Live(s)
    ensures var s2 := ScanFlowStart(s, m, FlowOf(isMap));
            && s2.flows == s.flows + [FlowOf(isMap)] && InFlow(s2)
            && Closed(s2, items) == DoneWith(s, m, [Sure(StartOf(isMap))] + items, true)
  {
    InsertGoesOn(s, m);
    hide InsertPotentialSimpleKey, Sound, PointersOk;
    var s1 := InsertPotentialSimpleKey(s, m);
    var start := [Sure(StartOf(isMap))];
    assert s1.all + start + items == s1.all + (start + items);
    assert (s.flows + [FlowOf(isMap)])[..|s.flows|] == s.flows;
  }

  lemma {:induction false} BracketedScans(t: string, p: Place, isMap: bool, es: seq<Entry>, rest: string)
    requires Rests(p.scan, p.mark.column) && CanBeWritten(Bracketed(isMap, es)) && Follows(t, p.mark.pos, BodyText(Bracketed(isMap, es)) + rest)
    ensures var q := Place(DoneWith(p.scan, p.mark, RawBody(Bracketed(isMap, es)), true), Past(p.mark, |BodyText(Bracketed(isMap, es))|));
            Live(q.scan) && Alike(ScanOn(t, p), ScanOn(t, q)) && Follows(t, q.mark.pos, rest)
    decreases es, 1
  {
    hide Sound, PointersOk, ScanOn, InsertPotentialSimpleKey, ScanFlowStart, Closed, RawEntries, EntryTexts, CanBeWritten, DoneWith, Rests;
    var flow := FlowOf(isMap);
    var inside := EntryTexts(es) + ([ClosingOf(flow)] + rest);
    BracketedText(isMap, es, rest);
    RestsLives(p.scan, p.mark.column);
    OpenScans(t, p, flow, inside);
    var q := Place(ScanFlowStart(p.scan, p.mark, flow), Past(p.mark, 1));
    var items := RawEntries(isMap, es) + [Sure(EndOf(isMap))];
    OpenedIs(p.scan, p.mark, isMap, items);
    if es == [] {
      NothingText(isMap);
      NoItems(q.scan, q.mark, isMap);
      CloseScans(t, q, flow, Closed(q.scan, items), rest);
    } else {
      AllEntriesOk(isMap, es);
      EntriesScan(t, q, isMap, es, rest);
    }
  }

  lemma BracketedText(isMap: bool, es: seq<Entry>, rest: string)
    ensures var text := BodyText(Bracketed(isMap, es)); var flow := FlowOf(isMap);
            text + rest == [OpeningOf(flow)] + (EntryTexts(es) + ([ClosingOf(flow)] + rest)) && |text| == |EntryTexts(es)| + 2
  {
    hide EntryTexts;
    var open, close := if isMap then "{" else "[", if isMap then "}" else "]";
    assert open + EntryTexts(es) + close + rest == open + (EntryTexts(es) + (close + rest));
  }

  lemma NothingText(isMap: bool)
    ensures EntryTexts([]) == "" && RawEntries(isMap, []) == [] && forall s: string :: "" + s == s
  {
  }

  lemma AllEntriesOk(isMap: bool, es: seq<Entry>)
    requires CanBeWritten(Bracketed(isMap, es))
    ensures forall i :: 0 <= i < |es| ==> EntryOk(isMap, es[i])
  {
  }

  lemma NoItems(s: Scan, m: Mark, isMap: bool)
    requires Fresh(s) && s.flows[|s.flows| - 1] == FlowOf(isMap)
    ensures ScanFlowEnd(s, m, FlowOf(isMap)) == Next(Closed(s, [] + [Sure(EndOf(isMap))]))
  {
    hide Sound, PointersOk;
  }

  lemma SeparatorStops(behind: string)
    requires behind != "" && behind[0] in ",]}"
    ensures forall n :: StopsNode(n, behind, true)
  {
    assert EndsPlain(behind, 0, true);
  }

  /** An entry, up to what separates it from the next. */
  lemma {:induction false} EntryScans(t: string, p: Place, isMap: bool, e: Entry, rest: string) returns (q: Place)
    requires Fresh(p.scan) && p.scan.flows[|p.scan.flows| - 1] == FlowOf(isMap) && EntryOk(isMap, e)
    requires Follows(t, p.mark.pos, EntryText(e) + rest) && rest != "" && rest[0] in ",]}"
    ensures Entered(p.scan, q, isMap, RawEntry(isMap, e)) && q.mark == Past(p.mark, |EntryText(e)|)
    ensures Alike(ScanOn(t, p), ScanOn(t, q)) && Follows(t, q.mark.pos, rest)
    decreases e, 1
  {
    hide Sound, PointersOk, ScanOn, InlineText, KeyText, Done, Raw, InlineOk, Keyed, ExistsActiveSimpleKey, Entered, StopsNode, Follows;
    SeparatorStops(rest);
    RestsInFlow(p.scan, p.mark.column);
    match e
    case Lone(node) =>
      InlineScans(t, p, node, rest);
      q := Place(Done(p.scan, p.mark, node), Past(p.mark, |InlineText(node)|));
      if isMap {
        AfterLone(p.scan, p.mark, node, q.mark);
      } else {
        AfterItem(p.scan, p.mark, node, q.mark);
      }
    case Both(key, value) =>
      q := BothScan(t, p, isMap, key, value, rest);
  }

  /** A key that ends in front of its colon. */
  lemma {:induction false} KeyTextScans(t: string, p: Place, n: Inline, rest: string)
    requires Rests(p.scan, p.mark.column) && InlineOk(n)
    requires Follows(t, p.mark.pos, KeyText(n) + rest) && rest != "" && rest[0] == ':' && StopsWord(rest, InFlow(p.scan))
    ensures var q := Place(Done(p.scan, p.mark, n), Past(p.mark, |KeyText(n)|));
            Live(q.scan) && Alike(ScanOn(t, p), ScanOn(t, q)) && Follows(t, q.mark.pos, rest)
    decreases n, 2
  {
    hide Sound, PointersOk, ScanOn, InlineText, Done, InlineOk, Rests, EndsPlain;
    RestsLives(p.scan, p.mark.column);
    if n.Ref? {
      assert KeyText(n) + rest == InlineText(n) + (" " + rest);
      InlineScans(t, p, n, " " + rest);
      var q := Place(Done(p.scan, p.mark, n), Past(p.mark, |InlineText(n)|));
      FollowsOn(t, q.mark.pos, " ", rest);
      SpaceSkipped(t, q);
    } else {
      assert KeyText(n) + rest == InlineText(n) + rest;
      InlineScans(t, p, n, rest);
    }
  }

  /** A key and its value in a flow. */
  lemma {:induction false} BothScan(t: string, p: Place, isMap: bool, key: Inline, value: Inline, rest: string) returns (q: Place)
    requires Fresh(p.scan) && p.scan.flows[|p.scan.flows| - 1] == FlowOf(isMap) && EntryOk(isMap, Both(key, value))
    requires Follows(t, p.mark.pos, EntryText(Both(key, value)) + rest) && rest != "" && rest[0] in ",]}"
    ensures Entered(p.scan, q, isMap, RawEntry(isMap, Both(key, value))) && q.mark == Past(p.mark, |EntryText(Both(key, value))|)
    ensures Alike(ScanOn(t, p), ScanOn(t, q)) && Follows(t, q.mark.pos, rest)
    decreases Both(key, value), 0
  {
    hide Sound, PointersOk, ScanOn, InlineText, KeyText, Done, Raw, InlineOk, Keyed, ExistsActiveSimpleKey, EndsPlain, ScanValue,
         StopsNode, Entered;
    var behind := InlineText(value) + rest;
    BothText(key, value, rest);
    RestsInFlow(p.scan, p.mark.column);
    ColonStops(behind);
    KeyTextScans(t, p, key, ":" + (" " + behind));
    var q1 := Place(Done(p.scan, p.mark, key), Past(p.mark, |KeyText(key)|));
    DoneKeepsFlows(p.scan, p.mark, key);
    AfterKey(p.scan, p.mark, key, q1.mark);
    RestsInFlow(q1.scan, q1.mark.column);
    var keyed := Keyed(p.scan, key);
    ColonScans(t, q1, keyed, " " + behind);
    var q2 := Place(keyed, Past(q1.mark, 1));
    FollowsOn(t, q2.mark.pos, " ", behind);
    SpaceSkipped(t, q2);
    var q3 := Place(keyed, Past(q2.mark, 1));
    KeyedFlows(p.scan, key);
    RestsInFlow(keyed, q3.mark.column);
    SeparatorStops(rest);
    InlineScans(t, q3, value, rest);
    q := Place(Done(keyed, q3.mark, value), Past(q3.mark, |InlineText(value)|));
    AfterValue(p.scan, q3.mark, key, value, q.mark, isMap);
  }

  lemma DoneKeepsFlows(s: Scan, m: Mark, n: Inline)
    requires Live(s)
    ensures Done(s, m, n).flows == s.flows && Done(s, m, n).ended == s.ended
  {
    DoneGoesOn(s, m, Raw(n), Json(n));
    hide Sound, PointersOk, DoneWith, Raw;
  }

  lemma KeyedFlows(s: Scan, n: Inline)
    ensures Keyed(s, n).flows == s.flows
  {
  }

  lemma ColonStops(value: string)
    ensures StopsWord(":" + (" " + value), true) && StopsWord(":" + (" " + value), false)
  {
  }

  lemma BothText(key: Inline, value: Inline, rest: string)
    ensures var text := EntryText(Both(key, value));
            && text + rest == KeyText(key) + (":" + (" " + (InlineText(value) + rest)))
            && |text| == |KeyText(key)| + 2 + |InlineText(value)|
  {
    hide InlineText, KeyText;
    assert KeyText(key) + (": " + InlineText(value)) + rest == KeyText(key) + (":" + (" " + (InlineText(value) + rest)));
  }

  lemma {:induction false} EntriesScan(t: string, p: Place, isMap: bool, es: seq<Entry>, rest: string)
    requires Fresh(p.scan) && p.scan.flows[|p.scan.flows| - 1] == FlowOf(isMap) && es != [] && forall i :: 0 <= i < |es| ==> EntryOk(isMap, es[i])
    requires Follows(t, p.mark.pos, EntryTexts(es) + ([ClosingOf(FlowOf(isMap))] + rest))
    ensures var q := Place(Closed(p.scan, RawEntries(isMap, es) + [Sure(EndOf(isMap))]), Past(p.mark, |EntryTexts(es)| + 1));
            Live(q.scan) && Alike(ScanOn(t, p), ScanOn(t, q)) && Follows(t, q.mark.pos, rest)
    decreases es, 0
  {
    hide Sound, PointersOk, ScanOn, EntryText, EntryTexts, RawEntry, RawEntries, EntryOk, More, Closed, ExistsActiveSimpleKey,
         ScanFlowEntry, ScanFlowEnd;
    var flow, close := FlowOf(isMap), [ClosingOf(FlowOf(isMap))] + rest;
    var behind := if |es| == 1 then close else ", " + (EntryTexts(es[1..]) + close);
    EntriesFirst(isMap, es, close);
    var q := EntryScans(t, p, isMap, es[0], behind);
    var items := RawEntry(isMap, es[0]);
    if |es| == 1 {
      CloseScans(t, q, flow, Closed(p.scan, items + [Sure(EndOf(isMap))]), rest);
    } else {
      CommaScans(t, q, EntryTexts(es[1..]) + close);
      var next := Place(More(p.scan, items + [Sure(FLOW_ENTRY)]), Past(q.mark, 2));
      StaysFresh(p.scan, items + [Sure(FLOW_ENTRY)]);
      EntriesScan(t, next, isMap, es[1..], rest);
      ClosedMore(p.scan, items + [Sure(FLOW_ENTRY)], RawEntries(isMap, es[1..]) + [Sure(EndOf(isMap))]);
    }
  }

  lemma StaysFresh(s: Scan, items: seq<Item>)
    requires Fresh(s) && Live(More(s, items))
    ensures Fresh(More(s, items)) && More(s, items).flows == s.flows
  {
    hide Sound, PointersOk;
  }

  lemma ClosedMore(s: Scan, a: seq<Item>, b: seq<Item>)
    requires InFlow(s)
    ensures InFlow(More(s, a)) && Closed(More(s, a), b) == Closed(s, a + b)
  {
    assert s.all + a + b == s.all + (a + b);
  }

  lemma EntriesFirst(isMap: bool, es: seq<Entry>, close: string)
    requires es != []
    ensures var behind := if |es| == 1 then close else ", " + (EntryTexts(es[1..]) + close);
            && EntryTexts(es) + close == EntryText(es[0]) + behind
            && |EntryTexts(es)| == |EntryText(es[0])| + (if |es| == 1 then 0 else 2 + |EntryTexts(es[1..])|)
    ensures var items, end := RawEntry(isMap, es[0]), [Sure(EndOf(isMap))];
            RawEntries(isMap, es) + end == if |es| == 1 then items + end else items + [Sure(FLOW_ENTRY)] + (RawEntries(isMap, es[1..]) + end)
  {
    hide EntryText, RawEntry;
    if |es| > 1 {
      var first, more := EntryText(es[0]), EntryTexts(es[1..]);
      var items, others := RawEntry(isMap, es[0]), RawEntries(isMap, es[1..]);
      assert EntryTexts(es) == first + (", " + more) && RawEntries(isMap, es) == items + ([Sure(FLOW_ENTRY)] + others);
      hide EntryTexts, RawEntries;
      assert first + (", " + more) + close == first + (", " + (more + close));
      FiveGrouped(items, [Sure(FLOW_ENTRY)], others, [Sure(EndOf(isMap))]);
    }
  }

  lemma FiveGrouped(a: seq<Item>, b: seq<Item>, c: seq<Item>, d: seq<Item>)
    ensures a + (b + c) + d == a + b + (c + d)
  {
  }
}
