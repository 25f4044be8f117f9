/**
 * What holds in every reachable scanner state: the indent stack is ordered, simple keys point at
 * undecided tokens still in the queue, and the block tokens not marked INVALID nest properly although
 * starts are confirmed or dropped after later tokens were queued.
 */
module ScannerInvariant {
  import opened Tokens
  import opened ScannerState
  import opened ScannerSteps

  // Nesting of the block tokens

  datatype Word = Broken | Open(starts: seq<nat>)

  predicate IsBlockToken(kind: TokenType) {
    kind == BLOCK_SEQ_START || kind == BLOCK_MAP_START || kind == BLOCK_SEQ_END || kind == BLOCK_MAP_END
  }

  predicate IsStart(i: Item) {
    i.status != INVALID && (i.kind == BLOCK_SEQ_START || i.kind == BLOCK_MAP_START)
  }

  predicate IsEnd(i: Item) {
    i.status != INVALID && (i.kind == BLOCK_SEQ_END || i.kind == BLOCK_MAP_END)
  }

  predicate Matches(start: TokenType, end: TokenType) {
    (start == BLOCK_SEQ_START && end == BLOCK_SEQ_END) || (start == BLOCK_MAP_START && end == BLOCK_MAP_END)
  }

  /** One token more: a start opens, an end must match the start opened last. */
  function Nest(items: seq<Item>, open: seq<nat>, at: nat): Word
    requires at < |items| && forall j :: 0 <= j < |open| ==> open[j] < |items|
  {
    if IsStart(items[at]) then Open(open + [at])
    else if IsEnd(items[at]) then
      if open != [] && Matches(items[open[|open| - 1]].kind, items[at].kind) then Open(open[..|open| - 1]) else Broken
    else Open(open)
  }

  /** The starts still open after the first n tokens, or Broken when some end matched no start. */
  function Nesting(items: seq<Item>, n: nat): (r: Word)
    requires n <= |items|
    ensures r.Open? ==> forall j :: 0 <= j < |r.starts| ==> r.starts[j] < n
  {
    if n == 0 then Open([])
    else
      match Nesting(items, n - 1)
      case Broken => Broken
      case Open(open) => Nest(items, open, n - 1)
  }

  function Without(starts: seq<nat>, k: nat): seq<nat> {
    if starts == [] then []
    else
      var last := |starts| - 1;
      if starts[last] == k then starts[..last] else Without(starts[..last], k) + [starts[last]]
  }

  predicate Ascending(starts: seq<nat>) {
    forall i, j :: 0 <= i < j < |starts| ==> starts[i] < starts[j]
  }

  lemma {:induction false} NestingAscends(items: seq<Item>, n: nat)
    requires n <= |items|
    ensures Nesting(items, n).Open? ==> Ascending(Nesting(items, n).starts)
  {
    if n > 0 {
      NestingAscends(items, n - 1);
    }
  }

  /** Only the kinds and whether a token counts as a start or an end matter. */
  lemma {:induction false} NestingSame(items: seq<Item>, items': seq<Item>, n: nat)
    requires n <= |items| && n <= |items'|
    requires forall j :: 0 <= j < n ==>
               && items'[j].kind == items[j].kind
               && (IsBlockToken(items[j].kind) ==> (items'[j].status == INVALID <==> items[j].status == INVALID))
    ensures Nesting(items', n) == Nesting(items, n)
  {
    if n > 0 {
      NestingSame(items, items', n - 1);
    }
  }

  lemma NestingStep(items: seq<Item>, n: nat)
    requires 0 < n <= |items|
    ensures Nesting(items, n).Open? ==> Nesting(items, n - 1).Open?
    ensures Nesting(items, n - 1).Open? ==> Nesting(items, n) == Nest(items, Nesting(items, n - 1).starts, n - 1)
  {
  }

  lemma WithoutBelowTop(open: seq<nat>, top: nat, k: nat)
    requires k != top
    ensures (open + [top])[..|open|] == open
    ensures Without(open + [top], k) == Without(open, k) + [top]
    ensures (Without(open, k) + [top])[..|Without(open, k)|] == Without(open, k)
  {
    assert (open + [top])[..|open|] == open;
  }

  /** Dropping a start that is still open leaves the other tokens nested. */
  lemma {:induction false} DroppedStart(items: seq<Item>, n: nat, k: nat)
    requires n <= |items| && Nesting(items, n).Open? && k in Nesting(items, n).starts
    ensures Nesting(MarkToken(items, To(k), INVALID), n) == Open(Without(Nesting(items, n).starts, k))
  {
    hide Nesting, Without, Ascending, Nest;
    var items' := MarkToken(items, To(k), INVALID);
    NestingStart(items);
    NestingStep(items, n);
    NestingStep(items', n);
    NestingAscends(items, n - 1);
    var open := Nesting(items, n - 1).starts;
    AfterOneToken(items, open, n - 1, k);
    if n == k + 1 {
      NestingSame(items, items', k);
      DroppedNow(items, open, k);
    } else {
      DroppedStart(items, n - 1, k);
      DroppedStep(items, open, Without(open, k), n - 1, k);
    }
  }

  lemma NestingStart(items: seq<Item>)
    ensures Nesting(items, 0) == Open([])
  {
  }

  /** A start that is open after a token was open before it, or is the token. */
  lemma AfterOneToken(items: seq<Item>, open: seq<nat>, at: nat, k: nat)
    requires at < |items| && (forall j :: 0 <= j < |open| ==> open[j] < at) && Ascending(open)
    requires Nest(items, open, at).Open? && k in Nest(items, open, at).starts
    ensures k == at ==> IsStart(items[at])
    ensures k != at ==> k in open
    ensures k != at && IsEnd(items[at]) ==> open != [] && open[|open| - 1] != k
  {
  }

  lemma DroppedNow(items: seq<Item>, open: seq<nat>, k: nat)
    requires k < |items| && IsStart(items[k]) && forall j :: 0 <= j < |open| ==> open[j] < k
    ensures Nest(items, open, k) == Open(open + [k]) && Nest(MarkToken(items, To(k), INVALID), open, k) == Open(open)
    ensures Without(open + [k], k) == open
  {
    hide Without;
    DroppedTop(open, k);
  }

  /** One token after the dropped start. */
  lemma DroppedStep(items: seq<Item>, open: seq<nat>, open': seq<nat>, at: nat, k: nat)
    requires at < |items| && k < |items| && k != at && open' == Without(open, k)
    requires (forall j :: 0 <= j < |open| ==> open[j] < |items|) && (forall j :: 0 <= j < |open'| ==> open'[j] < |items|)
    requires Nest(items, open, at).Open? && (IsEnd(items[at]) ==> open != [] && open[|open| - 1] != k)
    ensures Nest(MarkToken(items, To(k), INVALID), open', at) == Open(Without(Nest(items, open, at).starts, k))
  {
    hide Without;
    var items' := MarkToken(items, To(k), INVALID);
    assert items'[at] == items[at];
    if IsStart(items[at]) {
      WithoutBelowTop(open, at, k);
    } else if IsEnd(items[at]) {
      var rest, top := open[..|open| - 1], open[|open| - 1];
      assert open == rest + [top];
      WithoutBelowTop(rest, top, k);
      assert open' == Without(rest, k) + [top] && items'[top] == items[top];
    }
  }

  lemma DroppedTop(open: seq<nat>, k: nat)
    ensures Without(open + [k], k) == open
  {
    assert (open + [k])[..|open|] == open;
  }

  // The indents still open

  /** The start tokens of the indents on the stack that are not INVALID, bottom to top. */
  function OpenStarts(refs: seq<Indent>, indents: seq<nat>): seq<nat>
    requires forall i :: 0 <= i < |indents| ==> indents[i] < |refs|
  {
    if indents == [] then []
    else
      var last := |indents| - 1;
      var top := refs[indents[last]];
      OpenStarts(refs, indents[..last]) + (if top.status != Invalid && top.start.To? then [top.start.at] else [])
  }

  ghost predicate DistinctStarts(refs: seq<Indent>) {
    forall i, j :: 0 <= i < j < |refs| && refs[i].start.To? && refs[j].start.To? ==> refs[i].start != refs[j].start
  }

  lemma {:induction false} OpenStartsSame(refs: seq<Indent>, refs': seq<Indent>, indents: seq<nat>)
    requires forall i :: 0 <= i < |indents| ==> indents[i] < |refs| && indents[i] < |refs'|
    requires forall i :: 0 <= i < |indents| ==>
               refs'[indents[i]].start == refs[indents[i]].start &&
               (refs'[indents[i]].status == Invalid <==> refs[indents[i]].status == Invalid)
    ensures OpenStarts(refs', indents) == OpenStarts(refs, indents)
  {
    if indents != [] {
      OpenStartsSame(refs, refs', indents[..|indents| - 1]);
    }
  }

  lemma {:induction false} OpenStartsMember(refs: seq<Indent>, indents: seq<nat>, k: nat)
    requires forall i :: 0 <= i < |indents| ==> indents[i] < |refs|
    ensures k in OpenStarts(refs, indents) <==>
            exists i :: 0 <= i < |indents| && refs[indents[i]].status != Invalid && refs[indents[i]].start == To(k)
  {
    if indents != [] {
      var last := |indents| - 1;
      OpenStartsMember(refs, indents[..last], k);
      if k in OpenStarts(refs, indents) && k in OpenStarts(refs, indents[..last]) {
        var i :| 0 <= i < last && refs[indents[..last][i]].status != Invalid && refs[indents[..last][i]].start == To(k);
        assert refs[indents[i]].start == To(k);
      }
      if i :| 0 <= i < |indents| && refs[indents[i]].status != Invalid && refs[indents[i]].start == To(k) && i < last {
        assert refs[indents[..last][i]].start == To(k);
      }
    }
  }

  lemma WithoutKeeps(starts: seq<nat>, own: seq<nat>, k: nat)
    requires |own| <= 1 && (own == [] || own[0] != k)
    ensures Without(starts + own, k) == Without(starts, k) + own
  {
    if own == [] {
      assert starts + own == starts && Without(starts, k) + own == Without(starts, k);
    } else {
      assert (starts + own)[..|starts|] == starts;
    }
  }

  lemma {:induction false} DroppedIndent(refs: seq<Indent>, indents: seq<nat>, r: nat, k: nat)
    requires forall i :: 0 <= i < |indents| ==> indents[i] < |refs|
    requires Ascending(indents) && DistinctStarts(refs)
    requires r in indents && refs[r].status != Invalid && refs[r].start == To(k)
    ensures k in OpenStarts(refs, indents)
    ensures OpenStarts(MarkIndent(refs, To(r), Invalid), indents) == Without(OpenStarts(refs, indents), k)
  {
    var refs' := MarkIndent(refs, To(r), Invalid);
    var last := |indents| - 1;
    var below := indents[..last];
    var starts := OpenStarts(refs, below);
    if indents[last] == r {
      OpenStartsSame(refs, refs', below);
      assert OpenStarts(refs, indents) == starts + [k];
      assert (starts + [k])[..|starts|] == starts;
    } else {
      assert r in below;
      DroppedIndent(refs, below, r, k);
      var top := refs[indents[last]];
      assert refs'[indents[last]] == top;
      var own := if top.status != Invalid && top.start.To? then [top.start.at] else [];
      assert OpenStarts(refs, indents) == starts + own && OpenStarts(refs', indents) == Without(starts, k) + own;
      WithoutKeeps(starts, own, k);
    }
  }

  // The invariant

  /** The indent stack: the NONE marker at the bottom, then strictly deeper indents, or SEQ on MAP. */
  ghost predicate IndentsOrdered(s: Scan) {
    && |s.indents| >= 1 && s.indents[0] == 0 && |s.refs| >= 1 && s.refs[0] == Indent(-1, NONE, Valid, Nil)
    && Ascending(s.indents)
    && (forall i :: 0 <= i < |s.indents| ==> s.indents[i] < |s.refs|)
    && (forall r :: 1 <= r < |s.refs| ==>
          && s.refs[r].kind != NONE && s.refs[r].column >= 0 && s.refs[r].start.To? && s.refs[r].start.at < |s.all|
          && s.all[s.refs[r].start.at].kind == StartTokenFor(s.refs[r].kind))
    && DistinctStarts(s.refs)
    && (forall i :: 1 <= i < |s.indents| ==>
          StartsIndent(s.refs[s.indents[i - 1]], s.refs[s.indents[i]].column, s.refs[s.indents[i]].kind))
  }

  /** An undecided token of this kind, still in the queue. */
  predicate Undecided(s: Scan, at: nat, kind: TokenType) {
    s.front <= at < |s.all| && s.all[at].kind == kind && s.all[at].status == UNVERIFIED
  }

  ghost predicate KeyOk(s: Scan, k: SimpleKey) {
    && Undecided(s, k.key, KEY)
    && (k.mapStart.To? <==> k.indent.To?)
    && (k.indent.To? ==>
          && Undecided(s, k.mapStart.at, BLOCK_MAP_START)
          && k.flowLevel == 0 && k.indent.at in s.indents && k.indent.at < |s.refs|
          && s.refs[k.indent.at].status == Unknown && s.refs[k.indent.at].start == k.mapStart)
  }

  /** Flow levels grow up the stack of keys, no key is deeper than the scanner, and all point at undecided tokens. */
  ghost predicate KeysOk(s: Scan) {
    && (forall i :: 0 <= i < |s.simpleKeys| ==> KeyOk(s, s.simpleKeys[i]) && s.simpleKeys[i].flowLevel <= |s.flows|)
    && (forall i, j :: 0 <= i < j < |s.simpleKeys| ==>
          s.simpleKeys[i].flowLevel < s.simpleKeys[j].flowLevel && s.simpleKeys[i].key != s.simpleKeys[j].key)
    && (s.ended ==> s.simpleKeys == [])
  }

  /** An undecided indent, or an undecided block token, belongs to the key at flow level 0. */
  ghost predicate IndentsDecided(s: Scan) {
    && (forall i :: 0 <= i < |s.indents| && s.indents[i] < |s.refs| && s.refs[s.indents[i]].status == Unknown ==>
          s.simpleKeys != [] && s.simpleKeys[0].indent == To(s.indents[i]))
    && (forall j :: 0 <= j < |s.all| && IsBlockToken(s.all[j].kind) && s.all[j].status == UNVERIFIED ==>
          s.simpleKeys != [] && s.simpleKeys[0].mapStart == To(j))
  }

  ghost predicate Nested(s: Scan)
    requires IndentsOrdered(s)
  {
    Nesting(s.all, |s.all|) == Open(OpenStarts(s.refs, s.indents))
  }

  /** What every run keeps, even one that forgets a block start. */
  ghost predicate Sound(s: Scan) {
    s.started && s.front <= |s.all| && IndentsOrdered(s) && KeysOk(s)
  }

  ghost predicate Running(s: Scan) {
    Sound(s) && (s.ended ==> |s.indents| == 1) && IndentsDecided(s) && Nested(s)
  }

  /** After the end of the text inside a flow: the blocks around the flow were left open. */
  ghost predicate EndedInFlow(s: Scan) {
    Sound(s) && s.ended && InFlow(s) && Nested(s)
  }

  ghost predicate Inv(s: Scan) {
    s == INITIAL || Running(s) || EndedInFlow(s)
  }

  lemma SoundPointsInside(s: Scan)
    requires Sound(s)
    ensures PointersOk(s) && s.indents != []
  {
  }

  lemma RunningPointsInside(s: Scan)
    requires Running(s)
    ensures PointersOk(s) && s.indents != []
  {
    SoundPointsInside(s);
  }

  // What the private steps keep

  lemma PushNests(s: Scan, item: Item)
    requires IndentsOrdered(s) && Nested(s) && !IsBlockToken(item.kind)
    ensures var s' := s.(all := s.all + [item]); IndentsOrdered(s') && Nested(s')
  {
    var s' := s.(all := s.all + [item]);
    NestingSame(s.all, s'.all, |s.all|);
    assert Nesting(s'.all, |s'.all|) == Nesting(s.all, |s.all|);
  }

  lemma PushKeeps(s: Scan, token: Item)
    requires Running(s) && !IsBlockToken(token.kind)
    ensures Running(s.(all := s.all + [token]))
  {
    PushNests(s, token);
    hide IndentsOrdered, Nested;
  }

  lemma FlagsKeep(s: Scan, simpleKeyAllowed: bool, canBeJSONFlow: bool)
    requires Running(s)
    ensures Running(Flags(s, simpleKeyAllowed, canBeJSONFlow))
  {
  }

  lemma PushIndentOrders(s: Scan, column: int, kind: IndentType, status: IndentStatus)
    requires Sound(s) && PointersOk(s) && column >= 0 && kind != NONE && status != Invalid
    ensures IndentsOrdered(PushIndent(s, column, kind, status).0)
  {
    hide Nested, KeysOk, IndentsDecided;
  }

  /** The new start token and the new indent open the same block. */
  lemma PushIndentNests(s: Scan, column: int, kind: IndentType, status: IndentStatus)
    requires Running(s) && !s.ended && column >= 0 && kind != NONE && status != Invalid
    ensures PointersOk(s) && s.indents != []
    ensures var s' := PushIndent(s, column, kind, status).0; IndentsOrdered(s') && Nested(s')
  {
    hide IndentsOrdered, KeysOk, IndentsDecided, Nesting, OpenStarts;
    RunningPointsInside(s);
    PushIndentOrders(s, column, kind, status);
    var (s', p) := PushIndent(s, column, kind, status);
    if p.To? {
      OpenedTogether(s.all, s'.all[|s.all|], s.refs, s'.refs[|s.refs|], s.indents);
    }
  }

  lemma OpenedTogether(all: seq<Item>, start: Item, refs: seq<Indent>, indent: Indent, indents: seq<nat>)
    requires forall i :: 0 <= i < |indents| ==> indents[i] < |refs|
    requires Nesting(all, |all|) == Open(OpenStarts(refs, indents))
    requires IsStart(start) && indent.status != Invalid && indent.start == To(|all|)
    ensures Nesting(all + [start], |all| + 1) == Open(OpenStarts(refs + [indent], indents + [|refs|]))
  {
    hide Nesting;
    NestingSame(all, all + [start], |all|);
    NestingStep(all + [start], |all| + 1);
    OpenStartsSame(refs, refs + [indent], indents);
    OpenStartsMore(refs + [indent], indents, |refs|);
    hide OpenStarts;
  }

  lemma OpenStartsMore(refs: seq<Indent>, indents: seq<nat>, r: nat)
    requires (forall i :: 0 <= i < |indents| ==> indents[i] < |refs|) && r < |refs|
    ensures OpenStarts(refs, indents + [r]) ==
            OpenStarts(refs, indents) + (if refs[r].status != Invalid && refs[r].start.To? then [refs[r].start.at] else [])
  {
    assert (indents + [r])[..|indents|] == indents;
  }

  lemma PushIndentKeeps(s: Scan, column: int, kind: IndentType)
    requires Running(s) && !s.ended && column >= 0 && kind != NONE
    ensures PointersOk(s) && s.indents != [] && Running(PushIndent(s, column, kind, Valid).0)
  {
    PushIndentNests(s, column, kind, Valid);
    var s' := PushIndent(s, column, kind, Valid).0;
    hide IndentsOrdered, Nested;
    forall i | 0 <= i < |s.simpleKeys|
      ensures KeyOk(s', s.simpleKeys[i])
    {
      assert KeyOk(s, s.simpleKeys[i]);
      PushIndentPreservesKey(s, column, kind, Valid, s.simpleKeys[i]);
    }
  }

  lemma PushIndentPreservesKey(s: Scan, column: int, kind: IndentType, status: IndentStatus, k: SimpleKey)
    requires PointersOk(s) && s.indents != [] && KeyOk(s, k)
    ensures KeyOk(PushIndent(s, column, kind, status).0, k)
  {
    var s' := PushIndent(s, column, kind, status).0;
    if k.indent.To? {
      var j :| 0 <= j < |s.indents| && s.indents[j] == k.indent.at;
      assert s'.indents[j] == k.indent.at;
    }
  }

  lemma InsertKeeps(s: Scan, m: Mark)
    requires Running(s) && !s.ended
    ensures PointersOk(s) && s.indents != [] && Running(InsertPotentialSimpleKey(s, m))
  {
    RunningPointsInside(s);
    if CanInsertPotentialSimpleKey(s) {
      PushIndentNests(s, m.column, MAP, Unknown);
      InsertKeysOk(s, m);
      InsertDecided(s, m);
      hide IndentsOrdered, Nested, KeysOk, IndentsDecided;
      var s1 := PushIndent(s, m.column, MAP, Unknown).0;
      PushNests(s1, Item(KEY, UNVERIFIED, ""));
      InsertFrame(s1, InsertPotentialSimpleKey(s, m));
    }
  }

  /** The order and the nesting do not depend on the keys. */
  lemma InsertFrame(s: Scan, s': Scan)
    requires IndentsOrdered(s.(all := s.all + [Item(KEY, UNVERIFIED, "")]))
    requires Nested(s.(all := s.all + [Item(KEY, UNVERIFIED, "")]))
    requires s' == s.(all := s.all + [Item(KEY, UNVERIFIED, "")], simpleKeys := s'.simpleKeys)
    ensures IndentsOrdered(s') && Nested(s')
  {
  }

  lemma InsertKeysOk(s: Scan, m: Mark)
    requires Sound(s) && !s.ended && PointersOk(s) && s.indents != [] && CanInsertPotentialSimpleKey(s)
    ensures KeysOk(InsertPotentialSimpleKey(s, m))
  {
    var s' := InsertPotentialSimpleKey(s, m);
    forall i | 0 <= i < |s.simpleKeys|
      ensures KeyOk(s', s.simpleKeys[i]) && s.simpleKeys[i].flowLevel < |s.flows|
    {
      assert KeyOk(s, s.simpleKeys[i]);
    }
    NewKeyOk(s, m);
  }

  lemma NewKeyOk(s: Scan, m: Mark)
    requires Sound(s) && !s.ended && PointersOk(s) && s.indents != [] && CanInsertPotentialSimpleKey(s)
    ensures var s' := InsertPotentialSimpleKey(s, m); KeyOk(s', s'.simpleKeys[|s.simpleKeys|])
  {
    var s' := InsertPotentialSimpleKey(s, m);
    if PushIndent(s, m.column, MAP, Unknown).1.To? {
      assert s'.indents[|s.indents|] == |s.refs|;
    }
  }

  lemma InsertDecided(s: Scan, m: Mark)
    requires Running(s) && !s.ended && PointersOk(s) && s.indents != [] && CanInsertPotentialSimpleKey(s)
    ensures IndentsDecided(InsertPotentialSimpleKey(s, m))
  {
    hide IndentsOrdered, Nested;
  }

  /** s after its last key was decided one way or the other. */
  function ResolveTop(s: Scan, valid: bool): Scan
    requires PointersOk(s) && s.simpleKeys != []
  {
    var last := |s.simpleKeys| - 1;
    Resolve(s, s.simpleKeys[last], valid).(simpleKeys := s.simpleKeys[..last])
  }

  lemma ResolveKeepsOrder(s: Scan, k: SimpleKey, valid: bool)
    requires IndentsOrdered(s) && KeyOk(s, k)
    ensures KeyPointsInside(s, k) && IndentsOrdered(Resolve(s, k, valid))
  {
    var s' := Resolve(s, k, valid);
    assert forall r :: 0 <= r < |s.refs| ==>
                         s'.refs[r].start == s.refs[r].start && s'.refs[r].kind == s.refs[r].kind && s'.refs[r].column == s.refs[r].column;
  }

  lemma ResolveKeepsNesting(s: Scan, k: SimpleKey, valid: bool)
    requires Running(s) && KeyOk(s, k)
    ensures KeyPointsInside(s, k) && IndentsOrdered(Resolve(s, k, valid)) && Nested(Resolve(s, k, valid))
  {
    ResolveKeepsOrder(s, k, valid);
    OrderWhenSound(s);
    hide Sound, IndentsDecided, KeysOk, Nesting, OpenStarts;
    var s' := Resolve(s, k, valid);
    var all1 := MarkToken(s.all, k.mapStart, if valid then VALID else INVALID);
    NestingSame(all1, s'.all, |s.all|);
    if !valid && k.indent.To? {
      DroppedTogether(s, k);
    } else {
      KeptTogether(s, k, valid);
    }
  }

  lemma KeptTogether(s: Scan, k: SimpleKey, valid: bool)
    requires IndentsOrdered(s) && KeyOk(s, k) && KeyPointsInside(s, k) && (valid || k.indent.Nil?)
    ensures Nesting(MarkToken(s.all, k.mapStart, if valid then VALID else INVALID), |s.all|) == Nesting(s.all, |s.all|)
    ensures |MarkIndent(s.refs, k.indent, if valid then Valid else Invalid)| == |s.refs|
    ensures OpenStarts(MarkIndent(s.refs, k.indent, if valid then Valid else Invalid), s.indents) == OpenStarts(s.refs, s.indents)
  {
    hide Nesting, OpenStarts;
    NestingSame(s.all, MarkToken(s.all, k.mapStart, if valid then VALID else INVALID), |s.all|);
    OpenStartsSame(s.refs, MarkIndent(s.refs, k.indent, if valid then Valid else Invalid), s.indents);
  }

  lemma OrderWhenSound(s: Scan)
    requires Sound(s)
    ensures IndentsOrdered(s)
  {
  }

  /** The start token and the indent of a refused key go together. */
  lemma DroppedTogether(s: Scan, k: SimpleKey)
    requires IndentsOrdered(s) && Nested(s) && KeyOk(s, k) && k.indent.To?
    ensures Nesting(MarkToken(s.all, k.mapStart, INVALID), |s.all|) == Open(OpenStarts(MarkIndent(s.refs, k.indent, Invalid), s.indents))
  {
    hide Nesting, OpenStarts, Without;
    DroppedIndent(s.refs, s.indents, k.indent.at, k.mapStart.at);
    DroppedStart(s.all, |s.all|, k.mapStart.at);
  }

  lemma ResolveKeepsKeys(s: Scan, valid: bool)
    requires Sound(s) && s.simpleKeys != []
    ensures PointersOk(s) && KeysOk(ResolveTop(s, valid))
  {
    SoundPointsInside(s);
    var last := |s.simpleKeys| - 1;
    var s' := ResolveTop(s, valid);
    forall i | 0 <= i < |s'.simpleKeys|
      ensures KeyOk(s', s'.simpleKeys[i])
    {
      OtherKeyUntouched(s, i, valid);
    }
  }

  lemma ResolveDecides(s: Scan, valid: bool)
    requires Running(s) && s.simpleKeys != []
    ensures PointersOk(s) && IndentsDecided(ResolveTop(s, valid))
  {
    RunningPointsInside(s);
    var last := |s.simpleKeys| - 1;
    var k := s.simpleKeys[last];
    assert KeyPointsInside(s, k);
    hide Running, IndentsOrdered, Nested, KeysOk, PointersOk, KeyPointsInside, Resolve;
    DecidedWhenRunning(s);
    ResolvedTokens(s, k, valid);
    var s' := ResolveTop(s, valid);
    assert s'.simpleKeys == s.simpleKeys[..last] && (last > 0 ==> s'.simpleKeys[0] == s.simpleKeys[0]);
    hide ResolveTop;
    forall i | 0 <= i < |s'.indents| && s'.indents[i] < |s'.refs| && s'.refs[s'.indents[i]].status == Unknown
      ensures s'.simpleKeys != [] && s'.simpleKeys[0].indent == To(s'.indents[i])
    {
      assert k.indent != To(s'.indents[i]) && s.refs[s.indents[i]].status == Unknown;
    }
    forall j | 0 <= j < |s'.all| && IsBlockToken(s'.all[j].kind) && s'.all[j].status == UNVERIFIED
      ensures s'.simpleKeys != [] && s'.simpleKeys[0].mapStart == To(j)
    {
      assert k.mapStart != To(j) && s'.all[j] == s.all[j];
    }
  }

  lemma DecidedWhenRunning(s: Scan)
    requires Running(s)
    ensures IndentsDecided(s)
  {
  }

  /** What deciding a key changes, one token and one indent at a time. */
  lemma ResolvedTokens(s: Scan, k: SimpleKey, valid: bool)
    requires PointersOk(s) && KeyPointsInside(s, k)
    ensures var s' := Resolve(s, k, valid);
            && |s'.all| == |s.all| && |s'.refs| == |s.refs| && s'.indents == s.indents
            && (forall j :: 0 <= j < |s.all| ==> s'.all[j].kind == s.all[j].kind)
            && (forall j :: 0 <= j < |s.all| && (k.mapStart != To(j)) && k.key != j ==> s'.all[j] == s.all[j])
            && (k.mapStart.To? ==> s'.all[k.mapStart.at].status != UNVERIFIED) && s'.all[k.key].status != UNVERIFIED
            && (forall r :: 0 <= r < |s.refs| && k.indent != To(r) ==> s'.refs[r] == s.refs[r])
            && (k.indent.To? ==> s'.refs[k.indent.at].status != Unknown)
  {
  }

  /** Deciding the last key touches no token or indent of another. */
  lemma OtherKeyUntouched(s: Scan, i: nat, valid: bool)
    requires Sound(s) && PointersOk(s) && i < |s.simpleKeys| - 1
    ensures KeyOk(ResolveTop(s, valid), s.simpleKeys[i])
  {
    assert KeyOk(s, s.simpleKeys[i]) && KeyOk(s, s.simpleKeys[|s.simpleKeys| - 1]);
  }

  lemma ResolveKeeps(s: Scan, valid: bool)
    requires Running(s) && s.simpleKeys != []
    ensures PointersOk(s) && Running(ResolveTop(s, valid))
  {
    RunningPointsInside(s);
    ResolveKeepsNesting(s, s.simpleKeys[|s.simpleKeys| - 1], valid);
    ResolveKeepsKeys(s, valid);
    ResolveDecides(s, valid);
  }

  lemma InvalidateKeeps(s: Scan)
    requires Running(s)
    ensures PointersOk(s) && Running(InvalidateSimpleKey(s))
  {
    RunningPointsInside(s);
    if ExistsActiveSimpleKey(s) {
      ResolveKeeps(s, false);
    }
  }

  lemma VerifyKeeps(s: Scan, m: Mark)
    requires Running(s)
    ensures PointersOk(s) && Running(VerifySimpleKey(s, m).0)
  {
    RunningPointsInside(s);
    if ExistsActiveSimpleKey(s) {
      ResolveKeeps(s, VerifySimpleKey(s, m).1);
    }
  }

  /** An indent whose key was no key leaves no trace. */
  lemma PopInvalidKeeps(s: Scan)
    requires Running(s) && PointersOk(s) && s.indents != [] && Top(s).status == Invalid
    ensures Running(s.(indents := s.indents[..|s.indents| - 1]))
  {
    var last := |s.indents| - 1;
    var s' := s.(indents := s.indents[..last]);
    assert OpenStarts(s.refs, s.indents) == OpenStarts(s.refs, s'.indents) + [];
    assert Nested(s) && last > 0;
    hide Nesting, OpenStarts;
    PopInvalidKeepsKeys(s, s');
  }

  /** No key waits for an indent that is INVALID. */
  lemma PopInvalidKeepsKeys(s: Scan, s': Scan)
    requires Sound(s) && PointersOk(s) && |s.indents| >= 2 && Top(s).status == Invalid
    requires s' == s.(indents := s.indents[..|s.indents| - 1])
    ensures Sound(s')
  {
    forall i | 0 <= i < |s.simpleKeys|
      ensures KeyOk(s', s.simpleKeys[i])
    {
      var k := s.simpleKeys[i];
      assert KeyOk(s, k);
      if k.indent.To? {
        var j :| 0 <= j < |s.indents| && s.indents[j] == k.indent.at;
        assert s'.indents[j] == k.indent.at;
      }
    }
  }

  lemma EndMatches(items: seq<Item>, open: seq<nat>, start: nat, kind: IndentType)
    requires Nesting(items, |items|) == Open(open + [start]) && kind != NONE
    requires start < |items| && items[start].kind == StartTokenFor(kind)
    ensures var end := Item(if kind == SEQ then BLOCK_SEQ_END else BLOCK_MAP_END, VALID, "");
            Nesting(items + [end], |items| + 1) == Open(open)
  {
    hide Nesting;
    var items' := items + [Item(if kind == SEQ then BLOCK_SEQ_END else BLOCK_MAP_END, VALID, "")];
    NestingSame(items, items', |items|);
    NestingStep(items', |items'|);
    assert (open + [start])[..|open|] == open;
    assert items'[start] == items[start];
  }

  /** A valid indent ends with the end token that matches the start opened last. */
  lemma PopValidKeeps(s: Scan)
    requires Running(s) && PointersOk(s) && s.indents != [] && Top(s).status == Valid && Top(s).kind != NONE
    ensures Running(PopIndent(s))
  {
    PopValidOrders(s);
    PopValidKeys(s);
    PopValidDecided(s);
    PopValidNests(s);
    PopValidFrame(s);
    hide IndentsOrdered, KeysOk, IndentsDecided, Nested, PopIndent;
  }

  lemma PopValidNests(s: Scan)
    requires IndentsOrdered(s) && Nested(s) && PointersOk(s) && s.indents != [] && Top(s).status == Valid && Top(s).kind != NONE
    requires Top(s).start.To? && Top(s).start.at < |s.all| && s.all[Top(s).start.at].kind == StartTokenFor(Top(s).kind)
    requires IndentsOrdered(PopIndent(s))
    ensures Nested(PopIndent(s))
  {
    var top := Top(s);
    TopStartIsOpen(s);
    PopValidFrame(s);
    var s' := PopIndent(s);
    assert s'.refs == s.refs && s'.indents == s.indents[..|s.indents| - 1];
    var below := OpenStarts(s.refs, s'.indents);
    hide IndentsOrdered, PopIndent, Nesting, OpenStarts, PointersOk, Top;
    EndMatches(s.all, below, top.start.at, top.kind);
  }

  lemma TopStartIsOpen(s: Scan)
    requires PointersOk(s) && s.indents != [] && Top(s).status == Valid && Top(s).start.To?
    ensures OpenStarts(s.refs, s.indents) == OpenStarts(s.refs, s.indents[..|s.indents| - 1]) + [Top(s).start.at]
  {
  }

  lemma PopValidOrders(s: Scan)
    requires Sound(s) && PointersOk(s) && s.indents != [] && Top(s).status == Valid && Top(s).kind != NONE
    ensures IndentsOrdered(PopIndent(s)) && Top(s).start.To? && Top(s).start.at < |s.all|
    ensures s.all[Top(s).start.at].kind == StartTokenFor(Top(s).kind)
  {
    hide KeysOk;
    assert s.indents[|s.indents| - 1] >= 1;
  }

  lemma PopValidKeys(s: Scan)
    requires Sound(s) && PointersOk(s) && s.indents != [] && Top(s).status == Valid && Top(s).kind != NONE
    ensures KeysOk(PopIndent(s))
  {
    PopValidFrame(s);
    var s' := PopIndent(s);
    hide PopIndent, IndentsOrdered;
    forall i | 0 <= i < |s.simpleKeys|
      ensures KeyOk(s', s.simpleKeys[i])
    {
      var k := s.simpleKeys[i];
      assert KeyOk(s, k);
      if k.indent.To? {
        var j :| 0 <= j < |s.indents| && s.indents[j] == k.indent.at;
        assert s'.indents[j] == k.indent.at;
      }
    }
  }

  lemma PopValidDecided(s: Scan)
    requires Running(s) && PointersOk(s) && s.indents != [] && Top(s).status == Valid && Top(s).kind != NONE
    ensures IndentsDecided(PopIndent(s))
  {
    hide Nested, IndentsOrdered, KeysOk;
    PopValidFrame(s);
  }

  lemma PopValidFrame(s: Scan)
    requires PointersOk(s) && s.indents != [] && Top(s).status == Valid && Top(s).kind != NONE
    ensures var end := Item(if Top(s).kind == SEQ then BLOCK_SEQ_END else BLOCK_MAP_END, VALID, "");
            PopIndent(s) == s.(indents := s.indents[..|s.indents| - 1], all := s.all + [end])
  {
  }

  /** Leaving an indent in block context. */
  lemma PopIndentKeeps(s: Scan)
    requires Running(s) && PointersOk(s) && s.indents != [] && !InFlow(s) && Top(s).kind != NONE
    ensures Running(PopIndent(s)) && |PopIndent(s).indents| >= 1 && !InFlow(PopIndent(s))
  {
    PopIndentKeepsPointers(s);
    if Top(s).status == Valid {
      PopValidKeeps(s);
    } else {
      InvalidateKeeps(s);
      var s1 := InvalidateSimpleKey(s);
      TopIsInvalidated(s);
      PopInvalidKeeps(s1);
      InvalidateAndPop(s);
    }
    hide PopIndent, InvalidateSimpleKey, KeysOk, IndentsDecided, Nested;
  }

  lemma InvalidateAndPop(s: Scan)
    requires PointersOk(s) && s.indents != [] && Top(s).status != Valid
    ensures InvalidateSimpleKey(s).indents == s.indents
    ensures PopIndent(s) == InvalidateSimpleKey(s).(indents := s.indents[..|s.indents| - 1])
  {
  }

  lemma TopIsInvalidated(s: Scan)
    requires Running(s) && PointersOk(s) && s.indents != [] && !InFlow(s) && Top(s).status != Valid
    ensures var s1 := InvalidateSimpleKey(s); PointersOk(s1) && s1.indents == s.indents && Top(s1).status == Invalid
  {
    hide IndentsOrdered, Nested;
    if Top(s).status == Unknown {
      assert s.simpleKeys[0].indent == To(s.indents[|s.indents| - 1]);
    }
  }

  // What the loops over the indents keep

  /** s' is where a loop over the indents may stop: at or left of the column. */
  ghost predicate LeftTo(s: Scan, s': Scan, column: int) {
    && Running(s') && !InFlow(s') && s'.ended == s.ended && s'.indents != [] && PointersOk(s') && Top(s').column <= column
  }

  lemma {:induction false} PopToColumnKeeps(s: Scan, column: int, atBlockEntry: bool)
    requires Running(s) && PointersOk(s) && !InFlow(s) && column >= 0
    ensures var s' := PopToColumn(s, column, atBlockEntry);
            LeftTo(s, s', column) && (Top(s').column == column && Top(s').kind == SEQ ==> atBlockEntry)
    decreases |s.indents|
  {
    RunningPointsInside(s);
    hide Running, PointersOk;
    if Top(s).column >= column && !(Top(s).column == column && !(Top(s).kind == SEQ && !atBlockEntry)) {
      TopIsNotNone(s);
      PopIndentKeeps(s);
      PopIndentKeepsPointers(s);
      hide PopIndent;
      PopIndentKeepsEnded(s);
      PopToColumnKeeps(PopIndent(s), column, atBlockEntry);
    }
  }

  lemma PopIndentKeepsEnded(s: Scan)
    requires PointersOk(s) && s.indents != []
    ensures PopIndent(s).ended == s.ended
  {
  }

  lemma TopIsNotNone(s: Scan)
    requires Running(s) && PointersOk(s) && s.indents != []
    ensures Top(s).column >= 0 || Top(s).status != Valid ==> Top(s).kind != NONE
    ensures Top(s).kind == NONE ==> |s.indents| == 1
  {
  }

  lemma {:induction false} PopInvalidLoopKeeps(s: Scan, column: int)
    requires Running(s) && PointersOk(s) && !InFlow(s) && s.indents != [] && Top(s).column <= column
    ensures LeftTo(s, PopInvalid(s), column) && Top(PopInvalid(s)).status != Invalid
    decreases |s.indents|
  {
    if Top(s).status == Invalid {
      TopIsNotNone(s);
      PopIndentKeeps(s);
      PopIndentKeepsPointers(s);
      PopIndentKeepsEnded(s);
      BelowTopIsLeft(s);
      hide Running, PointersOk, PopIndent;
      PopInvalidLoopKeeps(PopIndent(s), column);
    }
  }

  lemma BelowTopIsLeft(s: Scan)
    requires Running(s) && PointersOk(s) && |s.indents| >= 2
    ensures Top(s.(indents := s.indents[..|s.indents| - 1])).column <= Top(s).column
    ensures PointersOk(PopIndent(s)) && PopIndent(s).indents != []
    ensures Top(PopIndent(s)).column <= Top(s).column
  {
    PopIndentKeepsPointers(s);
  }

  /** PopIndentToHere in block context: the top is at or left of the column, and is not INVALID. */
  lemma PopIndentToHereKeeps(s: Scan, column: int, atBlockEntry: bool)
    requires Running(s) && column >= 0
    ensures PointersOk(s)
    ensures var s' := PopIndentToHere(s, column, atBlockEntry);
            && Running(s') && s'.ended == s.ended && s'.indents != [] && PointersOk(s')
            && (!InFlow(s) ==> Top(s').column <= column && Top(s').status != Invalid)
            && (InFlow(s) ==> s' == s)
  {
    RunningPointsInside(s);
    if !InFlow(s) {
      PopToColumnKeeps(s, column, atBlockEntry);
      PopInvalidLoopKeeps(PopToColumn(s, column, atBlockEntry), column);
    }
  }

  lemma {:induction false} PopToNoneKeeps(s: Scan)
    requires Running(s) && PointersOk(s) && !InFlow(s)
    ensures var s' := PopToNone(s);
            Running(s') && !InFlow(s') && s'.ended == s.ended && |s'.indents| == 1 && PointersOk(s')
    decreases |s.indents|
  {
    RunningPointsInside(s);
    TopIsNotNone(s);
    if Top(s).kind != NONE {
      PopIndentKeeps(s);
      PopIndentKeepsPointers(s);
      PopToNoneKeeps(PopIndent(s));
    }
  }
}
