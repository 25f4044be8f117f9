/** The token that stands at a place of the text, where it is a name, a tag, a directive, a marker, a quoted or a block scalar. */
module TokenShapes {
  import opened Exp
  import opened Streaming
  import opened Tokens
  import opened ScannerState
  import opened ScannerSteps
  import opened ScannerInvariant
  import opened ScannerSound
  import opened ScalarReading
  import opened QuotedScalars
  import opened TokenText
  import opened ScannerBranches
  import opened FlowFolding
  import opened PlainTokens
  import LiteralScalars
  import FoldedScalars

  ghost predicate CanScan(p: Place) {
    Sound(p.scan) && p.scan.started && !p.scan.ended
  }

  /** Scanning on, the next token is this one, and the input then stands behind it. */
  ghost predicate Reads(t: string, p: Place, token: Item, end: nat)
    requires CanScan(p)
  {
    match TokenFrom(t, p)
    case Throws => false
    case Leads(q) => q.mark.pos == end && q.scan.all != [] && q.scan.all[|q.scan.all| - 1] == token
  }

  ghost predicate Refuses(t: string, p: Place)
    requires CanScan(p)
  {
    TokenFrom(t, p).Throws?
  }

  ghost function CalledAt(t: string, p: Place): Called
    requires CanScan(p) && Front(t, p).mark.pos < |t|
  {
    var front := Front(t, p);
    CalledFor(BranchAt(t, front.mark, InFlow(front.scan), front.scan.canBeJSONFlow), t, front.mark, front.scan)
  }

  lemma IsCalled(t: string, p: Place, a: Action, end: Mark, token: Item)
    requires CanScan(p) && Front(t, p).mark.pos < |t| && CalledAt(t, p) == Called(a, end) && Scans(a)
    requires match Act(Front(t, p).scan, a, Front(t, p).mark)
             case Threw => false
             case Next(s) => s.all != [] && s.all[|s.all| - 1] == token
    ensures Reads(t, p, token, end.pos)
  {
    hide Sound, Gap, PopIndentToHere, EndStream, BranchAt, CalledFor, Act, Scans, PointersOk;
  }

  lemma IsNotCalled(t: string, p: Place)
    requires CanScan(p) && Front(t, p).mark.pos < |t| && CalledAt(t, p).NoAction?
    ensures Refuses(t, p)
  {
    hide Sound, Gap, PopIndentToHere, EndStream, BranchAt, CalledFor, Act, Scans, PointersOk;
  }

  // Anchors and aliases

  /** An anchor or an alias is what stands up to white space or a flow indicator; an opening one is an error. */
  lemma AnchorToken(t: string, p: Place, end: nat)
    requires CanScan(p) && Front(t, p).mark.pos < end <= |t| && t[Front(t, p).mark.pos] in "&*"
    requires forall k :: Front(t, p).mark.pos < k < end ==> t[k] !in "[]{}, \t\n\r"
    requires end == |t| || t[end] in "[]{}, \t\n\r"
    ensures var i := Front(t, p).mark.pos;
            if i + 1 < end && (end == |t| || t[end] !in "[{")
            then Reads(t, p, Item(if t[i] == '*' then ALIAS else ANCHOR, VALID, t[i + 1..end]), end)
            else Refuses(t, p)
  {
    hide Sound, Front, BranchAt, AnchorRun, EndsAnchor, InsertPotentialSimpleKey, PointersOk;
    var front := Front(t, p);
    var i := front.mark.pos;
    AnchorBranch(t, front.mark, InFlow(front.scan), front.scan.canBeJSONFlow);
    NameRuns(t, i + 1, end);
    if i + 1 < end && (end == |t| || t[end] !in "[{") {
      var token := Item(if t[i] == '*' then ALIAS else ANCHOR, VALID, t[i + 1..end]);
      IsCalled(t, p, Property(token), AfterMany(t, front.mark, end - i), token);
    } else {
      IsNotCalled(t, p);
    }
  }

  lemma AnchorBranch(t: string, m: Mark, inFlow: bool, canBeJSONFlow: bool)
    requires m.pos < |t| && t[m.pos] in "&*!"
    ensures BranchAt(t, m, inFlow, canBeJSONFlow) == if t[m.pos] == '!' then AtTag else AtAnchor
  {
  }

  lemma {:induction false} NameRuns(t: string, i: nat, end: nat)
    requires i <= end <= |t| && forall k :: i <= k < end ==> t[k] !in "[]{}, \t\n\r"
    requires end == |t| || t[end] in "[]{}, \t\n\r"
    ensures AnchorRun(t, i) == end && (EndsAnchor(t, end) <==> end == |t| || t[end] !in "[{")
    decreases end - i
  {
    if i < end {
      NameRuns(t, i + 1, end);
    }
  }

  // Tags

  predicate IsWordChar(c: char) {
    'a' <= c <= 'z' || 'A' <= c <= 'Z' || '0' <= c <= '9' || c == '-'
  }

  predicate HexAt(t: string, i: nat) {
    i < |t| && ('0' <= t[i] <= '9' || 'A' <= t[i] <= 'F' || 'a' <= t[i] <= 'f')
  }

  predicate EscapeHere(t: string, i: nat) {
    i < |t| && t[i] == '%' && HexAt(t, i + 1) && HexAt(t, i + 2)
  }

  /** Of a tag's suffix. */
  predicate TagPart(t: string, i: nat) {
    i < |t| && (IsWordChar(t[i]) || t[i] in "#;/?:@&=+$_.~*'()" || EscapeHere(t, i))
  }

  /** Of a verbatim tag. */
  predicate UriPart(t: string, i: nat) {
    TagPart(t, i) || (i < |t| && t[i] in ",![]")
  }

  predicate TagParts(t: string, i: nat, end: nat) {
    i <= end <= |t| && (forall k :: i <= k < end ==> TagPart(t, k)) && !TagPart(t, end)
  }

  predicate IsVerbatim(t: string, i: nat, end: nat) {
    i < end <= |t| && t[end - 1] == '>' && forall k :: i <= k < end - 1 ==> UriPart(t, k)
  }

  /** Word characters, and an exclamation mark behind them. */
  predicate IsHandle(t: string, i: nat, h: nat) {
    i <= h < |t| && t[h] == '!' && forall k :: i <= k < h ==> IsWordChar(t[k])
  }

  ghost predicate HasHandle(t: string, i: nat) {
    exists h: nat :: IsHandle(t, i, h)
  }

  /**
   * The tag whose exclamation mark stands in front of i, and where it ends. A single mark is a tag of its own, but at
   * the end of the text it is taken for the secondary handle.
   */
  ghost predicate IsTag(t: string, i: nat, token: Item, end: nat) {
    if i < |t| && t[i] == '<' then
      IsVerbatim(t, i + 1, end) && token == Item(TAG, VALID, t[i + 1..end - 1], VERBATIM)
    else if HasHandle(t, i) then
      exists h: nat :: IsHandle(t, i, h) && h + 1 < end && TagParts(t, h + 1, end) && token == Item(TAG, VALID, t[i..h], NAMED_HANDLE, [t[h + 1..end]])
    else
      && TagParts(t, i, end) && (end < |t| ==> t[end] != '!')
      && token == Item(TAG, VALID, t[i..end], if i < end then PRIMARY_HANDLE else if i == |t| then SECONDARY_HANDLE else NON_SPECIFIC)
  }

  lemma {:induction false} TagRunIs(t: string, i: nat)
    requires i <= |t|
    ensures TagParts(t, i, TagRun(t, i))
    decreases |t| - i
  {
    if i < |t| && Exp.Tag(t, i) > 0 {
      TagRunIs(t, i + Exp.Tag(t, i));
    }
  }

  lemma {:induction false} VerbatimIs(t: string, i: nat)
    requires i <= |t|
    ensures VerbatimEnd(t, i) == -1 ==> forall end: nat :: !IsVerbatim(t, i, end)
    ensures VerbatimEnd(t, i) >= 0 ==> IsVerbatim(t, i, VerbatimEnd(t, i) + 1)
    decreases |t| - i
  {
    if i < |t| {
      var n := URI(t, i);
      if t[i] == '>' {
        assert IsVerbatim(t, i, i + 1);
      } else if n > 0 {
        VerbatimIs(t, i + n);
        VerbatimGoesOn(t, i);
      } else {
        assert !UriPart(t, i);
      }
    }
  }

  lemma VerbatimGoesOn(t: string, i: nat)
    requires i < |t| && t[i] != '>' && URI(t, i) > 0
    ensures forall end: nat :: IsVerbatim(t, i, end) <==> IsVerbatim(t, i + URI(t, i), end)
  {
    var n := URI(t, i);
    assert forall k :: i <= k < i + n ==> UriPart(t, k) && t[k] != '>';
    forall end: nat
      ensures IsVerbatim(t, i, end) <==> IsVerbatim(t, i + n, end)
    {
      hide UriPart, URI;
    }
  }

  /** Behind the word characters a handle has ended, or a tag goes on that is none. */
  lemma {:induction false} HandleIs(t: string, i: nat, canBeHandle: bool)
    requires i <= |t|
    ensures var h := HandleFrom(t, i, canBeHandle);
            if canBeHandle && HasHandle(t, i) then h.Handle? && h.canBeHandle && IsHandle(t, i, h.end)
            else if h.Handle? then TagParts(t, i, h.end) && (h.end < |t| ==> t[h.end] != '!') && (h.canBeHandle ==> canBeHandle && h.end == |t|)
            else forall end: nat :: TagParts(t, i, end) ==> end < |t| && t[end] == '!'
    ensures var h := HandleFrom(t, i, canBeHandle);
            h.Handle? && h.end == |t| == i ==> h.canBeHandle == canBeHandle
    decreases |t| - i
  {
    if i < |t| && t[i] == '!' {
      assert canBeHandle ==> IsHandle(t, i, i);
      assert !TagPart(t, i);
    } else if i < |t| {
      var word := canBeHandle && IsWord(t[i]);
      var n := if word then 1 else Exp.Tag(t, i);
      if n == 0 {
        assert !TagPart(t, i);
        assert forall h: nat :: !IsHandle(t, i, h);
      } else {
        HandleIs(t, i + n, word);
        HandleGoesOn(t, i, n);
      }
    } else {
      assert forall h: nat :: !IsHandle(t, i, h);
    }
  }

  lemma HandleGoesOn(t: string, i: nat, n: nat)
    requires i < |t| && t[i] != '!' && n == (if IsWord(t[i]) then 1 else Exp.Tag(t, i)) && n > 0
    ensures i + n <= |t| && forall end: nat :: TagParts(t, i, end) <==> TagParts(t, i + n, end)
    ensures IsWord(t[i]) ==> n == 1 && (forall h: nat :: IsHandle(t, i, h) <==> IsHandle(t, i + n, h)) && (HasHandle(t, i) <==> HasHandle(t, i + n))
    ensures !IsWord(t[i]) ==> !HasHandle(t, i)
  {
    assert forall k :: i <= k < i + n ==> TagPart(t, k);
    if IsWord(t[i]) {
      assert forall h: nat :: IsHandle(t, i, h) <==> IsHandle(t, i + n, h);
      if HasHandle(t, i) {
        var h: nat :| IsHandle(t, i, h);
        assert IsHandle(t, i + n, h);
      }
      if HasHandle(t, i + n) {
        var h: nat :| IsHandle(t, i + n, h);
        assert IsHandle(t, i, h);
      }
    }
  }

  /** The scanner reads exactly these tags. */
  lemma TagIs(t: string, i: nat, token: Item, end: nat)
    requires i <= |t|
    ensures TagAt(t, i) == TagText(token, end) <==> IsTag(t, i, token, end)
  {
    hide VerbatimEnd, HandleFrom, TagRun, UriPart, TagPart;
    if i < |t| && t[i] == '<' {
      VerbatimIs(t, i + 1);
      VerbatimIsOne(t, i + 1, VerbatimEnd(t, i + 1) + 1, end);
    } else {
      HandleIs(t, i, true);
      if HasHandle(t, i) {
        var h := HandleFrom(t, i, true).end;
        TagRunIs(t, h + 1);
        NamedIs(t, i, h, token, end);
      } else {
        PartsAreOne(t, i, end);
      }
    }
  }

  lemma VerbatimIsOne(t: string, i: nat, a: int, b: nat)
    ensures a >= 0 && IsVerbatim(t, i, a) && IsVerbatim(t, i, b) ==> a == b
  {
    if a >= 0 && IsVerbatim(t, i, a) && IsVerbatim(t, i, b) {
      assert !UriPart(t, a - 1) && !UriPart(t, b - 1);
    }
  }

  lemma TagEnds(t: string, i: nat)
    requires i <= |t| && TagAt(t, i).TagText?
    ensures TagAt(t, i).end >= i
  {
  }

  lemma PartsAreOne(t: string, i: nat, end: nat)
    ensures forall other: nat :: TagParts(t, i, end) && TagParts(t, i, other) ==> other == end
  {
    hide TagPart;
  }

  lemma NamedIs(t: string, i: nat, h: nat, token: Item, end: nat)
    requires IsHandle(t, i, h) && TagParts(t, h + 1, TagRun(t, h + 1)) && (i < |t| ==> t[i] != '<')
    ensures var j := TagRun(t, h + 1);
            IsTag(t, i, token, end) <==> h + 1 < j && end == j && token == Item(TAG, VALID, t[i..h], NAMED_HANDLE, [t[h + 1..j]])
  {
    hide TagPart, TagRun;
    var j := TagRun(t, h + 1);
    PartsAreOne(t, h + 1, j);
    assert forall g: nat :: IsHandle(t, i, g) ==> g == h;
    assert HasHandle(t, i);
  }

  /** A tag is scanned as what it is, and what is none is refused. */
  lemma TagToken(t: string, p: Place)
    requires CanScan(p) && Front(t, p).mark.pos < |t| && t[Front(t, p).mark.pos] == '!'
    ensures var i := Front(t, p).mark.pos + 1;
            && (Refuses(t, p) <==> forall token, end :: !IsTag(t, i, token, end))
            && forall token, end :: IsTag(t, i, token, end) ==> Reads(t, p, token, end)
  {
    hide Sound, Front, BranchAt, TagAt, IsTag, InsertPotentialSimpleKey, PointersOk;
    var front := Front(t, p);
    var i := front.mark.pos + 1;
    AnchorBranch(t, front.mark, InFlow(front.scan), front.scan.canBeJSONFlow);
    forall token, end: nat
      ensures TagAt(t, i) == TagText(token, end) <==> IsTag(t, i, token, end)
    {
      TagIs(t, i, token, end);
    }
    match TagAt(t, i)
    case BadTag =>
      IsNotCalled(t, p);
    case TagText(token, end) =>
      TagIsTag(t, i);
      TagEnds(t, i);
      IsCalled(t, p, Property(token), AfterMany(t, front.mark, end - front.mark.pos), token);
  }

  // Markers and explicit keys

  predicate EndsWord(t: string, i: nat) {
    i >= |t| || t[i] in " \t\n\r"
  }

  lemma MarkerToken(t: string, p: Place)
    requires CanScan(p)
    requires var m := Front(t, p).mark;
             m.column == 0 && m.pos + 3 <= |t| && t[m.pos..m.pos + 3] in ["---", "..."] && EndsWord(t, m.pos + 3)
    ensures var i := Front(t, p).mark.pos;
            Reads(t, p, Item(if t[i] == '-' then DOC_START else DOC_END, VALID, ""), i + 3)
  {
    hide Sound, Front, PopAllIndents, PointersOk;
    var front := Front(t, p);
    var i := front.mark.pos;
    assert t[i] == t[i..i + 3][0] && t[i + 1] == t[i..i + 3][1] && t[i + 2] == t[i..i + 3][2];
    var token := Item(if t[i] == '-' then DOC_START else DOC_END, VALID, "");
    IsCalled(t, p, Marker(token), AfterMany(t, front.mark, 3), token);
  }

  /** A question mark in front of white space; in block context it needs a place where a key may begin. */
  lemma KeyToken(t: string, p: Place)
    requires CanScan(p)
    requires var i := Front(t, p).mark.pos; i + 1 < |t| && t[i] == '?' && t[i + 1] in " \t\n\r"
    ensures var front := Front(t, p);
            if front.scan.flows == [] && !front.scan.simpleKeyAllowed then Refuses(t, p)
            else Reads(t, p, Item(KEY, VALID, ""), front.mark.pos + 1)
  {
    hide Sound, Front, PushIndent, PointersOk, TokenFrom;
    var front := Front(t, p);
    if front.scan.flows == [] && !front.scan.simpleKeyAllowed {
      IsRefused(t, p, Key, AfterMany(t, front.mark, 1));
    } else {
      IsCalled(t, p, Key, AfterMany(t, front.mark, 1), Item(KEY, VALID, ""));
    }
  }

  lemma IsRefused(t: string, p: Place, a: Action, end: Mark)
    requires CanScan(p) && Front(t, p).mark.pos < |t| && CalledAt(t, p) == Called(a, end) && Scans(a)
    requires Act(Front(t, p).scan, a, Front(t, p).mark).Threw?
    ensures Refuses(t, p)
  {
    hide Sound, Gap, PopIndentToHere, EndStream, BranchAt, CalledFor, Act, Scans, PointersOk;
  }

  // Directives

  datatype Parameter = Parameter(gap: string, word: string)

  predicate IsWordText(w: string) {
    forall k :: 0 <= k < |w| ==> w[k] !in " \t\n\r"
  }

  predicate IsGap(w: string) {
    forall k :: 0 <= k < |w| ==> w[k] in " \t"
  }

  /** A word that begins like a comment is one. */
  predicate ParameterOk(p: Parameter) {
    p.gap != "" && IsGap(p.gap) && p.word != "" && IsWordText(p.word) && p.word[0] != '#'
  }

  function Spelled(ps: seq<Parameter>): string {
    if ps == [] then "" else ps[0].gap + (ps[0].word + Spelled(ps[1..]))
  }

  function LineEnds(ps: seq<Parameter>, tail: string, rest: string): string {
    Spelled(ps) + (tail + rest)
  }

  function Words(ps: seq<Parameter>): (r: seq<string>)
    ensures |r| == |ps|
  {
    if ps == [] then [] else [ps[0].word] + Words(ps[1..])
  }

  /** Behind the words of a line: the end of the text, a break, or a comment behind a blank. */
  predicate EndsWords(tail: string, rest: string) {
    IsGap(tail) && (rest == "" || rest[0] in "\n\r" || (rest[0] == '#' && tail != ""))
  }

  lemma {:induction false} WordRuns(t: string, i: nat, w: string, rest: string)
    requires Follows(t, i, w + rest) && IsWordText(w) && (rest == "" || rest[0] in " \t\n\r")
    ensures i + |w| <= |t| && WordEnd(t, i) == i + |w| && t[i..i + |w|] == w && Follows(t, i + |w|, rest)
    decreases |w|
  {
    FollowsOn(t, i, w, rest);
    if w == "" {
      assert w + rest == rest;
      if rest != "" {
        assert t[i] == t[i..][0];
      }
    } else {
      assert w + rest == [w[0]] + (w[1..] + rest);
      FollowsOn(t, i, [w[0]], w[1..] + rest);
      WordRuns(t, i + 1, w[1..], rest);
      assert t[i..i + |w|] == [t[i]] + t[i + 1..i + |w|];
    }
  }

  lemma {:induction false} GapRuns(t: string, i: nat, w: string, rest: string)
    requires Follows(t, i, w + rest) && IsGap(w) && (rest != "" ==> rest[0] !in " \t")
    ensures BlankEnd(t, i) == i + |w| <= |t| && Follows(t, i + |w|, rest)
    decreases |w|
  {
    FollowsOn(t, i, w, rest);
    if w == "" {
      assert w + rest == rest;
      if rest != "" {
        assert t[i] == t[i..][0];
      }
    } else {
      assert w + rest == [w[0]] + (w[1..] + rest);
      FollowsOn(t, i, [w[0]], w[1..] + rest);
      GapRuns(t, i + 1, w[1..], rest);
    }
  }

  lemma {:induction false} WordsRead(t: string, i: nat, ps: seq<Parameter>, tail: string, rest: string)
    requires Follows(t, i, LineEnds(ps, tail, rest)) && EndsWords(tail, rest) && forall k :: 0 <= k < |ps| ==> ParameterOk(ps[k])
    ensures ParamsAt(t, i) == Words(ps) && ParamsEnd(t, i) == i + |Spelled(ps)| + |tail|
    decreases |ps|
  {
    hide WordEnd, BlankEnd, Follows, EndsWords, ParameterOk;
    if ps == [] {
      assert LineEnds(ps, tail, rest) == tail + rest;
      NoWords(t, i, tail, rest);
    } else {
      var next := LineEnds(ps[1..], tail, rest);
      assert LineEnds(ps, tail, rest) == ps[0].gap + (ps[0].word + next);
      SpelledEnds(ps[1..], tail, rest);
      OneWord(t, i, ps[0], next);
      WordsRead(t, i + |ps[0].gap| + |ps[0].word|, ps[1..], tail, rest);
    }
  }

  lemma NoWords(t: string, i: nat, tail: string, rest: string)
    requires Follows(t, i, tail + rest) && EndsWords(tail, rest)
    ensures ParamsAt(t, i) == [] && ParamsEnd(t, i) == i + |tail|
  {
    GapRuns(t, i, tail, rest);
    if rest != "" {
      assert t[i + |tail|] == t[i + |tail|..][0];
    }
  }

  lemma OneWord(t: string, i: nat, p: Parameter, next: string)
    requires Follows(t, i, p.gap + (p.word + next)) && ParameterOk(p) && (next == "" || next[0] in " \t\n\r")
    ensures var j := i + |p.gap| + |p.word|;
            && j <= |t| && Follows(t, j, next)
            && ParamsAt(t, i) == [p.word] + ParamsAt(t, j) && ParamsEnd(t, i) == ParamsEnd(t, j)
  {
    hide WordEnd, BlankEnd, Follows, IsGap, IsWordText;
    WordFirst(p, next);
    GapRuns(t, i, p.gap, p.word + next);
    WordRuns(t, i + |p.gap|, p.word, next);
    assert t[i + |p.gap|] == t[i + |p.gap|..i + |p.gap| + |p.word|][0];
  }

  lemma WordFirst(p: Parameter, next: string)
    requires ParameterOk(p)
    ensures p.word + next != "" && (p.word + next)[0] == p.word[0] && p.word[0] !in " \t\n\r#"
  {
  }

  lemma SpelledEnds(ps: seq<Parameter>, tail: string, rest: string)
    requires EndsWords(tail, rest) && forall k :: 0 <= k < |ps| ==> ParameterOk(ps[k])
    ensures var next := LineEnds(ps, tail, rest); next == "" || next[0] in " \t\n\r"
  {
    if ps != [] {
      assert ps[0].gap[0] in " \t";
    }
  }

  lemma DirectiveIs(t: string, m: Mark, name: string, ps: seq<Parameter>, tail: string, rest: string)
    requires Follows(t, m.pos, "%" + (name + LineEnds(ps, tail, rest)))
    requires IsWordText(name) && EndsWords(tail, rest) && forall k :: 0 <= k < |ps| ==> ParameterOk(ps[k])
    ensures m.pos < |t| && t[m.pos] == '%' && DirectiveAt(t, m.pos + 1) == Item(DIRECTIVE, VALID, name, VERBATIM, Words(ps))
    ensures ParamsEnd(t, WordEnd(t, m.pos + 1)) == m.pos + 1 + |name| + |Spelled(ps)| + |tail|
  {
    hide Spelled, LineEnds, WordEnd, ParamsAt, ParamsEnd, ParameterOk, EndsWords, Follows, IsWordText;
    SpelledEnds(ps, tail, rest);
    NameIs(t, m.pos, name, LineEnds(ps, tail, rest));
    WordsRead(t, m.pos + 1 + |name|, ps, tail, rest);
  }

  lemma NameIs(t: string, i: nat, name: string, behind: string)
    requires Follows(t, i, "%" + (name + behind)) && IsWordText(name) && (behind == "" || behind[0] in " \t\n\r")
    ensures i < |t| && t[i] == '%' && WordEnd(t, i + 1) == i + 1 + |name| <= |t|
    ensures t[i + 1..i + 1 + |name|] == name && Follows(t, i + 1 + |name|, behind)
  {
    FollowsOn(t, i, "%", name + behind);
    WordRuns(t, i + 1, name, behind);
  }

  /** At the beginning of a line, the name and the words behind it; a comment is none of them. */
  lemma DirectiveToken(t: string, p: Place, name: string, ps: seq<Parameter>, tail: string, rest: string)
    requires CanScan(p) && Front(t, p).mark.column == 0
    requires Follows(t, Front(t, p).mark.pos, "%" + (name + LineEnds(ps, tail, rest)))
    requires IsWordText(name) && EndsWords(tail, rest) && forall k :: 0 <= k < |ps| ==> ParameterOk(ps[k])
    ensures Reads(t, p, Item(DIRECTIVE, VALID, name, VERBATIM, Words(ps)), Front(t, p).mark.pos + 1 + |name| + |Spelled(ps)| + |tail|)
  {
    hide Sound, Front, PopAllIndents, PointersOk, Spelled, LineEnds, WordEnd, ParamsAt, ParamsEnd, Follows, DirectiveAt, EndsWords,
         ParameterOk, Words;
    var m := Front(t, p).mark;
    DirectiveIs(t, m, name, ps, tail, rest);
    var token := DirectiveAt(t, m.pos + 1);
    IsCalled(t, p, Marker(token), AfterMany(t, m, ParamsEnd(t, WordEnd(t, m.pos + 1)) - m.pos), token);
  }

  // Quoted scalars

  /** Any layout of a quoted scalar is one token with the value its lines stand for, but for line feeds at its end. */
  lemma QuotedToken(t: string, p: Place, q: Quote, first: seq<Piece>, folds: seq<FlowFolding.Fold>, brk: string, end: string) returns (value: string)
    requires CanScan(p)
    requires Follows(t, Front(t, p).mark.pos, [QuoteChar(q)] + (Spelling(first) + (LayOut(folds, brk) + end))) && IsBreakText(brk)
    requires ClosesText(end, q) && PiecesOk(first, q) && EndsInk(first) && FoldsOk(folds, q, brk, end)
    ensures Reads(t, p, Item(NON_PLAIN_SCALAR, VALID, value), Front(t, p).mark.pos + 2 + |Spelling(first)| + |LayOut(folds, brk)|)
    ensures var whole, mark := Meaning(first) + Unfolded(folds), LastEscapeIn(LastEscape(-1, 0, first), |Meaning(first)|, folds);
            value <= whole && (value == whole <==> KeepsItsEnd(whole, mark))
  {
    hide Sound, Front, QuotedAt, PiecesOk, FoldsOk, Spelling, LayOut, Meaning, Unfolded, LastEscapeIn, LastEscape, Follows,
         KeepsItsEnd, Reads, EndsInk, ClosesText,
         IsBreakText;
    var m := Front(t, p).mark;
    FoldedScalar(t, m, q, first, folds, brk, end);
    QuoteIsHere(t, m.pos, q, Spelling(first) + (LayOut(folds, brk) + end));
    value := QuotedIsCalled(t, p);
  }

  lemma QuoteIsHere(t: string, i: nat, q: Quote, rest: string)
    requires Follows(t, i, [QuoteChar(q)] + rest)
    ensures i < |t| && t[i] in "'\""
  {
    FollowsOn(t, i, [QuoteChar(q)], rest);
  }

  lemma QuotedIsCalled(t: string, p: Place) returns (value: string)
    requires CanScan(p) && Front(t, p).mark.pos < |t| && t[Front(t, p).mark.pos] in "'\"" && QuotedAt(t, Front(t, p).mark).ScalarEnds?
    ensures var r := QuotedAt(t, Front(t, p).mark);
            value == r.value && Reads(t, p, Item(NON_PLAIN_SCALAR, VALID, value), r.mark.pos)
  {
    hide Sound, Front, InsertPotentialSimpleKey, PointersOk, QuotedAt, BranchAt;
    var front := Front(t, p);
    QuoteBranch(t, front.mark, InFlow(front.scan), front.scan.canBeJSONFlow);
    var r := QuotedAt(t, front.mark);
    value := r.value;
    IsCalled(t, p, Quoted(value), r.mark, Item(NON_PLAIN_SCALAR, VALID, value));
  }

  lemma QuoteBranch(t: string, m: Mark, inFlow: bool, canBeJSONFlow: bool)
    requires m.pos < |t| && t[m.pos] in "'\""
    ensures BranchAt(t, m, inFlow, canBeJSONFlow) == AtQuoted
  {
  }

  // Block scalars

  /** Behind the indicator of a block scalar: chomping and indentation in either order, blanks, and a comment. */
  datatype BlockHeader = BlockHeader(sign: string, digit: string, signFirst: bool, blanks: string, comment: string)

  predicate SignOk(sign: string) {
    sign == "" || sign == "+" || sign == "-"
  }

  predicate DigitOk(digit: string) {
    digit == "" || (|digit| == 1 && '0' <= digit[0] <= '9')
  }

  predicate CommentOk(comment: string) {
    comment == "" || (comment[0] == '#' && forall k :: 0 <= k < |comment| ==> comment[k] !in "\n\r")
  }

  function Indicators(h: BlockHeader): string {
    if h.signFirst then h.sign + h.digit else h.digit + h.sign
  }

  function HeaderText(h: BlockHeader): string {
    Indicators(h) + (h.blanks + h.comment)
  }

  /** What stands behind the header, a break if all is well, is none of its indicators, blanks or comment. */
  predicate HeaderOk(h: BlockHeader, rest: string) {
    && SignOk(h.sign) && DigitOk(h.digit) && IsGap(h.blanks) && CommentOk(h.comment)
    && (rest != "" && rest[0] !in "\n\r" ==>
          && h.comment == "" && rest[0] !in " \t#"
          && (h.blanks == "" ==> (h.digit == "" ==> !('0' <= rest[0] <= '9')) && (h.sign == "" ==> rest[0] !in "+-")))
  }

  function ChompingOf(sign: string): Chomping {
    if sign == "+" then KEEP else if sign == "-" then STRIP else CLIP
  }

  function IndentOf(digit: string): nat {
    if DigitOk(digit) && digit != "" then digit[0] as int - '0' as int else 1
  }

  lemma IndicatorsRead(t: string, i: nat, h: BlockHeader, rest: string, p: Params)
    requires HeaderOk(h, rest) && Follows(t, i, Indicators(h) + ((h.blanks + h.comment) + rest))
    requires p.chomp == CLIP && p.indent == 1 && p.detectIndent
    ensures Chomp(t, i) == |Indicators(h)| && Follows(t, i + |Indicators(h)|, (h.blanks + h.comment) + rest)
    ensures Indicated(p, t, i, |Indicators(h)|) ==
            if h.digit == "0" then BadHeader
            else Header(p.(chomp := ChompingOf(h.sign), indent := IndentOf(h.digit), detectIndent := h.digit == ""))
  {
    hide Indicated, Chomp;
    var w, behind := Indicators(h), (h.blanks + h.comment) + rest;
    NotIndicated(h, rest);
    CharactersAre(t, i, w, behind);
    IndicatedIs(t, i, h.sign, h.digit, h.signFirst, p);
  }

  lemma CharactersAre(t: string, i: nat, w: string, rest: string)
    requires Follows(t, i, w + rest) && |w| <= 2
    ensures i + |w| <= |t| && Follows(t, i + |w|, rest) && (|w| > 0 ==> At(t, i) == w[0]) && (|w| > 1 ==> At(t, i + 1) == w[1])
    ensures rest != "" ==> At(t, i + |w|) == rest[0]
    ensures rest == "" ==> At(t, i + |w|) == EOF
  {
    FollowsOn(t, i, w, rest);
    SameAhead(t, i, w, rest);
    assert |w| > 0 ==> t[i + 0] == w[0];
    assert |w| > 1 ==> t[i + 1] == w[1];
    assert rest != "" ==> t[i + |w|] == t[i + |w|..][0];
  }

  lemma IndicatedIs(t: string, i: nat, sign: string, digit: string, signFirst: bool, p: Params)
    requires SignOk(sign) && DigitOk(digit) && p.chomp == CLIP && p.indent == 1 && p.detectIndent
    requires var w := if signFirst then sign + digit else digit + sign;
             && (|w| > 0 ==> At(t, i) == w[0]) && (|w| > 1 ==> At(t, i + 1) == w[1])
             && (digit == "" ==> !IsDigit(At(t, i + |w|))) && (sign == "" ==> At(t, i + |w|) !in "+-")
    ensures Chomp(t, i) == |sign| + |digit|
    ensures Indicated(p, t, i, |sign| + |digit|) ==
            if digit == "0" then BadHeader
            else Header(p.(chomp := ChompingOf(sign), indent := IndentOf(digit), detectIndent := digit == ""))
  {
    var n := |sign| + |digit|;
    if n == 2 {
      var first, second := At(t, i), At(t, i + 1);
      assert first in "+-" <==> signFirst;
      if signFirst {
        assert sign == [first] && digit == [second];
      } else {
        assert digit == [first] && sign == [second];
      }
      LastIndicator(if first == '+' then p.(chomp := KEEP) else if first == '-' then p.(chomp := STRIP)
                    else if IsDigit(first) then p.(indent := first as int - '0' as int, detectIndent := false) else p, t, i + 1);
    } else if n == 1 {
      LastIndicator(p, t, i);
    }
  }

  lemma LastIndicator(p: Params, t: string, i: nat)
    ensures var c := At(t, i);
            Indicated(p, t, i, 1) ==
            if c == '0' then BadHeader
            else Header(if c == '+' then p.(chomp := KEEP) else if c == '-' then p.(chomp := STRIP)
                        else if IsDigit(c) then p.(indent := c as int - '0' as int, detectIndent := false) else p)
  {
  }

  lemma NotIndicated(h: BlockHeader, rest: string)
    requires HeaderOk(h, rest)
    ensures var behind := (h.blanks + h.comment) + rest;
            behind != "" ==> (h.digit == "" ==> !('0' <= behind[0] <= '9')) && (h.sign == "" ==> behind[0] !in "+-")
  {
  }

  lemma {:induction false} CommentRuns(t: string, m: Mark, w: string, rest: string)
    requires Follows(t, m.pos, w + rest) && forall k :: 0 <= k < |w| ==> w[k] !in "\n\r"
    requires rest != "" ==> rest[0] in "\n\r"
    ensures LineRest(t, m).pos == m.pos + |w|
    decreases |w|
  {
    FollowsOn(t, m.pos, w, rest);
    if w == "" {
      assert w + rest == rest;
      assert rest != "" ==> t[m.pos] == t[m.pos..][0];
    } else {
      assert w + rest == [w[0]] + (w[1..] + rest);
      FollowsOn(t, m.pos, [w[0]], w[1..] + rest);
      CommentRuns(t, After(t, m), w[1..], rest);
    }
  }

  /** The end of the blanks, and of the comment. */
  lemma LineEndIs(t: string, m: Mark, h: BlockHeader, rest: string)
    requires HeaderOk(h, rest) && Follows(t, m.pos, (h.blanks + h.comment) + rest)
    ensures BlankEnd(t, m.pos) == m.pos + |h.blanks| <= |t|
    ensures var x := At(t, m.pos + |h.blanks|);
            (m.pos + |h.blanks| == |t| <==> h.comment + rest == "") && (h.comment != "" <==> x == '#') &&
            (h.comment == "" && rest != "" ==> x == rest[0])
    ensures (rest == "" || rest[0] in "\n\r") ==> Comment(t, BlankMark(t, m)).pos == m.pos + |h.blanks| + |h.comment|
  {
    hide BlankMark, LineRest;
    var behind := h.comment + rest;
    assert (h.blanks + h.comment) + rest == h.blanks + behind;
    GapRuns(t, m.pos, h.blanks, behind);
    var i := m.pos + |h.blanks|;
    if behind != "" {
      assert t[i] == t[i..][0] == behind[0];
    }
    if h.comment != "" {
      CommentRuns(t, BlankMark(t, m), h.comment, rest);
    }
  }

  lemma HeaderIs(t: string, m: Mark, c: char, h: BlockHeader, rest: string)
    requires HeaderOk(h, rest) && c in "|>" && Follows(t, m.pos, [c] + (Indicators(h) + ((h.blanks + h.comment) + rest)))
    ensures m.pos < |t| && t[m.pos] == c
    ensures HeaderAt(t, m.pos) ==
            if h.digit == "0" || (rest != "" && rest[0] !in "\n\r") then BadHeader
            else Header(BlockParams(c == '>').(chomp := ChompingOf(h.sign), indent := IndentOf(h.digit), detectIndent := h.digit == ""))
    ensures rest == "" || rest[0] in "\n\r" ==> HeaderEnd(t, m).pos == m.pos + 1 + |Indicators(h)| + |h.blanks| + |h.comment|
  {
    hide Indicators, HeaderOk, Indicated, Chomp, Comment, BlankMark, BlankEnd, Follows;
    var behind := (h.blanks + h.comment) + rest;
    FollowsOn(t, m.pos, [c], Indicators(h) + behind);
    IndicatorsRead(t, m.pos + 1, h, rest, BlockParams(c == '>'));
    LineEndIs(t, AfterMany(t, After(t, m), |Indicators(h)|), h, rest);
    StopsHeader(h, rest);
  }

  lemma StopsHeader(h: BlockHeader, rest: string)
    requires HeaderOk(h, rest)
    ensures rest != "" && rest[0] !in "\n\r" ==> h.comment == "" && rest[0] != '#'
  {
  }

  /** How far the lines of a block scalar are indented: as its header says, counted from the block around it. */
  function BaseIndent(h: BlockHeader, top: int): int {
    IndentOf(h.digit) + if top >= 0 then top else 0
  }

  predicate BlockOk(h: BlockHeader, top: int, n: nat, lines: seq<LiteralScalars.BlockLine>, k: nat, rest: string) {
    var base := BaseIndent(h, top);
    && h.digit != "0" && (if h.digit == "" then base <= n else base == n) && LiteralScalars.LinesOk(lines, n, h.digit != "")
    && LiteralScalars.Ends(k, rest, if h.digit == "" && !LiteralScalars.HasText(lines) then base else n)
  }

  ghost function BlockScalarText(h: BlockHeader, lines: seq<LiteralScalars.BlockLine>, brk: string, k: nat, rest: string): string {
    Indicators(h) + ((h.blanks + h.comment) + (brk + LiteralScalars.Behind(lines, brk, k, rest)))
  }

  lemma BlockIs(t: string, m: Mark, top: int, c: char, h: BlockHeader, n: nat, lines: seq<LiteralScalars.BlockLine>, brk: string, k: nat,
                rest: string)
    requires HeaderOk(h, brk) && c in "|>" && LiteralScalars.IsLineFeed(brk) && BlockOk(h, top, n, lines, k, rest)
    requires Follows(t, m.pos, [c] + BlockScalarText(h, lines, brk, k, rest))
    ensures m.pos < |t| && t[m.pos] == c
    ensures var r := BlockAt(t, m, top);
            && r.ScalarEnds?
            && r.value == LiteralScalars.ChompedEnd(if c == '|' then LiteralScalars.Value(lines) else FoldedScalars.Folded(lines, false, false, 0),
                                                    ChompingOf(h.sign))
            && r.mark.pos == m.pos + 1 + |Indicators(h)| + |h.blanks| + |h.comment| + |brk| + |LiteralScalars.LayOutBlock(lines, brk)| + k
  {
    hide Indicators, Follows, HeaderAt, HeaderEnd, BlockAt, LiteralScalars.ChompedEnd, LiteralScalars.Value, FoldedScalars.Folded,
         LiteralScalars.Behind;
    hide LiteralScalars.LayOutBlock, LiteralScalars.LinesOk, LiteralScalars.HasText, LiteralScalars.Ends, HeaderOk, IndentOf, ChompingOf;
    var behind := brk + LiteralScalars.Behind(lines, brk, k, rest);
    HeaderOkBehind(h, brk, LiteralScalars.Behind(lines, brk, k, rest));
    HeaderIs(t, m, c, h, behind);
    HeaderStops(t, m, c, h, behind);
    if c == '|' {
      LiteralScalars.LiteralScalar(t, m, top, n, lines, brk, k, rest);
    } else {
      FoldedScalars.FoldedScalar(t, m, top, n, lines, brk, k, rest);
    }
  }

  lemma HeaderOkBehind(h: BlockHeader, brk: string, more: string)
    requires HeaderOk(h, brk) && LiteralScalars.IsLineFeed(brk)
    ensures HeaderOk(h, brk + more) && brk + more != "" && (brk + more)[0] in "\n\r"
  {
  }

  lemma HeaderStops(t: string, m: Mark, c: char, h: BlockHeader, rest: string)
    requires Follows(t, m.pos, [c] + (Indicators(h) + ((h.blanks + h.comment) + rest)))
    ensures Follows(t, m.pos + 1 + |Indicators(h)| + |h.blanks| + |h.comment|, rest)
  {
    hide Indicators;
    var w := Indicators(h);
    FollowsOn(t, m.pos, [c], w + ((h.blanks + h.comment) + rest));
    FollowsOn(t, m.pos + 1, w, (h.blanks + h.comment) + rest);
    FollowsOn(t, m.pos + 1 + |w|, h.blanks + h.comment, rest);
  }

  /** Outside a flow, a block scalar is one token with its lines, literal or folded, chomped as its header says. */
  lemma BlockToken(t: string, p: Place, c: char, h: BlockHeader, n: nat, lines: seq<LiteralScalars.BlockLine>, brk: string, k: nat, rest: string)
    requires CanScan(p) && c in "|>" && HeaderOk(h, brk) && LiteralScalars.IsLineFeed(brk)
    requires var front := Front(t, p);
             && front.scan.flows == [] && Follows(t, front.mark.pos, [c] + BlockScalarText(h, lines, brk, k, rest))
             && BlockOk(h, TopIndent(front.scan), n, lines, k, rest)
    ensures var value := if c == '|' then LiteralScalars.Value(lines) else FoldedScalars.Folded(lines, false, false, 0);
            Reads(t, p, Item(NON_PLAIN_SCALAR, VALID, LiteralScalars.ChompedEnd(value, ChompingOf(h.sign))),
                  Front(t, p).mark.pos + 1 + |Indicators(h)| + |h.blanks| + |h.comment| + |brk| + |LiteralScalars.LayOutBlock(lines, brk)| + k)
  {
    hide Sound, Front, PointersOk, BlockAt, HeaderOk, BlockOk, BlockScalarText, TopIndent, Indicators, ChompingOf, Follows, Reads;
    hide LiteralScalars.ChompedEnd, LiteralScalars.LayOutBlock, LiteralScalars.Value, FoldedScalars.Folded;
    var front := Front(t, p);
    BlockIs(t, front.mark, TopIndent(front.scan), c, h, n, lines, brk, k, rest);
    BlockIsCalled(t, p);
  }

  lemma BlockIsCalled(t: string, p: Place)
    requires CanScan(p) && Front(t, p).mark.pos < |t| && t[Front(t, p).mark.pos] in "|>" && Front(t, p).scan.flows == []
    requires BlockAt(t, Front(t, p).mark, TopIndent(Front(t, p).scan)).ScalarEnds?
    ensures var r := BlockAt(t, Front(t, p).mark, TopIndent(Front(t, p).scan));
            Reads(t, p, Item(NON_PLAIN_SCALAR, VALID, r.value), r.mark.pos)
  {
    hide Sound, Front, PointersOk, BlockAt, TopIndent;
    var front := Front(t, p);
    BlockBranch(t, front.mark, front.scan.canBeJSONFlow);
    hide BranchAt;
    var r := BlockAt(t, front.mark, TopIndent(front.scan));
    IsCalled(t, p, Literal(r.value), r.mark, Item(NON_PLAIN_SCALAR, VALID, r.value));
  }

  lemma BlockBranch(t: string, m: Mark, canBeJSONFlow: bool)
    requires m.pos < |t| && t[m.pos] in "|>"
    ensures BranchAt(t, m, false, canBeJSONFlow) == AtBlockScalar
  {
  }
}
