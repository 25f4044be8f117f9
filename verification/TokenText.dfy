/** The tokens that stand at a position of the text: directives, names, tags and scalars. */
module TokenText {
  import opened Tokens
  import opened Streaming
  import opened ScannerState
  import opened QuotedScalars
  import opened ScalarReading
  import Exp

  function LineRest(t: string, m: Mark): (r: Mark)
    ensures r.pos >= m.pos
    decreases |t| - m.pos
  {
    if m.pos < |t| && !Exp.IsBreak(t[m.pos]) then LineRest(t, After(t, m)) else m
  }

  function Comment(t: string, m: Mark): (r: Mark)
    ensures r.pos >= m.pos
  {
    if Exp.At(t, m.pos) == '#' then LineRest(t, m) else m
  }

  function TopIndent(s: Scan): int {
    if s.indents == [] || s.indents[|s.indents| - 1] >= |s.refs| then 0 else s.refs[s.indents[|s.indents| - 1]].column
  }

  function PlainParams(inFlow: bool, topIndent: int): Params {
    Params(if inFlow then PlainEndInFlow else PlainEnd, false, if inFlow then 0 else topIndent + 1, false, true, '\0', FOLD_FLOW,
           true, STRIP, BREAK, THROW)
  }

  function QuotedParams(q: Quote): Params {
    Params(QuoteEnd(q), true, 0, false, true, EscapeChar(q), FOLD_FLOW, false, CLIP, THROW, Reaction.NONE)
  }

  /** The quoted scalar whose quote is at m. */
  function QuotedAt(t: string, m: Mark): (r: ScalarScan)
    ensures r.ScalarEnds? ==> r.mark.pos > m.pos
  {
    ReadScalar(t, After(t, m), QuotedParams(if Exp.At(t, m.pos) == '\'' then Single else Double))
  }

  /** Where a run of characters that are neither blank nor break ends. */
  function WordEnd(t: string, i: nat): (j: nat)
    ensures i <= j && (i <= |t| ==> j <= |t|)
    decreases |t| - i
  {
    if i < |t| && !Exp.IsBlankOrBreak(t[i]) then WordEnd(t, i + 1) else i
  }

  function AnchorRun(t: string, i: nat): (j: nat)
    ensures i <= j && (i <= |t| ==> j <= |t|)
    decreases |t| - i
  {
    if i < |t| && Exp.Anchor(t, i) then AnchorRun(t, i + 1) else i
  }

  predicate EndsAnchor(t: string, i: nat) {
    i >= |t| || Exp.AnchorEnd(t, i)
  }

  function BlankEnd(t: string, i: nat): (j: nat)
    ensures i <= j && (i <= |t| ==> j <= |t|) && (j < |t| ==> !Exp.IsBlank(t[j]))
    decreases |t| - i
  {
    if i < |t| && Exp.IsBlank(t[i]) then BlankEnd(t, i + 1) else i
  }

  /** The parameters of a directive: words up to the end of the line or a comment. */
  function ParamsAt(t: string, i: nat): seq<string>
    decreases |t| - i
  {
    var j := BlankEnd(t, i);
    if j >= |t| || Exp.IsBreak(t[j]) || t[j] == '#' then []
    else
      var k := WordEnd(t, j);
      [t[j..k]] + ParamsAt(t, k)
  }

  function ParamsEnd(t: string, i: nat): (j: nat)
    ensures i <= j
    decreases |t| - i
  {
    var j := BlankEnd(t, i);
    if j >= |t| || Exp.IsBreak(t[j]) || t[j] == '#' then j else ParamsEnd(t, WordEnd(t, j))
  }

  function DirectiveAt(t: string, i: nat): Item {
    var j := WordEnd(t, i);
    Item(DIRECTIVE, VALID, if i <= |t| then t[i..j] else "", VERBATIM, ParamsAt(t, j))
  }

  /** What follows a tag's indicator: its token, and where it ends. */
  datatype TagText = BadTag | TagText(token: Item, end: nat)

  /** The kind of a tag without a suffix behind its handle. */
  function HandleKind(value: string, canBeHandle: bool): TagKind {
    if value != "" then PRIMARY_HANDLE else if canBeHandle then SECONDARY_HANDLE else NON_SPECIFIC
  }

  /** Where a verbatim tag closes, -1 when a character that is none of a URI comes first. */
  function VerbatimEnd(t: string, i: nat): (j: int)
    ensures j == -1 || i <= j < |t|
    decreases |t| - i
  {
    if i >= |t| then -1
    else if t[i] == '>' then i
    else if Exp.URI(t, i) == 0 then -1
    else VerbatimEnd(t, i + Exp.URI(t, i))
  }

  function TagRun(t: string, i: nat): (j: nat)
    ensures i <= j && (i <= |t| ==> j <= |t|)
    decreases |t| - i
  {
    if i < |t| && Exp.Tag(t, i) > 0 then TagRun(t, i + Exp.Tag(t, i)) else i
  }

  /** The end of a handle, or of the suffix of a primary one; only word characters can be a handle. */
  datatype Handle = BadHandle | Handle(end: nat, canBeHandle: bool)

  function HandleFrom(t: string, i: nat, canBeHandle: bool): (h: Handle)
    ensures h.Handle? ==> i <= h.end && (i <= |t| ==> h.end <= |t|)
    decreases |t| - i
  {
    if i >= |t| then Handle(i, canBeHandle)
    else if t[i] == '!' then if canBeHandle then Handle(i, true) else BadHandle
    else
      var word := canBeHandle && Exp.IsWord(t[i]);
      var n := if word then 1 else Exp.Tag(t, i);
      if n == 0 then Handle(i, word) else HandleFrom(t, i + n, word)
  }

  function TagAt(t: string, i: nat): TagText
    requires i <= |t|
  {
    if i < |t| && t[i] == '<' then
      var j := VerbatimEnd(t, i + 1);
      if j == -1 then BadTag else TagText(Item(TAG, VALID, t[i + 1..j], VERBATIM), j + 1)
    else
      var h := HandleFrom(t, i, true);
      if h.BadHandle? then BadTag
      else if h.canBeHandle && h.end < |t| && t[h.end] == '!' then
        var j := TagRun(t, h.end + 1);
        if j == h.end + 1 then BadTag else TagText(Item(TAG, VALID, t[i..h.end], NAMED_HANDLE, [t[h.end + 1..j]]), j)
      else TagText(Item(TAG, VALID, t[i..h.end], HandleKind(t[i..h.end], h.canBeHandle)), h.end)
  }

  lemma TagIsTag(t: string, i: nat)
    requires i <= |t| && TagAt(t, i).TagText?
    ensures TagAt(t, i).token.kind == TAG && TagAt(t, i).token.status == VALID
  {
  }

  datatype Header = BadHeader | Header(params: Params)

  /** n chomping and indentation indicators in turn; an indent of zero is an error. */
  function Indicated(p: Params, t: string, i: nat, n: nat): Header
    decreases n
  {
    if n == 0 then Header(p)
    else
      var c := Exp.At(t, i);
      if c == '0' then BadHeader
      else
        Indicated(if c == '+' then p.(chomp := KEEP)
                  else if c == '-' then p.(chomp := STRIP)
                  else if Exp.IsDigit(c) then p.(indent := c as int - '0' as int, detectIndent := false)
                  else p, t, i + 1, n - 1)
  }

  function BlockParams(folded: bool): Params {
    Params(Empty, false, 1, true, false, '\0', if folded then FOLD_BLOCK else DONT_FOLD, false, CLIP, Reaction.NONE, THROW)
  }

  /** The parameters a block scalar's header gives; nothing but blanks and a comment may follow on its line. */
  function HeaderAt(t: string, i: nat): Header {
    var n := Exp.Chomp(t, i + 1);
    var rest := BlankEnd(t, i + 1 + n);
    if rest < |t| && t[rest] != '#' && !Exp.IsBreak(t[rest]) then BadHeader
    else Indicated(BlockParams(Exp.At(t, i) == '>'), t, i + 1, n)
  }

  function BlankMark(t: string, m: Mark): (r: Mark)
    ensures r.pos == BlankEnd(t, m.pos)
    decreases |t| - m.pos
  {
    if m.pos < |t| && Exp.IsBlank(t[m.pos]) then BlankMark(t, After(t, m)) else m
  }

  /** The end of the line of a block scalar's indicator. */
  function HeaderEnd(t: string, m: Mark): (r: Mark)
    ensures r.pos > m.pos
  {
    Comment(t, BlankMark(t, AfterMany(t, After(t, m), Exp.Chomp(t, m.pos + 1))))
  }

  /** The block scalar whose indicator is at m, in a block at column `top`. */
  function BlockAt(t: string, m: Mark, top: int): (r: ScalarScan)
    ensures r.ScalarEnds? ==> r.mark.pos > m.pos
  {
    var h := HeaderAt(t, m.pos);
    if h.BadHeader? then ScalarThrows
    else ReadScalar(t, HeaderEnd(t, m), if top >= 0 then h.params.(indent := h.params.indent + top) else h.params)
  }
}
