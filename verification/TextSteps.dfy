/** Single steps of a scan of printed text: a space, a break, a token. */
module TextSteps {
  import opened Exp
  import opened Streaming
  import opened Tokens
  import opened ScannerState
  import opened ScannerSteps
  import opened ScannerInvariant
  import opened ScannerSound
  import opened ScannerBranches
  import opened ScannerText
  import opened FlowFolding
  import opened TokenText

  predicate HasInk(t: string, i: nat) {
    i < |t| && t[i] !in " \t\n\r#"
  }

  /** No block ends here. */
  ghost predicate Idle(s: Scan, column: nat, atEntry: bool) {
    PointersOk(s) && PopIndentToHere(s, column, atEntry) == s
  }

  ghost predicate Live(s: Scan) {
    Sound(s) && CanAct(s)
  }

  lemma LivesOn(s: Scan)
    requires Sound(s) && !s.ended
    ensures Live(s)
  {
  }

  /** Scanning ends in the same state, or throws in both cases. */
  ghost predicate Alike(a: Remainder, b: Remainder) {
    a.threw == b.threw && (!a.threw ==> a == b)
  }

  lemma SameGap(t: string, p: Place, q: Place)
    requires Live(p.scan) && Live(q.scan) && Gap(t, p) == Gap(t, q)
    ensures Alike(ScanOn(t, p), ScanOn(t, q))
  {
    hide Sound, Gap, PointersOk, PopIndentToHere, EndStream, CalledFor, Obey;
    assert TokenFrom(t, p) == TokenFrom(t, q);
    hide TokenFrom;
  }

  lemma SpaceSkipped(t: string, p: Place)
    requires Live(p.scan) && p.mark.pos < |t| && t[p.mark.pos] == ' '
    ensures Alike(ScanOn(t, p), ScanOn(t, Place(p.scan, Past(p.mark, 1))))
  {
    hide Sound, ScanOn;
    var q := Place(p.scan, Past(p.mark, 1));
    assert Blanks(t, p) == Blanks(t, q);
    hide Blanks;
    assert Gap(t, p) == Gap(t, q);
    SameGap(t, p, q);
  }

  lemma BreakSkipped(t: string, p: Place)
    requires Live(p.scan) && p.mark.pos < |t| && t[p.mark.pos] == '\n'
    ensures PointersOk(p.scan) && Live(EatBreak(p.scan))
    ensures Alike(ScanOn(t, p), ScanOn(t, Place(EatBreak(p.scan), Mark(p.mark.pos + 1, p.mark.line + 1, 0))))
  {
    hide Sound, ScanOn, EatBreak;
    BreakSound(p.scan);
    BreakKeeps(p.scan);
    LivesOn(EatBreak(p.scan));
    var q := Place(EatBreak(p.scan), Mark(p.mark.pos + 1, p.mark.line + 1, 0));
    assert AfterMany(t, p.mark, 1) == After(t, AfterMany(t, p.mark, 0)) == q.mark;
    assert Gap(t, p) == Gap(t, q);
    SameGap(t, p, q);
  }

  /** Outside a flow, no key may begin behind a tab. */
  lemma TabSkipped(t: string, p: Place)
    requires Live(p.scan) && p.mark.pos < |t| && t[p.mark.pos] == '\t'
    ensures var s := if p.scan.flows == [] then p.scan.(simpleKeyAllowed := false) else p.scan;
            Live(s) && Alike(ScanOn(t, p), ScanOn(t, Place(s, Past(p.mark, 1))))
  {
    hide Sound, ScanOn;
    var s := if p.scan.flows == [] then p.scan.(simpleKeyAllowed := false) else p.scan;
    BreakSound(p.scan);
    LivesOn(s);
    var q := Place(s, Past(p.mark, 1));
    assert Blanks(t, p) == Blanks(t, q);
    hide Blanks;
    assert Gap(t, p) == Gap(t, q);
    SameGap(t, p, q);
  }

  /** A comment ends with its line. */
  lemma CommentSkipped(t: string, p: Place, end: nat)
    requires Live(p.scan) && p.mark.pos < end <= |t| && t[p.mark.pos] == '#'
    requires (forall k :: p.mark.pos <= k < end ==> t[k] !in "\n\r") && (end < |t| ==> t[end] in "\n\r")
    ensures Alike(ScanOn(t, p), ScanOn(t, Place(p.scan, Past(p.mark, end - p.mark.pos))))
  {
    hide Sound, ScanOn, LineRest;
    LineRestIs(t, p.mark, end);
    var q := Place(p.scan, Past(p.mark, end - p.mark.pos));
    assert Comment(t, p.mark) == q.mark;
    assert Comment(t, q.mark) == q.mark;
    assert Gap(t, p) == Gap(t, q);
    SameGap(t, p, q);
  }

  lemma {:induction false} LineRestIs(t: string, m: Mark, end: nat)
    requires m.pos <= end <= |t| && (forall k :: m.pos <= k < end ==> t[k] !in "\n\r") && (end < |t| ==> t[end] in "\n\r")
    ensures LineRest(t, m) == Past(m, end - m.pos)
    decreases end - m.pos
  {
    if m.pos < end {
      LineRestIs(t, After(t, m), end);
    }
  }

  /** A carriage return is a break, together with a line feed behind it. */
  lemma ReturnSkipped(t: string, p: Place)
    requires Live(p.scan) && p.mark.pos < |t| && t[p.mark.pos] == '\r'
    ensures PointersOk(p.scan) && Live(EatBreak(p.scan))
    ensures var pair := p.mark.pos + 1 < |t| && t[p.mark.pos + 1] == '\n';
            Alike(ScanOn(t, p), ScanOn(t, Place(EatBreak(p.scan), if pair then Mark(p.mark.pos + 2, p.mark.line + 1, 0) else Past(p.mark, 1))))
  {
    hide Sound, ScanOn, EatBreak;
    BreakSound(p.scan);
    BreakKeeps(p.scan);
    LivesOn(EatBreak(p.scan));
    var pair := p.mark.pos + 1 < |t| && t[p.mark.pos + 1] == '\n';
    var q := Place(EatBreak(p.scan), if pair then Mark(p.mark.pos + 2, p.mark.line + 1, 0) else Past(p.mark, 1));
    assert AfterMany(t, p.mark, 1) == After(t, AfterMany(t, p.mark, 0)) == Past(p.mark, 1);
    assert AfterMany(t, p.mark, 2) == After(t, AfterMany(t, p.mark, 1));
    assert Gap(t, p) == Gap(t, q);
    SameGap(t, p, q);
  }

  lemma NoGap(t: string, p: Place)
    requires Sound(p.scan) && HasInk(t, p.mark.pos)
    ensures Gap(t, p) == p
  {
  }

  /** The token at p. */
  lemma TokenHere(t: string, p: Place, a: Action, q: Place)
    requires Live(p.scan) && Scans(a) && HasInk(t, p.mark.pos) && Idle(p.scan, p.mark.column, Exp.BlockEntry(t, p.mark.pos))
    requires CalledFor(BranchAt(t, p.mark, InFlow(p.scan), p.scan.canBeJSONFlow), t, p.mark, p.scan) == Called(a, q.mark)
    requires Act(p.scan, a, p.mark) == Next(q.scan)
    ensures Sound(q.scan) && q.scan.started && ScanOn(t, p) == ScanOn(t, q)
  {
    hide Sound, PointersOk, CalledFor, BranchAt, Act, PopIndentToHere, Scans, Gap, Exp.BlockEntry;
    NoGap(t, p);
    assert TokenFrom(t, p) == Leads(q);
    TokenLeads(t, p);
    hide TokenFrom;
  }

  lemma TokenThrows(t: string, p: Place, a: Action, end: Mark)
    requires Live(p.scan) && Scans(a) && HasInk(t, p.mark.pos) && Idle(p.scan, p.mark.column, Exp.BlockEntry(t, p.mark.pos))
    requires CalledFor(BranchAt(t, p.mark, InFlow(p.scan), p.scan.canBeJSONFlow), t, p.mark, p.scan) == Called(a, end)
    requires Act(p.scan, a, p.mark).Threw?
    ensures ScanOn(t, p) == Remainder(p, true)
  {
    hide Sound, PointersOk, CalledFor, BranchAt, Act, PopIndentToHere, Scans, Gap, Exp.BlockEntry;
    NoGap(t, p);
    assert TokenFrom(t, p).Throws?;
    hide TokenFrom;
  }
}
