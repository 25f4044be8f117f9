/** The token that stands at a place of the text, where it is a plain scalar. */
module PlainTokens {
  import opened Exp
  import opened Streaming
  import opened Tokens
  import opened ScannerState
  import opened ScannerSteps
  import opened ScannerInvariant
  import opened ScannerSound
  import opened ScalarReading
  import opened TokenText
  import opened ScannerBranches
  import opened PlainFolding
  import ScannerText

  /** Where the next token begins: behind the gap, and outside the blocks that end there. */
  ghost function Front(t: string, p: Place): (q: Place)
    requires Sound(p.scan) && p.scan.started && !p.scan.ended
    ensures CanAct(q.scan)
  {
    var gap := Gap(t, p);
    GapKeeps(t, p);
    SoundPointsInside(gap.scan);
    OutdentCanAct(gap.scan, gap.mark.column, Exp.BlockEntry(t, gap.mark.pos));
    Place(PopIndentToHere(gap.scan, gap.mark.column, Exp.BlockEntry(t, gap.mark.pos)), gap.mark)
  }

  /** Whether the scanner takes what begins here for a plain scalar. */
  predicate TakesPlain(t: string, p: Place) {
    p.mark.pos < |t| && BranchAt(t, p.mark, InFlow(p.scan), p.scan.canBeJSONFlow) == AtPlain
  }

  /** How far the lines behind the first have to be indented. */
  function Indentation(s: Scan): int {
    if InFlow(s) then 0 else TopIndent(s) + 1
  }

  lemma PlainBegins(t: string, p: Place)
    requires TakesPlain(t, p)
    ensures BeginsLine(t, p.mark, InFlow(p.scan))
  {
    var inFlow := InFlow(p.scan);
    ScannerText.PlainBranch(t, p.mark, inFlow, p.scan.canBeJSONFlow);
    NoValueInFlow(t, p.mark.pos, inFlow, p.scan.canBeJSONFlow);
    PlainDoesNotStop(t, p.mark, inFlow, TopIndent(p.scan), p.scan.canBeJSONFlow);
    EndsAre(t, p.mark.pos, inFlow);
    hide BranchAt, EndsPlain, ScalarReading.EndMatches, DocIndicator, IsValue;
  }

  /** Every plain scalar, in and out of a flow, on any number of lines. */
  lemma PlainToken(t: string, p: Place)
    requires Sound(p.scan) && p.scan.started && !p.scan.ended
    requires var front := Front(t, p);
             TakesPlain(t, front) &&
             NoNul(t, front.mark.pos, PlainFrom(t, front.mark.pos, front.mark.column, Indentation(front.scan), InFlow(front.scan)).end)
    ensures var front := Front(t, p);
            match PlainFrom(t, front.mark.pos, front.mark.column, Indentation(front.scan), InFlow(front.scan))
            case BadPlain(_) => TokenFrom(t, p).Throws?
            case PlainText(value, end, column, brokeOff) =>
              && TokenFrom(t, p).Leads?
              && var q := TokenFrom(t, p).place;
                 && q.mark.pos == end && q.mark.column == column && q.scan.all != [] && q.scan.all[|q.scan.all| - 1] == Item(PLAIN_SCALAR, VALID, value)
                 && q.scan.simpleKeyAllowed == brokeOff
  {
    hide Sound, PointersOk, Gap, PopIndentToHere, EndStream, BranchAt, PlainFrom, ReadScalar, EndsPlain, NoNul, DocIndicator,
         InsertPotentialSimpleKey, TopIndent;
    var front := Front(t, p);
    PlainBegins(t, front);
    PlainScalarReads(t, front.mark, InFlow(front.scan), TopIndent(front.scan));
  }

  /** One that ends on its line holds the text up to its end without trailing blanks. */
  lemma PlainTokenOnItsLine(t: string, p: Place, end: nat)
    requires Sound(p.scan) && p.scan.started && !p.scan.ended && TakesPlain(t, Front(t, p))
    requires var front := Front(t, p);
             && front.mark.pos <= end <= |t| && (end == |t| || EndsPlain(t, end, InFlow(front.scan)))
             && forall k :: front.mark.pos <= k < end ==>
                  !EndsPlain(t, k, InFlow(front.scan)) && t[k] != '\n' && t[k] != '\r' && t[k] != '\0'
    ensures var r := TokenFrom(t, p);
            && r.Leads? && r.place.mark.pos == end && r.place.scan.all != []
            && r.place.scan.all[|r.place.scan.all| - 1] == Item(PLAIN_SCALAR, VALID, Stripped(t[Front(t, p).mark.pos..end], " \t"))
  {
    hide Sound, PointersOk, Gap, PopIndentToHere, EndsPlain, BranchAt, TokenFrom, RunFrom, Stripped;
    var front := Front(t, p);
    EndOfLine(t, front.mark.pos, end, InFlow(front.scan));
    PlainToken(t, p);
  }

  lemma {:induction false} EndOfLine(t: string, i: nat, end: nat, inFlow: bool)
    requires i <= end <= |t| && (end == |t| || EndsPlain(t, end, inFlow) || t[end] == '\n' || t[end] == '\r')
    requires forall k :: i <= k < end ==> !EndsPlain(t, k, inFlow) && t[k] != '\n' && t[k] != '\r'
    ensures LineEnd(t, i, inFlow) == end
    decreases end - i
  {
    hide EndsPlain;
    if i < end {
      EndOfLine(t, i + 1, end, inFlow);
    }
  }
}
