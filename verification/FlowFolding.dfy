/**
 * Line folding in quoted scalars (section 6.5 of YAML 1.2): however a scalar is laid out on lines, a single line
 * break is read as a space and a run of k empty lines as k line feeds; a break behind a backslash is read as nothing.
 */
module FlowFolding {
  import opened Exp
  import opened Streaming
  import opened Escaping
  import opened QuotedScalars
  import opened ScannerState
  import opened ScalarReading
  import opened ScalarLines
  import opened TokenText

  /** A character of a line, or an escape sequence. */
  datatype Piece = Char(c: char) | Escape(text: string)

  function MeaningOf(p: Piece): string {
    match p
    case Char(c) => [c]
    case Escape(text) => if EscapeAt(text, 0).Escaped? then EscapeAt(text, 0).value else ""
  }

  function Meaning(w: seq<Piece>): string {
    if w == [] then "" else MeaningOf(w[0]) + Meaning(w[1..])
  }

  function SpellingOf(p: Piece): string {
    match p
    case Char(c) => [c]
    case Escape(text) => text
  }

  function Spelling(w: seq<Piece>): string {
    if w == [] then "" else SpellingOf(w[0]) + Spelling(w[1..])
  }

  predicate PieceOk(p: Piece, q: Quote) {
    match p
    case Char(c) => !IsBreak(c) && c != QuoteChar(q) && c != EscapeChar(q)
    case Escape(text) =>
      && text != "" && text[0] == EscapeChar(q) && EscapeAt(text, 0).Escaped? && EscapeAt(text, 0).next == |text|
      && (forall i :: 0 <= i < |text| ==> !IsBreak(text[i])) && (q.Single? ==> text == "''")
  }

  predicate PiecesOk(w: seq<Piece>, q: Quote) {
    forall i :: 0 <= i < |w| ==> PieceOk(w[i], q)
  }

  /**
   * Blanks at the end of a line, whether a backslash escapes its break, empty lines with blanks on them, and the next
   * line: its blanks and its body.
   */
  datatype Fold = Fold(trail: string, escaped: bool, empties: seq<string>, lead: string, body: seq<Piece>)

  predicate AllBlank(s: string) {
    forall i :: 0 <= i < |s| ==> IsBlank(s[i])
  }

  predicate IsInk(p: Piece) {
    p.Char? ==> !IsBlank(p.c)
  }

  predicate EndsInk(w: seq<Piece>) {
    w == [] || IsInk(w[|w| - 1])
  }

  function EmptyLines(empties: seq<string>, brk: string): string {
    if empties == [] then "" else empties[0] + brk + EmptyLines(empties[1..], brk)
  }

  /** A break, behind a backslash if it is escaped. */
  function BreakText(escaped: bool, brk: string): string {
    if escaped then "\\" + brk else brk
  }

  function FoldText(f: Fold, brk: string): string {
    f.trail + BreakText(f.escaped, brk) + (EmptyLines(f.empties, brk) + (f.lead + Spelling(f.body)))
  }

  /** The lines behind the first one. */
  function LayOut(folds: seq<Fold>, brk: string): string {
    if folds == [] then "" else FoldText(folds[0], brk) + LayOut(folds[1..], brk)
  }

  /** What k empty lines between two lines stand for; blanks in front of an escaped break are kept. */
  function Separator(f: Fold): string {
    (if f.escaped then f.trail else "") + RunAdds(|f.empties|, f.escaped)
  }

  /** The scalar the lines stand for. */
  function Unfolded(folds: seq<Fold>): string {
    if folds == [] then "" else Separator(folds[0]) + Meaning(folds[0].body) + Unfolded(folds[1..])
  }

  /** Behind n characters, where the last escape of a line ends; `mark` is where an earlier one did. */
  function LastEscape(mark: int, n: nat, w: seq<Piece>): int
    decreases |w|
  {
    if w == [] then mark
    else
      var n' := n + |MeaningOf(w[0])|;
      LastEscape(if w[0].Escape? then n' else mark, n', w[1..])
  }

  /** Behind n characters, where the last escape of the lines ends, escaped breaks included. */
  function LastEscapeIn(mark: int, n: nat, folds: seq<Fold>): int
    decreases |folds|
  {
    if folds == [] then mark
    else
      var f := folds[0];
      var before := n + |Separator(f)|;
      LastEscapeIn(LastEscape(if f.escaped then n + |f.trail| else mark, before, f.body), before + |Meaning(f.body)|, folds[1..])
  }

  predicate IsBreakText(brk: string) {
    brk == "\n" || brk == "\r" || brk == "\r\n"
  }

  /** A body that is no document marker at the beginning of its line. */
  ghost predicate BodyOk(f: Fold, q: Quote, last: bool, after: string) {
    && PiecesOk(f.body, q) && EndsInk(f.body) && (f.body != [] ==> f.body[0].Escape? || !IsBlank(f.body[0].c)) && (!last ==> f.body != [])
    && AllBlank(f.trail) && AllBlank(f.lead) && (forall i :: 0 <= i < |f.empties| ==> AllBlank(f.empties[i]))
    && (f.lead == "" ==> !DocIndicator(Spelling(f.body) + after, 0)) && (f.escaped ==> q.Double?)
  }

  /** Every line but the last has a body; `end` is what follows the scalar, its closing quote included. */
  ghost predicate FoldsOk(folds: seq<Fold>, q: Quote, brk: string, end: string) {
    if folds == [] then true
    else
      BodyOk(folds[0], q, |folds| == 1, LayOut(folds[1..], brk) + end) && FoldsOk(folds[1..], q, brk, end)
  }

  // Characters of a line

  predicate Follows(t: string, i: nat, w: string) {
    i <= |t| && t[i..] == w
  }

  lemma FollowsOn(t: string, i: nat, w: string, v: string)
    requires Follows(t, i, w + v)
    ensures Follows(t, i + |w|, v) && (w != "" ==> i < |t| && t[i] == w[0])
  {
    assert t[i + |w|..] == t[i..][|w|..];
    if w != "" {
      assert t[i] == t[i..][0];
    }
  }

  function Past(m: Mark, n: nat): Mark {
    Mark(m.pos + n, m.line, m.column + n)
  }

  function SpokenOne(s: Scalar, p: Piece): (r: Scalar)
    requires s.Ok()
    ensures r.Ok()
  {
    if p.Char? then AddChar(s, p.c) else AddEscaped(s, MeaningOf(p))
  }

  /** The scalar behind the pieces of a line. */
  function Spoken(s: Scalar, w: seq<Piece>): (r: Scalar)
    requires s.Ok()
    ensures r.Ok()
    decreases |w|
  {
    if w == [] then s else Spoken(SpokenOne(s, w[0]), w[1..])
  }

  lemma OneSpoken(s: Scalar, p: Piece)
    requires s.Ok()
    ensures var r := SpokenOne(s, p); var n := |s.text| + |MeaningOf(p)|;
            && r.text == s.text + MeaningOf(p) && r.lastEscapedChar == (if p.Escape? then n else s.lastEscapedChar)
            && (IsInk(p) ==> r.lastNonWhitespaceChar == n)
  {
    if p.Escape? {
      hide MeaningOf;
    }
  }

  lemma {:induction false} SpokenIs(s: Scalar, w: seq<Piece>)
    requires s.Ok()
    ensures var r := Spoken(s, w);
            && r.text == s.text + Meaning(w) && r.lastEscapedChar == LastEscape(s.lastEscapedChar, |s.text|, w)
            && (EndsInk(w) && (w != [] || s.lastNonWhitespaceChar == |s.text|) ==> r.lastNonWhitespaceChar == |r.text|)
    decreases |w|
  {
    hide MeaningOf, SpokenOne, IsInk;
    if w == [] {
      assert s.text + "" == s.text;
    } else {
      OneSpoken(s, w[0]);
      SpokenIs(SpokenOne(s, w[0]), w[1..]);
      assert s.text + MeaningOf(w[0]) + Meaning(w[1..]) == s.text + (MeaningOf(w[0]) + Meaning(w[1..]));
    }
  }

  function Pieces(w: string): seq<Piece> {
    if w == "" then [] else [Char(w[0])] + Pieces(w[1..])
  }

  lemma {:induction false} BlanksSpoken(s: Scalar, w: string, q: Quote)
    requires s.Ok() && AllBlank(w)
    ensures Spelling(Pieces(w)) == w && PiecesOk(Pieces(w), q)
    ensures Spoken(s, Pieces(w)) == Scalar(s.text + w, s.lastEscapedChar, s.lastNonWhitespaceChar)
    decreases |w|
  {
    if w == "" {
      assert s.text + "" == s.text;
    } else {
      BlanksSpoken(AddChar(s, w[0]), w[1..], q);
      assert s.text + [w[0]] + w[1..] == s.text + w;
    }
  }

  lemma NoEscapeHere(t: string, i: nat, p: Params)
    requires IsQuoted(p) && At(t, i) != EscapeChar(p.end.quote)
    ensures !(p.escape == '\\' && EscBreak(t, i))
  {
  }

  lemma OneChar(t: string, m: Mark, p: Params, s: Scalar, found: bool)
    requires IsQuoted(p) && s.Ok() && m.pos < |t| && PieceOk(Char(t[m.pos]), p.end.quote)
    requires m.column == 0 ==> !DocIndicator(t, m.pos)
    ensures LineFrom(t, m, p, s, found) == LineFrom(t, Past(m, 1), p, AddChar(s, t[m.pos]), true)
  {
    hide DocIndicator;
    NoEscapeHere(t, m.pos, p);
  }

  /** The characters behind i are those of w. */
  lemma SameAhead(t: string, i: nat, w: string, rest: string)
    requires Follows(t, i, w + rest)
    ensures i + |w| <= |t| && t[i..i + |w|] == w && forall k :: 0 <= k < |w| ==> t[i + k] == w[k]
  {
    assert t[i..][..|w|] == w;
    assert forall k :: 0 <= k < |w| ==> t[i..][k] == t[i + k];
  }

  lemma {:induction false} CharsAre(t: string, i: nat, n: nat)
    requires i + n <= |t|
    ensures Chars(t, i, n) == t[i..i + n]
  {
    if n > 0 {
      CharsAre(t, i, n - 1);
    }
  }

  lemma HexAhead(t: string, i: nat, w: string, n: nat)
    requires i + |w| <= |t| && t[i..i + |w|] == w && HexEscapeAt(w, 2, n).Escaped? && HexEscapeAt(w, 2, n).next == |w|
    ensures HexEscapeAt(t, i + 2, n) == Escaped(HexEscapeAt(w, 2, n).value, i + |w|)
  {
    hide HexValue;
    CharsAre(t, i + 2, n);
    CharsAre(w, 2, n);
    assert t[i + 2..i + 2 + n] == w[2..2 + n];
  }

  /** An escape sequence means the same wherever it stands. */
  lemma EscapeAhead(t: string, i: nat, w: string, rest: string)
    requires Follows(t, i, w + rest) && EscapeAt(w, 0).Escaped? && EscapeAt(w, 0).next == |w|
    ensures EscapeAt(t, i) == Escaped(EscapeAt(w, 0).value, i + |w|)
  {
    SameAhead(t, i, w, rest);
    assert t[i + 0] == w[0] && t[i + 1] == w[1];
    if w[0] != '\'' || w[1] != '\'' {
      if w[1] == 'x' {
        HexAhead(t, i, w, 2);
      } else if w[1] == 'u' {
        HexAhead(t, i, w, 4);
      } else if w[1] == 'U' {
        HexAhead(t, i, w, 8);
      }
    }
    hide HexEscapeAt;
  }

  lemma OneEscape(t: string, m: Mark, p: Params, s: Scalar, found: bool, w: string, rest: string)
    requires IsQuoted(p) && s.Ok() && Follows(t, m.pos, w + rest) && PieceOk(Escape(w), p.end.quote)
    requires m.column == 0 ==> !DocIndicator(t, m.pos)
    ensures LineFrom(t, m, p, s, found) == LineFrom(t, Past(m, |w|), p, SpokenOne(s, Escape(w)), true)
  {
    hide DocIndicator;
    EscapeAhead(t, m.pos, w, rest);
    SameAhead(t, m.pos, w, rest);
    assert t[m.pos + 0] == w[0] && t[m.pos + 1] == w[1];
    hide EscapeAt;
    EscapeStaysHere(t, m, w, rest);
  }

  lemma EscapeStaysHere(t: string, m: Mark, w: string, rest: string)
    requires Follows(t, m.pos, w + rest) && forall i :: 0 <= i < |w| ==> !IsBreak(w[i])
    ensures AfterMany(t, m, |w|) == Past(m, |w|)
  {
    SameAhead(t, m.pos, w, rest);
    CharsAre(t, m.pos, |w|);
    StaysOnLine(t, m, |w|);
  }

  lemma OnePiece(t: string, m: Mark, p: Params, s: Scalar, found: bool, piece: Piece, rest: string)
    requires IsQuoted(p) && s.Ok() && Follows(t, m.pos, SpellingOf(piece) + rest) && PieceOk(piece, p.end.quote)
    requires m.column == 0 ==> !DocIndicator(t, m.pos)
    ensures SpellingOf(piece) != "" && Follows(t, m.pos + |SpellingOf(piece)|, rest)
    ensures LineFrom(t, m, p, s, found) == LineFrom(t, Past(m, |SpellingOf(piece)|), p, SpokenOne(s, piece), true)
  {
    hide DocIndicator, LineFrom;
    FollowsOn(t, m.pos, SpellingOf(piece), rest);
    match piece
    case Char(c) => OneChar(t, m, p, s, found);
    case Escape(w) => OneEscape(t, m, p, s, found, w, rest);
  }

  /** The pieces of a line are added one by one. */
  lemma {:induction false} PiecesRead(t: string, m: Mark, p: Params, s: Scalar, found: bool, w: seq<Piece>, rest: string)
    requires IsQuoted(p) && s.Ok() && Follows(t, m.pos, Spelling(w) + rest) && PiecesOk(w, p.end.quote)
    requires w != [] && m.column == 0 ==> !DocIndicator(t, m.pos)
    ensures LineFrom(t, m, p, s, found) == LineFrom(t, Past(m, |Spelling(w)|), p, Spoken(s, w), found || w != [])
    ensures Follows(t, m.pos + |Spelling(w)|, rest)
    decreases |w|
  {
    hide DocIndicator, LineFrom, SpokenOne, PieceOk, SpellingOf;
    if w == [] {
      assert "" + rest == rest && Past(m, 0) == m;
    } else {
      var v := Spelling(w[1..]);
      assert Spelling(w) + rest == SpellingOf(w[0]) + (v + rest);
      OnePiece(t, m, p, s, found, w[0], v + rest);
      assert forall i :: 0 <= i < |w[1..]| ==> w[1..][i] == w[i + 1];
      PiecesRead(t, Past(m, |SpellingOf(w[0])|), p, SpokenOne(s, w[0]), true, w[1..], rest);
    }
  }

  // A line break

  lemma BreakIs(t: string, i: nat, brk: string, rest: string)
    requires IsBreakText(brk) && Follows(t, i, brk + rest) && (brk == "\r" ==> rest == "" || rest[0] != '\n')
    ensures IsBreak(At(t, i)) && Break(t, i) == |brk| && Follows(t, i + |brk|, rest)
  {
    FollowsOn(t, i, brk, rest);
    if |brk| == 2 {
      assert t[i + 1] == t[i..][1];
    } else if rest != "" {
      assert t[i + 1] == t[i + 1..][0];
    }
  }

  lemma {:induction false} BlanksAreEaten(t: string, m: Mark, p: Params, indent: int, w: string, rest: string)
    requires IsQuoted(p) && p.eatLeadingWhitespace && p.onTabInIndentation != THROW
    requires Follows(t, m.pos, w + rest) && AllBlank(w) && (rest == "" || !IsBlank(rest[0]))
    ensures BlanksEnd(t, m, p, indent) == SpacesEnd(Past(m, |w|))
    decreases |w|
  {
    if w == "" {
      assert w + rest == rest;
      if rest != "" {
        assert t[m.pos] == t[m.pos..][0];
      }
      assert Past(m, 0) == m;
    } else {
      var v := w[1..];
      assert w + rest == [w[0]] + (v + rest);
      FollowsOn(t, m.pos, [w[0]], v + rest);
      BlanksAreEaten(t, After(t, m), p, indent, v, rest);
    }
  }

  predicate IsFlow(p: Params) {
    IsQuoted(p) && p.eatLeadingWhitespace && p.onTabInIndentation != THROW && !p.detectIndent && p.indent == 0
  }

  lemma QuotedIsFlow(q: Quote)
    ensures IsFlow(QuotedParams(q))
  {
  }

  function Inked(s: Scalar): string
    requires s.Ok()
  {
    s.text[..s.lastNonWhitespaceChar]
  }

  /** One break, with blanks behind it and then something else. */
  lemma BreakFolds(t: string, m: Mark, p: Params, s: Scalar, f: Folding, found: bool, escaped: bool, brk: string, blanks: string, rest: string)
    returns (m2: Mark, f2: Folding)
    requires IsFlow(p) && s.Ok() && IsBreakText(brk) && Follows(t, m.pos, brk + (blanks + rest)) && AllBlank(blanks)
    requires rest != "" && !IsBlank(rest[0]) && (brk == "\r" ==> (blanks + rest)[0] != '\n')
    ensures IsBreak(At(t, m.pos)) && Follows(t, m2.pos, rest) && (m2.column == 0 ==> blanks == "")
    ensures f2.emptyLine == IsBreak(rest[0]) && m2.pos == m.pos + |brk| + |blanks|
    ensures var added := if IsBreak(rest[0]) then "\n" else if f.emptyLine || escaped then "" else " ";
            FoldAt(t, m, p, s, f, 0, found, true, escaped) ==
            FoldScanned(m2, Scalar(Inked(s) + added, s.lastEscapedChar, |Inked(s) + added|), f2, 0)
  {
    hide AfterMany, BlanksEnd, Break;
    BreakIs(t, m.pos, brk, blanks + rest);
    var m1 := AfterMany(t, m, |brk|);
    m2 := Past(m1, |blanks|);
    BlanksAreEaten(t, m1, p, 0, blanks, rest);
    FollowsOn(t, m1.pos, blanks, rest);
    assert t[m2.pos] == t[m2.pos..][0];
    f2 := Folding(IsBreak(rest[0]), false, f.newlines, f.startedMoreIndented);
  }

  /** What follows a line that ended with a break. */
  ghost function BehindBreak(t: string, m: Mark, p: Params, s: Scalar, f: Folding, found: bool, escaped: bool): Reading
    requires s.Ok() && IsBreak(At(t, m.pos))
  {
    var fold := FoldAt(t, m, p, s, f, 0, found, true, escaped);
    if fold.FoldThrew? then NoReading
    else if !fold.folding.emptyLine && fold.mark.column < fold.indent then Reading(fold.scalar, true, fold.mark)
    else ScalarFrom(t, fold.mark, p, fold.scalar.text, fold.scalar.lastEscapedChar, fold.folding, fold.indent, found, true)
  }

  /** A line that was scanned up to a break. */
  lemma LineBreaks(t: string, m: Mark, p: Params, s0: Scalar, f: Folding, found: bool, here: Mark, s: Scalar, foundHere: bool, escaped: bool)
    requires IsFlow(p) && m.pos < |t| && s0.Ok() && s.Ok() && here.pos < |t| && IsBreak(t[here.pos])
    requires LineAt(t, m, p, s0.text, s0.lastEscapedChar) == LineScanned(here, s, foundHere, escaped)
    ensures ScalarFrom(t, m, p, s0.text, s0.lastEscapedChar, f, 0, found, true) == BehindBreak(t, here, p, s, f, found || foundHere, escaped)
  {
    hide LineAt, FoldAt, DocIndicator;
  }

  lemma EmptyLineAt(t: string, m: Mark, p: Params, s: Scalar)
    requires IsFlow(p) && s.Ok() && s.lastNonWhitespaceChar == |s.text| && m.pos < |t| && IsBreak(t[m.pos])
    ensures LineAt(t, m, p, s.text, s.lastEscapedChar) == LineScanned(m, s, false, false)
  {
  }

  lemma {:induction false} NewlineInFront(n: nat)
    ensures "\n" + Newlines(n) == Newlines(n + 1)
  {
    if n > 0 {
      NewlineInFront(n - 1);
      assert "\n" + (Newlines(n - 1) + "\n") == "\n" + Newlines(n - 1) + "\n";
    }
  }

  /** What a run of empty lines adds; silent behind an empty line or an escaped break. */
  function RunAdds(k: nat, silent: bool): string {
    if k == 0 then if silent then "" else " " else Newlines(k)
  }

  lemma RunAddsMore(before: string, k: nat, silent: bool)
    ensures before + "\n" + RunAdds(k, true) == before + RunAdds(k + 1, silent)
  {
    NewlineInFront(k);
    assert before + "\n" + Newlines(k) == before + ("\n" + Newlines(k));
    assert before + "\n" + "" == before + "\n" && Newlines(1) == Newlines(0) + "\n" == "\n";
  }

  /** A break and the empty lines behind it, up to the next line's first character. */
  lemma {:induction false} EmptyRun(t: string, m: Mark, p: Params, s: Scalar, f: Folding, found: bool, escaped: bool, brk: string,
                                    empties: seq<string>, lead: string, rest: string) returns (m2: Mark, f2: Folding)
    requires IsFlow(p) && s.Ok() && IsBreakText(brk)
    requires Follows(t, m.pos, brk + (EmptyLines(empties, brk) + (lead + rest)))
    requires AllBlank(lead) && (forall i :: 0 <= i < |empties| ==> AllBlank(empties[i]))
    requires rest != "" && !IsBlank(rest[0]) && !IsBreak(rest[0])
    ensures m.pos < |t| && IsBreak(t[m.pos]) && Follows(t, m2.pos, rest) && (m2.column == 0 ==> lead == "") && !f2.emptyLine
    ensures m2.pos == m.pos + |brk| + |EmptyLines(empties, brk)| + |lead|
    ensures BehindBreak(t, m, p, s, f, found, escaped) ==
            ScalarFrom(t, m2, p, Inked(s) + RunAdds(|empties|, f.emptyLine || escaped), s.lastEscapedChar, f2, 0, found, true)
    decreases |empties|
  {
    hide FoldAt, ScalarFrom, LineAt;
    if empties == [] {
      assert "" + (lead + rest) == lead + rest;
      m2, f2 := BreakFolds(t, m, p, s, f, found, escaped, brk, lead, rest);
    } else {
      var more := brk + (EmptyLines(empties[1..], brk) + (lead + rest));
      EmptyLineFirst(empties, brk, lead + rest);
      var m1, f1 := BreakFolds(t, m, p, s, f, found, escaped, brk, empties[0], more);
      var text := Inked(s) + "\n";
      BreakLeads(brk, EmptyLines(empties[1..], brk) + (lead + rest));
      assert t[m1.pos] == t[m1.pos..][0];
      var s1 := Scalar(text, s.lastEscapedChar, |text|);
      EmptyLineAt(t, m1, p, s1);
      assert Inked(s1) == text;
      LineBreaks(t, m1, p, s1, f1, found, m1, s1, false, false);
      m2, f2 := EmptyRun(t, m1, p, s1, f1, found, false, brk, empties[1..], lead, rest);
      RunAddsMore(Inked(s), |empties| - 1, f.emptyLine || escaped);
      hide BehindBreak, Inked, RunAdds;
    }
  }

  lemma BreakLeads(brk: string, rest: string)
    requires IsBreakText(brk)
    ensures (brk + rest) != "" && IsBreak((brk + rest)[0]) && !IsBlank((brk + rest)[0])
  {
  }

  lemma EmptyLineFirst(empties: seq<string>, brk: string, rest: string)
    requires empties != [] && AllBlank(empties[0]) && IsBreakText(brk)
    ensures EmptyLines(empties, brk) + rest == empties[0] + (brk + (EmptyLines(empties[1..], brk) + rest))
    ensures brk == "\r" ==> (empties[0] + (brk + (EmptyLines(empties[1..], brk) + rest)))[0] != '\n'
    ensures |EmptyLines(empties, brk)| == |empties[0]| + |brk| + |EmptyLines(empties[1..], brk)|
  {
    var more := EmptyLines(empties[1..], brk);
    assert empties[0] + brk + more + rest == empties[0] + (brk + (more + rest));
  }

  // All lines

  predicate ClosesText(end: string, q: Quote) {
    end != "" && end[0] == QuoteChar(q) && (q.Single? && |end| > 1 ==> end[1] != '\'')
  }

  lemma ClosesHere(t: string, i: nat, q: Quote, end: string)
    requires Follows(t, i, end) && ClosesText(end, q)
    ensures i < |t| && Closes(t, i, q)
  {
    assert t[i] == t[i..][0];
    if |end| > 1 {
      assert t[i + 1] == t[i..][1];
    }
  }

  /** Whether the next characters look like a document marker depends on them alone. */
  lemma MarkerAhead(t: string, i: nat, w: string)
    requires Follows(t, i, w)
    ensures DocIndicator(t, i) <==> DocIndicator(w, 0)
  {
    forall k: nat
      ensures At(t, i + k) == At(w, k)
    {
      if k < |w| {
        assert t[i..][k] == t[i + k];
      }
    }
    assert At(t, i + 0) == At(w, 0) && At(t, i + 1) == At(w, 1) && At(t, i + 2) == At(w, 2) && At(t, i + 3) == At(w, 3);
  }

  /** The last line: up to the closing quote. */
  lemma LastLine(t: string, m: Mark, p: Params, s: Scalar, f: Folding, found: bool, w: seq<Piece>, end: string)
    requires IsFlow(p) && m.pos < |t| && Follows(t, m.pos, Spelling(w) + end) && ClosesText(end, p.end.quote) && PiecesOk(w, p.end.quote)
    requires s.Ok() && s.lastNonWhitespaceChar == |s.text| && (w != [] && m.column == 0 ==> !DocIndicator(t, m.pos))
    ensures var r := ScalarFrom(t, m, p, s.text, s.lastEscapedChar, f, 0, found, true);
            && r.Reading? && r.scalar == Spoken(s, w) && !r.leadingSpaces && r.mark == Past(m, |Spelling(w)| + 1)
  {
    hide DocIndicator, Closes, FoldAt, Spoken, Spelling;
    PiecesRead(t, m, p, s, false, w, end);
    ClosesHere(t, m.pos + |Spelling(w)|, p.end.quote, end);
  }

  /** What is left of a line in front of its break. */
  function Kept(s: Scalar, w: seq<Piece>, trail: string, escaped: bool): (r: Scalar)
    requires s.Ok()
    ensures r.Ok() && r.lastNonWhitespaceChar == |r.text|
  {
    var text := Spoken(s, w).text + if escaped then trail else "";
    Scalar(text, if escaped then |text| else Spoken(s, w).lastEscapedChar, |text|)
  }

  lemma EscapedBreakStops(t: string, m: Mark, p: Params, s: Scalar, found: bool, brk: string, rest: string)
    requires IsQuoted(p) && p.end.quote.Double? && s.Ok() && IsBreakText(brk) && Follows(t, m.pos, "\\" + brk + rest)
    requires m.column == 0 ==> !DocIndicator(t, m.pos)
    ensures LineFrom(t, m, p, s, found) == LineScanned(Past(m, 1), Scalar(s.text, |s.text|, |s.text|), true, true)
    ensures Follows(t, m.pos + 1, brk + rest)
  {
    hide DocIndicator;
    assert "\\" + brk + rest == "\\" + (brk + rest);
    FollowsOn(t, m.pos, "\\", brk + rest);
    assert t[m.pos + 1] == t[m.pos + 1..][0];
  }

  lemma PlainBreakStops(t: string, m: Mark, p: Params, s: Scalar, found: bool, brk: string, rest: string)
    requires IsQuoted(p) && s.Ok() && IsBreakText(brk) && Follows(t, m.pos, brk + rest)
    ensures LineFrom(t, m, p, s, found) == LineScanned(m, s, found, false)
  {
    assert t[m.pos] == t[m.pos..][0];
  }

  /** The pieces of a line and the blanks behind them. */
  lemma LineReads(t: string, m: Mark, p: Params, s: Scalar, w: seq<Piece>, trail: string, tail: string) returns (s': Scalar, found: bool)
    requires IsFlow(p) && Follows(t, m.pos, Spelling(w) + (trail + tail)) && PiecesOk(w, p.end.quote) && AllBlank(trail)
    requires s.Ok() && (m.column == 0 ==> w != [] && !DocIndicator(t, m.pos))
    ensures Follows(t, m.pos + |Spelling(w)| + |trail|, tail)
    ensures s' == Scalar(Spoken(s, w).text + trail, Spoken(s, w).lastEscapedChar, Spoken(s, w).lastNonWhitespaceChar) && s'.Ok()
    ensures LineFrom(t, m, p, s, false) == LineFrom(t, Past(m, |Spelling(w)| + |trail|), p, s', found)
    ensures m.column == 0 ==> |Spelling(w)| > 0
  {
    hide DocIndicator, Closes, Spelling, LineFrom, PieceOk, Spoken, AllBlank, Pieces;
    PiecesRead(t, m, p, s, false, w, trail + tail);
    var s1 := Spoken(s, w);
    SpellingIsNotEmpty(w, p.end.quote);
    BlanksSpoken(s1, trail, p.end.quote);
    PiecesRead(t, Past(m, |Spelling(w)|), p, s1, w != [], Pieces(trail), tail);
    s', found := Spoken(s1, Pieces(trail)), w != [] || Pieces(trail) != [];
  }

  /** A line that ends with blanks and a break. */
  lemma BrokenLine(t: string, m: Mark, p: Params, s: Scalar, f: Folding, found: bool, w: seq<Piece>, trail: string, escaped: bool,
                   brk: string, rest: string)
    returns (here: Mark, s': Scalar, foundHere: bool)
    requires IsFlow(p) && m.pos < |t| && Follows(t, m.pos, Spelling(w) + (trail + (BreakText(escaped, brk) + rest))) && IsBreakText(brk)
    requires PiecesOk(w, p.end.quote) && EndsInk(w) && AllBlank(trail) && (escaped ==> p.end.quote.Double?)
    requires s.Ok() && s.lastNonWhitespaceChar == |s.text| && (m.column == 0 ==> w != [] && !DocIndicator(t, m.pos))
    ensures s'.Ok() && here.pos == m.pos + |Spelling(w)| + |trail| + (if escaped then 1 else 0) < |t|
    ensures IsBreak(t[here.pos]) && Follows(t, here.pos, brk + rest)
    ensures LineAt(t, m, p, s.text, s.lastEscapedChar) == LineScanned(here, s', foundHere, escaped)
    ensures s'.lastEscapedChar == Kept(s, w, trail, escaped).lastEscapedChar && Inked(s') == Kept(s, w, trail, escaped).text
  {
    hide DocIndicator, Closes, Spelling, LineFrom, PiecesOk, Spoken, AllBlank, IsBreakText;
    var s1, foundNow := LineReads(t, m, p, s, w, trail, BreakText(escaped, brk) + rest);
    SpokenIs(s, w);
    hide EndsInk, LastEscape, Meaning;
    var m1 := Past(m, |Spelling(w)| + |trail|);
    if escaped {
      EscapedBreakStops(t, m1, p, s1, foundNow, brk, rest);
      here, s', foundHere := Past(m1, 1), Scalar(s1.text, |s1.text|, |s1.text|), true;
    } else {
      PlainBreakStops(t, m1, p, s1, foundNow, brk, rest);
      here, s', foundHere := m1, s1, foundNow;
    }
    BreakIsHere(t, here.pos, brk, rest);
  }

  lemma BreakIsHere(t: string, i: nat, brk: string, rest: string)
    requires Follows(t, i, brk + rest) && IsBreakText(brk)
    ensures i < |t| && IsBreak(t[i])
  {
    BreakLeads(brk, rest);
    assert t[i] == t[i..][0];
  }

  lemma SpellingIsNotEmpty(w: seq<Piece>, q: Quote)
    requires PiecesOk(w, q)
    ensures w != [] ==> Spelling(w) != ""
  {
    if w != [] {
      assert PieceOk(w[0], q) && SpellingOf(w[0]) != "";
    }
  }

  /** The scalar behind all lines. */
  function Whole(s: Scalar, w: seq<Piece>, folds: seq<Fold>): (r: Scalar)
    requires s.Ok()
    ensures r.Ok()
    decreases |folds|
  {
    if folds == [] then Spoken(s, w)
    else
      var kept := Kept(s, w, folds[0].trail, folds[0].escaped);
      var text := kept.text + RunAdds(|folds[0].empties|, folds[0].escaped);
      Whole(Scalar(text, kept.lastEscapedChar, |text|), folds[0].body, folds[1..])
  }

  lemma {:induction false} LinesRead(t: string, m: Mark, p: Params, s: Scalar, f: Folding, found: bool, w: seq<Piece>, folds: seq<Fold>,
                                     brk: string, end: string)
    requires IsFlow(p) && m.pos < |t| && Follows(t, m.pos, Spelling(w) + (LayOut(folds, brk) + end)) && IsBreakText(brk)
    requires ClosesText(end, p.end.quote) && FoldsOk(folds, p.end.quote, brk, end) && !f.emptyLine
    requires PiecesOk(w, p.end.quote) && EndsInk(w) && (m.column == 0 ==> (w != [] || folds == []) && !DocIndicator(t, m.pos))
    requires s.Ok() && s.lastNonWhitespaceChar == |s.text|
    ensures var r := ScalarFrom(t, m, p, s.text, s.lastEscapedChar, f, 0, found, true);
            && r.Reading? && r.scalar == Whole(s, w, folds) && !r.leadingSpaces
            && r.mark.pos == m.pos + |Spelling(w)| + |LayOut(folds, brk)| + 1
    decreases |folds|
  {
    hide DocIndicator, Closes, PiecesOk, ScalarFrom, LineAt, FoldAt, BehindBreak, EmptyLines, Inked, Newlines, Spelling;
    if folds == [] {
      assert "" + end == end;
      LastLine(t, m, p, s, f, found, w, end);
    } else {
      FoldsFirst(folds, p.end.quote, brk, end);
      hide FoldsOk, BodyOk, LayOut, AllBlank, EndsInk, RunAdds;
      var fold, others := folds[0], LayOut(folds[1..], brk) + end;
      var next := Spelling(fold.body) + others;
      LayOutFirst(folds, brk, end, Spelling(w));
      NextStarts(fold, p.end.quote, |folds| == 1, folds[1..], brk, end);
      var here, s', foundHere :=
        BrokenLine(t, m, p, s, f, found, w, fold.trail, fold.escaped, brk, EmptyLines(fold.empties, brk) + (fold.lead + next));
      LineBreaks(t, m, p, s, f, found, here, s', foundHere, fold.escaped);
      var m2, f2 := EmptyRun(t, here, p, s', f, found || foundHere, fold.escaped, brk, fold.empties, fold.lead, next);
      MarkerAhead(t, m2.pos, next);
      assert m2.pos < |t|;
      var kept := Kept(s, w, fold.trail, fold.escaped);
      var text := kept.text + RunAdds(|fold.empties|, fold.escaped);
      LinesRead(t, m2, p, Scalar(text, kept.lastEscapedChar, |text|), f2, found || foundHere, fold.body, folds[1..], brk, end);
    }
  }

  /** The scalar behind all lines holds what they stand for. */
  lemma {:induction false} WholeIs(s: Scalar, w: seq<Piece>, folds: seq<Fold>)
    requires s.Ok()
    ensures var r := Whole(s, w, folds);
            && r.text == s.text + (Meaning(w) + Unfolded(folds))
            && r.lastEscapedChar == LastEscapeIn(LastEscape(s.lastEscapedChar, |s.text|, w), |s.text| + |Meaning(w)|, folds)
    decreases |folds|
  {
    hide Spoken, Meaning, LastEscape, RunAdds;
    SpokenIs(s, w);
    if folds == [] {
      assert Meaning(w) + "" == Meaning(w);
    } else {
      var fold := folds[0];
      var kept := Kept(s, w, fold.trail, fold.escaped);
      var text := kept.text + RunAdds(|fold.empties|, fold.escaped);
      WholeIs(Scalar(text, kept.lastEscapedChar, |text|), fold.body, folds[1..]);
      assert text == s.text + Meaning(w) + Separator(fold);
      hide Separator;
      assert text + (Meaning(fold.body) + Unfolded(folds[1..])) ==
             s.text + (Meaning(w) + (Separator(fold) + Meaning(fold.body) + Unfolded(folds[1..])));
    }
  }

  lemma FoldsFirst(folds: seq<Fold>, q: Quote, brk: string, end: string)
    requires folds != [] && FoldsOk(folds, q, brk, end)
    ensures BodyOk(folds[0], q, |folds| == 1, LayOut(folds[1..], brk) + end) && FoldsOk(folds[1..], q, brk, end)
    ensures |folds| == 1 ==> folds[1..] == []
  {
    hide BodyOk, LayOut;
  }

  lemma LayOutFirst(folds: seq<Fold>, brk: string, end: string, w: string)
    requires folds != []
    ensures var f := folds[0]; var next := Spelling(f.body) + (LayOut(folds[1..], brk) + end);
            && w + (LayOut(folds, brk) + end) ==
               w + (f.trail + (BreakText(f.escaped, brk) + (EmptyLines(f.empties, brk) + (f.lead + next))))
            && |BreakText(f.escaped, brk)| == |brk| + (if f.escaped then 1 else 0)
    ensures var f := folds[0];
            |LayOut(folds, brk)| ==
            |f.trail| + |BreakText(f.escaped, brk)| + |EmptyLines(f.empties, brk)| + |f.lead| + |Spelling(f.body)| + |LayOut(folds[1..], brk)|
  {
    var f, rest := folds[0], LayOut(folds[1..], brk);
    var e := EmptyLines(f.empties, brk);
    LayOutIs(folds, brk);
    hide EmptyLines, LayOut, Spelling;
    Nested(f.trail, BreakText(f.escaped, brk), e, f.lead, Spelling(f.body), rest, end);
  }

  lemma LayOutIs(folds: seq<Fold>, brk: string)
    requires folds != []
    ensures LayOut(folds, brk) == FoldText(folds[0], brk) + LayOut(folds[1..], brk)
  {
    hide FoldText;
  }

  lemma Nested(trail: string, brk: string, e: string, lead: string, body: string, rest: string, end: string)
    ensures trail + brk + (e + (lead + body)) + rest + end == trail + (brk + (e + (lead + (body + (rest + end)))))
  {
  }

  /** The next line starts with its body, or with the closing quote. */
  lemma NextStarts(f: Fold, q: Quote, last: bool, others: seq<Fold>, brk: string, end: string)
    requires BodyOk(f, q, last, LayOut(others, brk) + end) && ClosesText(end, q) && (last ==> others == [])
    ensures var next := Spelling(f.body) + (LayOut(others, brk) + end); next != "" && !IsBlank(next[0]) && !IsBreak(next[0])
    ensures AllBlank(f.trail) && AllBlank(f.lead) && PiecesOk(f.body, q) && EndsInk(f.body) && (f.escaped ==> q.Double?)
    ensures forall i :: 0 <= i < |f.empties| ==> AllBlank(f.empties[i])
    ensures f.lead == "" ==> !DocIndicator(Spelling(f.body) + (LayOut(others, brk) + end), 0)
    ensures f.body != [] || others == []
  {
    hide DocIndicator, AllBlank;
    if f.body == [] {
      assert LayOut(others, brk) + end == end;
      assert Spelling(f.body) + end == end;
    } else {
      assert PieceOk(f.body[0], q);
      FirstCharacter(f.body);
    }
  }

  lemma FirstCharacter(w: seq<Piece>)
    requires w != [] && SpellingOf(w[0]) != ""
    ensures Spelling(w) != "" && Spelling(w)[0] == SpellingOf(w[0])[0]
  {
  }

  /**
   * What a scalar keeps of the line feeds at its end: one behind any other character, and whatever stands not more
   * than two characters behind its last escape, which ends at `mark`.
   */
  predicate KeepsItsEnd(s: string, mark: int) {
    s == "" || s[|s| - 1] != '\n' || (|s| > 1 && s[|s| - 2] != '\n') || (mark >= 0 && |s| <= mark + 2)
  }

  lemma ClippedExactly(s: string, mark: int)
    requires -1 <= mark <= |s|
    ensures Chomped(s, mark, CLIP) == s <==> KeepsItsEnd(s, mark)
    ensures Chomped(s, mark, CLIP) <= s
  {
    var pos := LastNotOf(s, "\n");
    assert pos >= 0 ==> s[pos] != '\n';
    assert forall k :: pos < k < |s| ==> s[k] == '\n';
  }

  /**
   * However its lines are laid out, and whatever is escaped in it, a quoted scalar is read as what its lines stand
   * for, but for line feeds at its end: behind what is no line feed at most one is kept, and of a scalar of raw line
   * feeds alone none; an escape keeps two behind itself.
   */
  lemma FoldedScalar(t: string, m: Mark, q: Quote, first: seq<Piece>, folds: seq<Fold>, brk: string, end: string)
    requires Follows(t, m.pos, [QuoteChar(q)] + (Spelling(first) + (LayOut(folds, brk) + end))) && IsBreakText(brk)
    requires ClosesText(end, q) && PiecesOk(first, q) && EndsInk(first) && FoldsOk(folds, q, brk, end)
    ensures var r := QuotedAt(t, m);
            var whole, mark := Meaning(first) + Unfolded(folds), LastEscapeIn(LastEscape(-1, 0, first), |Meaning(first)|, folds);
            && r.ScalarEnds? && r.mark.pos == m.pos + 2 + |Spelling(first)| + |LayOut(folds, brk)|
            && r.value <= whole && (r.value == whole <==> KeepsItsEnd(whole, mark))
  {
    hide ScalarFrom, Chomped, LayOut, PiecesOk, FoldsOk, DocIndicator, KeepsItsEnd, Unfolded, Spelling, Meaning, Whole, LastEscape,
         LastEscapeIn;
    FollowsOn(t, m.pos, [QuoteChar(q)], Spelling(first) + (LayOut(folds, brk) + end));
    QuotedIsFlow(q);
    var p := QuotedParams(q);
    var inside := After(t, m);
    assert inside.column > 0 && inside.pos == m.pos + 1;
    assert Spelling(first) + (LayOut(folds, brk) + end) != "";
    var s := Scalar("", -1, 0);
    LinesRead(t, inside, p, s, Folding(false, false, 0, false), false, first, folds, brk, end);
    WholeIs(s, first, folds);
    var whole := Whole(s, first, folds);
    assert "" + (Meaning(first) + Unfolded(folds)) == Meaning(first) + Unfolded(folds);
    ClippedExactly(whole.text, whole.lastEscapedChar);
  }
}
