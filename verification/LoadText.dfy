/** YAML::Load on a text: the scanner's tokens, the directives in front of the document, and its graph. */
module TextLoading {
  import opened NodeBuilding
  import opened TreeBuilding
  import opened Tokens
  import opened Parsing
  import opened ParsingAhead
  import opened SingleDocParsing
  import ScannerState
  import ScannerText
  import Scanning
  import Loading
  import Transcoding

  // Directives (parser.cpp)

  /** White space as the C locale's streams skip it. */
  predicate IsSpace(c: char) {
    c == ' ' || 9 <= c as int <= 13
  }

  function SkipSpaces(s: string): string {
    if s != "" && IsSpace(s[0]) then SkipSpaces(s[1..]) else s
  }

  predicate IsDigit(c: char) {
    '0' <= c <= '9'
  }

  function DigitsEnd(s: string, i: nat): (j: nat)
    requires i <= |s|
    ensures i <= j <= |s| && forall k :: i <= k < j ==> IsDigit(s[k])
    decreases |s| - i
  {
    if i < |s| && IsDigit(s[i]) then DigitsEnd(s, i + 1) else i
  }

  function Number(digits: string): nat
    requires forall k :: 0 <= k < |digits| ==> IsDigit(digits[k])
  {
    if digits == "" then 0
    else
      var last := |digits| - 1;
      assert IsDigit(digits[last]);
      Number(digits[..last]) * 10 + (digits[last] as int - '0' as int)
  }

  datatype Extracted = NoInt | Extracted(value: int, rest: string)

  /** The extraction of an int from a stream: white space, a sign, digits; too large a number fails. */
  function ExtractInt(s: string): (r: Extracted)
    ensures r.Extracted? ==> -0x8000_0000 <= r.value < 0x8000_0000 && |r.rest| < |s|
  {
    var t := SkipSpaces(s);
    SkipShortens(s);
    var i := if t != "" && (t[0] == '+' || t[0] == '-') then 1 else 0;
    var j := DigitsEnd(t, i);
    var n: int := if i == 1 && t[0] == '-' then 0 - Number(t[i..j]) else Number(t[i..j]);
    if j == i || !(-0x8000_0000 <= n < 0x8000_0000) then NoInt else Extracted(n, t[j..])
  }

  lemma {:induction false} SkipShortens(s: string)
    ensures |SkipSpaces(s)| <= |s|
  {
    if s != "" && IsSpace(s[0]) {
      SkipShortens(s[1..]);
    }
  }

  /** Two numbers with any one character between them and nothing behind; the first is at most 1. */
  predicate VersionIsGood(s: string) {
    var major := ExtractInt(s);
    && major.Extracted? && major.rest != ""
    && var minor := ExtractInt(major.rest[1..]); minor.Extracted? && minor.rest == "" && major.value <= 1
  }

  /** A directive's token; its parameters are kept apart. */
  datatype Directed = DirectiveThrew | Directed(versioned: bool, tags: Directives)

  function HandleDirective(token: ScannerState.Item, versioned: bool, tags: Directives): Directed {
    if token.value == "YAML" then
      if |token.params| != 1 || versioned || !VersionIsGood(token.params[0]) then DirectiveThrew else Directed(true, tags)
    else if token.value == "TAG" then
      if |token.params| != 2 || token.params[0] in tags then DirectiveThrew
      else Directed(versioned, tags[token.params[0] := token.params[1]])
    else Directed(versioned, tags)
  }

  datatype Prologue = PrologueThrew | Prologue(tags: Directives, rest: seq<ScannerState.Item>)

  /** The directives in front of a document. */
  function PrologueOf(items: seq<ScannerState.Item>, versioned: bool, tags: Directives): Prologue {
    if items == [] || items[0].kind != DIRECTIVE then Prologue(tags, items)
    else
      match HandleDirective(items[0], versioned, tags)
      case DirectiveThrew => PrologueThrew
      case Directed(versioned', tags') => PrologueOf(items[1..], versioned', tags')
  }

  method ParseDirectives(items: seq<ScannerState.Item>) returns (ok: bool, tags: Directives, rest: seq<ScannerState.Item>)
    ensures PrologueOf(items, false, map[]) == if ok then Prologue(tags, rest) else PrologueThrew
  {
    hide HandleDirective;
    var versioned := false;
    tags, rest := map[], items;
    while rest != [] && rest[0].kind == DIRECTIVE
      invariant PrologueOf(rest, versioned, tags) == PrologueOf(items, false, map[])
    {
      var directed := HandleDirective(rest[0], versioned, tags);
      if directed.DirectiveThrew? {
        return false, tags, rest;
      }
      versioned, tags, rest := directed.versioned, directed.tags, rest[1..];
    }
    ok := true;
  }

  /** Every prefix is declared once, and no other tag directive speaks of its handle. */
  lemma {:induction false} PrologueTags(items: seq<ScannerState.Item>, versioned: bool, tags: Directives, handle: string)
    requires PrologueOf(items, versioned, tags).Prologue?
    ensures var r := PrologueOf(items, versioned, tags);
            && |r.rest| <= |items| && items[|items| - |r.rest|..] == r.rest
            && (handle in tags ==> handle in r.tags && r.tags[handle] == tags[handle])
            && (handle in r.tags && handle !in tags ==>
                  exists i :: 0 <= i < |items| - |r.rest| && items[i].value == "TAG" && items[i].params == [handle, r.tags[handle]])
  {
    if items != [] && items[0].kind == DIRECTIVE {
      hide VersionIsGood;
      var d := HandleDirective(items[0], versioned, tags);
      PrologueTags(items[1..], d.versioned, d.tags, handle);
      var r := PrologueOf(items, versioned, tags);
      if handle in r.tags && handle !in tags {
        if handle in d.tags {
          assert items[0].params == [handle, r.tags[handle]];
        } else {
          var i :| 0 <= i < |items[1..]| - |r.rest| && items[1..][i].value == "TAG" && items[1..][i].params == [handle, r.tags[handle]];
          assert items[i + 1] == items[1..][i];
        }
      }
    }
  }

  // The document

  /** A scanned token as the parser sees it. */
  function TokenOf(item: ScannerState.Item): Token {
    Token(item.kind, item.value, item.tag, if item.params != [] then item.params[0] else "")
  }

  function TokensOf(items: seq<ScannerState.Item>): seq<Token> {
    seq(|items|, i requires 0 <= i < |items| => TokenOf(items[i]))
  }

  method Convert(items: seq<ScannerState.Item>) returns (tokens: seq<Token>)
    ensures tokens == TokensOf(items)
  {
    tokens := [];
    for i := 0 to |items|
      invariant tokens == TokensOf(items)[..i]
    {
      tokens := tokens + [TokenOf(items[i])];
    }
  }

  /** The parser's state in front of a document's first node. */
  function Beginning(items: seq<ScannerState.Item>, tags: Directives): State {
    var st := State(TokensOf(items), tags, [], map[], 0, 0);
    if st.At(DOC_START) then st.Skip() else st
  }

  /**
   * What loading gives when the scanner hands out these items, and then throws or not: an error if a directive or
   * the parser throws, or if one of them asks for a token behind those there are and the scanner throws; nothing
   * without a document; and otherwise the graph that the tree parsed from the tokens means.
   */
  ghost predicate LoadsFrom(items: seq<ScannerState.Item>, threw: bool, ok: bool, memory: Memory, root: Pointer) {
    match PrologueOf(items, false, map[])
    case PrologueThrew => !ok
    case Prologue(tags, rest) =>
      if rest == [] then ok == !threw && (ok ==> root.Nil?)
      else
        match ParseNode(Beginning(rest, tags))
        case Thrown => !ok
        case Parsed(t, after) =>
          if threw && DropDocEnds(after.tokens) == [] then !ok
          else ok && memory == Build(t, 0, [Nil]).created && root == At(Build(t, 0, [Nil]).node)
  }

  ghost predicate Loads(text: string, ok: bool, memory: Memory, root: Pointer) {
    var scanned := ScannerText.TokensOf(text);
    LoadsFrom(scanned.items, scanned.threw, ok, memory, root)
  }

  /**
   * What stands behind a document and the token after it does not matter: neither other tokens nor whether the
   * scanner throws there.
   */
  lemma RestDoesNotMatter(items: seq<ScannerState.Item>, more: seq<ScannerState.Item>, threw: bool, memory: Memory, root: Pointer)
    requires LoadsFrom(items, true, true, memory, root)
    ensures LoadsFrom(items + more, threw, true, memory, root)
  {
    hide ParseNode, Build, PrologueOf;
    var prologue := PrologueOf(items, false, map[]);
    PrologueLooksAhead(items, false, map[], more);
    BeginsAlike(prologue.rest, prologue.tags, more);
    var st := Beginning(prologue.rest, prologue.tags);
    NodeLooksAhead(st, TokensOf(more));
    EndsAlike(ParseNode(st).rest.tokens, TokensOf(more));
  }

  lemma {:induction false} PrologueLooksAhead(items: seq<ScannerState.Item>, versioned: bool, tags: Directives, more: seq<ScannerState.Item>)
    requires var r := PrologueOf(items, versioned, tags); r.Prologue? && r.rest != []
    ensures var r := PrologueOf(items, versioned, tags); PrologueOf(items + more, versioned, tags) == Prologue(r.tags, r.rest + more)
  {
    hide HandleDirective;
    if items != [] && items[0].kind == DIRECTIVE {
      var d := HandleDirective(items[0], versioned, tags);
      PrologueLooksAhead(items[1..], d.versioned, d.tags, more);
      assert (items + more)[1..] == items[1..] + more;
    }
  }

  lemma BeginsAlike(items: seq<ScannerState.Item>, tags: Directives, more: seq<ScannerState.Item>)
    requires items != []
    ensures Beginning(items + more, tags) == More(Beginning(items, tags), TokensOf(more))
  {
    var st := State(TokensOf(items), tags, [], map[], 0, 0);
    assert TokensOf(items + more) == TokensOf(items) + TokensOf(more);
    SkipsAlike(st, TokensOf(more));
  }

  lemma {:induction false} EndsAlike(tokens: seq<Token>, more: seq<Token>)
    requires DropDocEnds(tokens) != []
    ensures DropDocEnds(tokens + more) == DropDocEnds(tokens) + more
  {
    if tokens[0].kindOf == DOC_END {
      assert (tokens + more)[1..] == tokens[1..] + more;
      EndsAlike(tokens[1..], more);
    }
  }

  /**
   * From characters to nodes, with the loops of the scanner, the parser and the builder. The scanner's error counts
   * only if it is met, that is, if nothing is left of the tokens handed out before it.
   */
  method Load(text: string) returns (ok: bool, memory: Memory, root: Pointer)
    ensures Loads(text, ok, memory, root)
  {
    hide ParseNode, Build, PrologueOf, ScannerText.TokensOf;
    memory, root := [], Nil;
    var items, tags, rest;
    var whole, left;
    whole, items := Scanning.ScanAll(text);
    ok, tags, rest := ParseDirectives(items);
    if !ok {
      return;
    }
    var tokens := Convert(rest);
    ok, memory, root, left := Loading.Load(tokens, tags);
    ok := ok && (whole || left != []);
  }

  /** From bytes in any of the five encodings. */
  method LoadInput(b: seq<Transcoding.byte>) returns (ok: bool, memory: Memory, root: Pointer)
    ensures var (charset, start) := Transcoding.Detected(b);
            start <= |b| && Loads(Transcoding.Transcoded(charset, b[start..]), ok, memory, root)
  {
    hide Loads, Transcoding.Detected, Transcoding.Transcoded;
    var text := Transcoding.Decode(b);
    ok, memory, root := Load(text);
  }
}
