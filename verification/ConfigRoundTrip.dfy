/** Saving a configuration and reading it again; which keys and values survive. */
module ConfigRoundTrip {
  import opened ConfigText
  import opened ConfigFiles
  import Utf8

  const TRIPLE := "\"\"\""

  // What survives

  /** A value survives alone on the right of the sign. */
  predicate ValueSurvives(v: string) {
    if '`' in v then '"' in v else Trimmed(v) && !(ByteLength(v) >= 6 && HasPrefix(v, TRIPLE))
  }

  predicate NeedsQuotes(key: string) {
    '=' in key || ':' in key
  }

  /** A key survives in front of the sign; count is the number an automatic key would get. */
  predicate KeySurvives(key: string, count: nat) {
    if key == "" then false
    else if key[0] == '#' then key == "#" + Decimal(count)
    else if NeedsQuotes(key) then '`' in key && '"' in key ==> Index(key + TRIPLE, TRIPLE) == |key|
    else Trimmed(key) && key != "-" && key[0] !in ['"', '`', ';']
  }

  /** A whole entry survives: no line feed, and the line does not look like a section header. */
  predicate Survives(e: Entry, count: nat) {
    && KeySurvives(e.key, count) && ValueSurvives(e.value) && '\n' !in e.key && '\n' !in e.value
    && (e.key[0] == '[' && !NeedsQuotes(e.key) ==> e.value == "" || QuotedValue(e.value)[|QuotedValue(e.value)| - 1] != ']')
  }

  function NextCount(key: string, count: nat): nat {
    if key != "" && key[0] == '#' then count + 1 else count
  }

  predicate EntriesSurvive(entries: seq<Entry>, count: nat) {
    if entries == [] then true
    else if entries[0].key == KEEPER then EntriesSurvive(entries[1..], count)
    else Survives(entries[0], count) && EntriesSurvive(entries[1..], NextCount(entries[0].key, count))
  }

  function Kept(entries: seq<Entry>): seq<Entry> {
    if entries == [] then [] else (if entries[0].key == KEEPER then [] else [entries[0]]) + Kept(entries[1..])
  }

  predicate NameSurvives(name: string) {
    name != "" && Trimmed(name) && '\n' !in name
  }

  /** Written first in a file, such a key begins it with a byte order mark, which the reader drops. */
  predicate LosesMark(key: string) {
    HasPrefix(key, [BYTE_ORDER_MARK]) && !NeedsQuotes(key)
  }

  /** DEFAULT has no header: it must come first and hold a key, and that key must not lose a byte order mark. */
  predicate ConfigSurvives(c: Config) {
    && (forall i :: 0 <= i < |c| ==> NameSurvives(c[i].name) && EntriesSurvive(c[i].entries, 1))
    && (forall i :: 0 < i < |c| ==> c[i].name != DEFAULT_SECTION)
    && (c != [] && c[0].name == DEFAULT_SECTION ==> Kept(c[0].entries) != [] && !LosesMark(Kept(c[0].entries)[0].key))
  }

  /** What is read back: the same sections and entries, a keeper in front of every section but DEFAULT. */
  function ReadBack(s: Section): Section {
    Section(s.name, (if s.name == DEFAULT_SECTION then [] else [Entry(KEEPER, KEEPER)]) + Kept(s.entries))
  }

  function AllReadBack(c: Config): Config {
    if c == [] then [] else [ReadBack(c[0])] + AllReadBack(c[1..])
  }

  // Strings

  lemma {:induction false} TrimRightSame(s: string)
    requires s == "" || !IsSpace(s[|s| - 1])
    ensures TrimRight(s) == s
  {
  }

  lemma TrimSame(s: string)
    requires Trimmed(s)
    ensures TrimSpace(s) == s
  {
    TrimRightSame(s);
  }

  lemma TrimAfter(s: string, c: char)
    requires s != "" && !IsSpace(s[0]) && IsSpace(c) && !IsSpace(s[|s| - 1])
    ensures TrimSpace(s + [c]) == s
  {
    assert (s + [c])[..|s|] == s;
    TrimRightSame(s);
  }

  lemma TrimBefore(s: string, c: char)
    requires IsSpace(c) && Trimmed(s)
    ensures TrimSpace([c] + s) == s
  {
    assert ([c] + s)[1..] == s;
    TrimSame(s);
  }

  lemma {:induction false} NoSeparatorIn(a: string, b: string)
    requires '=' !in a && ':' !in a && IndexSeparator(b) != -1
    ensures IndexSeparator(a + b) == |a| + IndexSeparator(b)
  {
    if a == "" {
      assert a + b == b;
    } else {
      assert (a + b)[1..] == a[1..] + b;
      NoSeparatorIn(a[1..], b);
    }
  }

  lemma {:induction false} IndexOfChar(a: string, c: char, b: string)
    requires c !in a
    ensures Index(a + [c] + b, [c]) == |a|
    decreases |a|
  {
    if a == "" {
      assert a + [c] + b == [c] + b;
      assert ([c] + b)[..1] == [c];
    } else {
      assert (a + [c] + b)[1..] == a[1..] + [c] + b;
      assert (a + [c] + b)[..1] == [a[0]];
      IndexOfChar(a[1..], c, b);
    }
  }

  lemma {:induction false} NoCharNoIndex(a: string, c: char)
    requires c !in a
    ensures Index(a, [c]) == -1
    decreases |a|
  {
    if a != "" {
      assert a[..1] == [a[0]];
      NoCharNoIndex(a[1..], c);
    }
  }

  /** More text behind does not move the first occurrence. */
  lemma {:induction false} IndexStays(a: string, b: string, p: string)
    requires p != "" && Index(a, p) != -1
    ensures Index(a + b, p) == Index(a, p)
    decreases |a|
  {
    assert (a + b)[..|a|] == a;
    if HasPrefix(a, p) {
      assert (a + b)[..|p|] == a[..|p|];
    } else {
      var r := Index(a[1..], p);
      assert r + |p| <= |a[1..]|;
      assert (a + b)[..|p|] == a[..|p|];
      assert (a + b)[1..] == a[1..] + b;
      IndexStays(a[1..], b, p);
    }
  }

  lemma {:induction false} LastIndexAtEnd(v: string, p: string)
    requires p != ""
    ensures LastIndex(v + p, p) == |v|
    decreases |v|
  {
    if v == "" {
      assert v + p == p && p[..|p|] == p;
    } else {
      assert (v + p)[1..] == v[1..] + p;
      LastIndexAtEnd(v[1..], p);
    }
  }

  lemma {:induction false} BytesAtLeastLength(s: string)
    ensures ByteLength(s) >= |s|
  {
    if s != "" {
      BytesAtLeastLength(s[..|s| - 1]);
      Utf8.EncodeNotEmpty(s[|s| - 1] as int);
    }
  }

  // Values

  lemma QuotedValueReads(v: string)
    requires '`' in v && '"' in v
    ensures ReadValue(TRIPLE + v + TRIPLE) == Text(v)
  {
    var right := TRIPLE + v + TRIPLE;
    TrimSame(right);
    BytesAtLeastLength(right);
    assert right[3..] == v + TRIPLE && right[..3] == TRIPLE;
    LastIndexAtEnd(v, TRIPLE);
    assert right[3..|v| + 3] == v;
  }

  lemma RawValueReads(v: string)
    requires '`' !in v && Trimmed(v) && !(ByteLength(v) >= 6 && HasPrefix(v, TRIPLE))
    ensures ReadValue(v) == Text(v)
  {
    TrimSame(v);
  }

  /** A quoted value that lost its backticks' partner, or that only looks quoted, is read as something else. */
  lemma OtherValueDoesNotRead(v: string)
    requires Trimmed(v) && !ValueSurvives(v)
    ensures ReadValue(QuotedValue(v)) != Text(v)
  {
    var w := QuotedValue(v);
    if '`' in v {
      assert w == "\"" + v + "\"" && w[0] == '"' && w[|w| - 1] == '"' && w[1] == v[0];
      TrimSame(w);
      assert |w| >= 3 ==> w[..3][1] == w[1];
    } else {
      TrimSame(v);
    }
  }

  /** Exactly the values that survive are read back, whether or not a space follows the sign. */
  lemma ValueReadsBack(v: string, pretty: bool)
    requires Trimmed(v)
    ensures ReadValue((if pretty then " " else "") + QuotedValue(v)) == Text(v) <==> ValueSurvives(v)
  {
    var w := QuotedValue(v);
    assert Trimmed(w);
    SpaceBeforeValue(w, pretty);
    if ValueSurvives(v) {
      if '`' in v {
        QuotedValueReads(v);
      } else {
        RawValueReads(v);
      }
    } else {
      OtherValueDoesNotRead(v);
    }
  }

  lemma SpaceBeforeValue(w: string, pretty: bool)
    requires Trimmed(w)
    ensures ReadValue((if pretty then " " else "") + w) == ReadValue(w)
  {
    if pretty {
      TrimBefore(w, ' ');
      assert " " + w == [' '] + w;
      TrimSame(w);
    } else {
      assert "" + w == w;
    }
  }

  // Keys

  function Sign(pretty: bool): string {
    if pretty then " =" else "="
  }

  /** What is left of the sign's other side once the line is trimmed. */
  function ValuePart(v: string, pretty: bool): string {
    if v == "" then "" else (if pretty then " " else "") + QuotedValue(v)
  }

  lemma SurvivorIsTrimmed(v: string)
    requires ValueSurvives(v)
    ensures Trimmed(QuotedValue(v)) && (QuotedValue(v) == "" <==> v == "")
  {
    if '`' in v {
      assert QuotedValue(v)[|QuotedValue(v)| - 1] == '"';
    }
  }

  lemma EntryLineTrims(e: Entry, pretty: bool)
    requires e.key != "" && KeyName(e.key) != "" && !IsSpace(KeyName(e.key)[0]) && ValueSurvives(e.value)
    ensures TrimSpace(EntryLine(e, pretty)) == KeyName(e.key) + Sign(pretty) + ValuePart(e.value, pretty)
  {
    SurvivorIsTrimmed(e.value);
    var name, w := KeyName(e.key), QuotedValue(e.value);
    hide KeyName, QuotedValue, TrimSpace, ValueSurvives;
    LineTrims(name, w, pretty);
  }

  lemma LineTrims(name: string, w: string, pretty: bool)
    requires name != "" && !IsSpace(name[0]) && Trimmed(w)
    ensures TrimSpace(name + EqualSign(pretty) + w) ==
            name + Sign(pretty) + (if w == "" then "" else (if pretty then " " else "") + w)
  {
    hide TrimSpace;
    var line := name + EqualSign(pretty) + w;
    if w != "" {
      assert line[0] == name[0] && line[|line| - 1] == w[|w| - 1];
      TrimSame(line);
      assert line == name + Sign(pretty) + ((if pretty then " " else "") + w);
    } else {
      var short := name + Sign(pretty);
      assert short + "" == short && short[0] == name[0] && short[|short| - 1] == '=';
      if pretty {
        assert line == short + [' '];
        TrimAfter(short, ' ');
      } else {
        assert line == short;
        TrimSame(short);
      }
    }
  }

  lemma RestReads(v: string, pretty: bool)
    requires ValueSurvives(v)
    ensures ReadValue(ValuePart(v, pretty)) == Text(v)
  {
    SurvivorIsTrimmed(v);
    SpaceBeforeValue(QuotedValue(v), pretty);
    if '`' in v {
      QuotedValueReads(v);
    } else {
      RawValueReads(v);
    }
  }

  lemma SignIsFound(name: string, pretty: bool, rest: string)
    requires '=' !in name && ':' !in name
    ensures IndexSeparator(name + Sign(pretty) + rest) == |name| + |Sign(pretty)| - 1
    ensures (name + Sign(pretty) + rest)[|name| + |Sign(pretty)|..] == rest
  {
    var before := name + (if pretty then " " else "");
    assert name + Sign(pretty) + rest == before + ("=" + rest);
    NoSeparatorIn(before, "=" + rest);
  }

  lemma RawKeySplits(name: string, pretty: bool, rest: string)
    requires name != "" && Trimmed(name) && !NeedsQuotes(name) && name[0] != '"' && name[0] != '`'
    ensures SplitLine(name + Sign(pretty) + rest) == Split(name, rest)
  {
    var line := name + Sign(pretty) + rest;
    SignIsFound(name, pretty, rest);
    var i := |name| + |Sign(pretty)| - 1;
    if pretty {
      assert line[..i] == name + [' '];
      TrimAfter(name, ' ');
    } else {
      assert line[..i] == name;
      TrimSame(name);
    }
  }

  lemma SplitsTail(q: string, key: string, tail: string, i: nat, rest: string)
    requires Index(key + tail, q) == |key| && 0 < i < |tail| && IndexSeparator(tail) == i && tail[i + 1..] == rest
    ensures SplitQuoted(q, key + tail) == Split(key, rest)
  {
    hide Index, IndexSeparator;
    var line := key + tail;
    assert line[|key|..] == tail && line[..|key|] == key && line[|key| + i + 1..] == tail[i + 1..];
  }

  lemma Regroup(a: string, b: string, c: string, d: string)
    ensures a + b + (c + d) == a + (b + c + d) && a + b + a + (c + d) == a + (b + (a + c + d))
    ensures forall x: string :: (a + x)[|a|..] == x
  {
    assert a + b + a + (c + d) == a + (b + (a + c + d));
  }

  /** A key between quotes that do not occur in it. */
  lemma QuotedKeySplits(q: string, key: string, pretty: bool, rest: string)
    requires (q == "\"" || q == "`" || q == TRIPLE) && Index(key + q, q) == |key|
    requires KeyQuote(q + key + q + (Sign(pretty) + rest)) == q
    ensures SplitLine(q + key + q + (Sign(pretty) + rest)) == Split(key, rest)
  {
    SignIsFound(q, pretty, rest);
    var s := Sign(pretty);
    assert |s| > 0 && |q| > 0 && '=' !in q && ':' !in q;
    hide SplitQuoted, Index, KeyQuote, IndexSeparator, TrimSpace, Sign;
    SplitsOffQuote(q, key, s, rest);
  }

  lemma SplitsOffQuote(q: string, key: string, s: string, rest: string)
    requires |s| > 0 && |q| > 0 && Index(key + q, q) == |key| && KeyQuote(q + key + q + (s + rest)) == q
    requires IndexSeparator(q + s + rest) == |q| + |s| - 1 && (q + s + rest)[|q| + |s|..] == rest
    ensures SplitLine(q + key + q + (s + rest)) == Split(key, rest)
  {
    hide SplitQuoted, Index, KeyQuote, IndexSeparator, TrimSpace;
    var line, tail := q + key + q + (s + rest), q + s + rest;
    IndexStays(key + q, s + rest, q);
    Regroup(key, q, s, rest);
    assert key + q + (s + rest) == key + tail;
    SplitsTail(q, key, tail, |q| + |s| - 1, rest);
    Regroup(q, key, s, rest);
    assert line == q + (key + tail);
    assert line[|q|..] == key + tail;
  }

  lemma QuotesAreSeen(q: string, key: string, rest: string)
    requires key != "" && (q == "`" || (q == "\"" && '"' !in key) || q == TRIPLE)
    ensures KeyQuote(q + key + q + rest) == q
  {
    var line := q + key + q + rest;
    assert line[0] == q[0];
    BytesAtLeastLength(line);
    if q == TRIPLE {
      assert line[..3] == TRIPLE;
    } else if q == "\"" {
      assert line[1] == key[0];
      assert |line| >= 3 ==> line[..3][1] == line[1];
    }
  }

  /** The quotes the writer chooses do not end the key early. */
  lemma KeyQuotesClose(key: string)
    requires NeedsQuotes(key) && ('`' in key && '"' in key ==> Index(key + TRIPLE, TRIPLE) == |key|)
    ensures '`' !in key ==> Index(key + "`", "`") == |key|
    ensures '`' in key && '"' !in key ==> Index(key + "\"", "\"") == |key|
  {
    if '`' !in key {
      IndexOfChar(key, '`', "");
      assert key + ['`'] + "" == key + "`";
    } else if '"' !in key {
      IndexOfChar(key, '"', "");
      assert key + ['"'] + "" == key + "\"";
    }
  }

  lemma QuotedKeyNameIs(key: string)
    requires NeedsQuotes(key) && key[0] != '#'
    ensures var q := QuoteOf(key); KeyName(key) == q + key + q && !IsSpace(q[0])
  {
  }

  /** The quotes the writer chooses for a key. */
  function QuoteOf(key: string): (q: string)
    ensures q == "\"" || q == "`" || q == TRIPLE
  {
    if '`' in key then if '"' in key then TRIPLE else "\"" else "`"
  }

  lemma QuotedKeyNameSplits(key: string, pretty: bool, rest: string)
    requires NeedsQuotes(key) && key[0] != '#' && ('`' in key && '"' in key ==> Index(key + TRIPLE, TRIPLE) == |key|)
    ensures KeyName(key) != "" && !IsSpace(KeyName(key)[0])
    ensures SplitLine(KeyName(key) + Sign(pretty) + rest) == Split(key, rest)
  {
    var q, s := QuoteOf(key), Sign(pretty);
    KeyQuotesClose(key);
    assert Index(key + q, q) == |key|;
    assert key != "" && (q == "\"" ==> '"' !in key);
    QuotedKeyNameIs(key);
    hide SplitLine, Index, KeyQuote, KeyName, NeedsQuotes, QuoteOf, Sign;
    QuotesAreSeen(q, key, s + rest);
    QuotedKeySplits(q, key, pretty, rest);
    Reassociate(q + key + q, s, rest);
  }

  lemma Reassociate(a: string, b: string, c: string)
    ensures a + b + c == a + (b + c)
  {
  }

  lemma KeySplits(key: string, count: nat, pretty: bool, rest: string)
    requires KeySurvives(key, count)
    ensures KeyName(key) != "" && !IsSpace(KeyName(key)[0])
    ensures SplitLine(KeyName(key) + Sign(pretty) + rest) == Split(if key[0] == '#' then "-" else key, rest)
  {
    hide SplitLine, Index;
    if key[0] == '#' {
      RawKeySplits("-", pretty, rest);
    } else if NeedsQuotes(key) {
      QuotedKeyNameSplits(key, pretty, rest);
    } else {
      RawKeySplits(key, pretty, rest);
    }
  }

  // Lines

  /** The trimmed line of an entry is neither empty, nor a comment, nor a header. */
  lemma LooksLikeEntry(e: Entry, count: nat, pretty: bool)
    requires Survives(e, count)
    ensures var line := KeyName(e.key) + Sign(pretty) + ValuePart(e.value, pretty);
            && line != "" && line[0] != '#' && line[0] != ';' && !(line[0] == '[' && line[|line| - 1] == ']')
  {
    var name := KeyName(e.key);
    var line := name + Sign(pretty) + ValuePart(e.value, pretty);
    SurvivorIsTrimmed(e.value);
    assert line[0] == name[0];
    if e.value == "" {
      assert line[|line| - 1] == '=';
    } else {
      assert line[|line| - 1] == QuotedValue(e.value)[|QuotedValue(e.value)| - 1];
    }
  }

  /** Reading an entry's line sets its key to its value. */
  lemma EntryReads(r: Reader, e: Entry, pretty: bool)
    requires Survives(e, r.count) && r.section != "" && r.pending == ""
    ensures ReadLine(r, TrimSpace(EntryLine(e, pretty))) ==
            Read(r.(config := SetIn(r.config, r.section, e.key, e.value), count := NextCount(e.key, r.count)))
  {
    hide ReadLine, Survives, TrimSpace, SetIn;
    NotedEntryReads(r, e, pretty);
  }

  /** The same, with the comment gathered in front of the line. */
  lemma NotedEntryReads(r: Reader, e: Entry, pretty: bool)
    requires Survives(e, r.count) && r.section != ""
    ensures ReadLine(r, TrimSpace(EntryLine(e, pretty))) ==
            Read(r.(config := SetIn(r.config, r.section, e.key, e.value), count := NextCount(e.key, r.count), pending := "",
                    comments := if r.pending == "" then r.comments else SetKeyComments(r.comments, r.section, e.key, r.pending)))
  {
    hide SetIn, ReadValue, SplitLine, TrimSpace, Decimal, EntryLine, ByteLength, ValueSurvives;
    KeySplits(e.key, r.count, pretty, ValuePart(e.value, pretty));
    EntryLineTrims(e, pretty);
    LooksLikeEntry(e, r.count, pretty);
    RestReads(e.value, pretty);
    hide KeyName, ValuePart;
    KeyIsAutomatic(e.key, r.count);
  }

  lemma KeyIsAutomatic(key: string, count: nat)
    requires KeySurvives(key, count)
    ensures key != "" && (key[0] == '#' <==> (if key[0] == '#' then "-" else key) == "-")
    ensures key[0] == '#' ==> key == "#" + Decimal(count)
  {
  }

  lemma LineReads(r: Reader, line: string, text: string)
    requires '\n' !in line
    ensures ReadLines(r, Line(line) + text) ==
            if ReadLine(r, TrimSpace(line)).Failed? then Failed else ReadLines(ReadLine(r, TrimSpace(line)).reader, text)
  {
    IndexOfChar(line, '\n', text);
    var whole := line + ['\n'] + text;
    assert Line(line) + text == whole;
    assert whole[..|line|] == line && whole[|line| + 1..] == text;
    hide Index, ReadLine, TrimSpace;
  }

  lemma EntryLineHasNoBreak(e: Entry, pretty: bool)
    requires e.key != "" && '\n' !in e.key && '\n' !in e.value
    ensures '\n' !in EntryLine(e, pretty)
  {
  }

  // Sections

  /** A configuration whose last section holds these entries, once it holds any. */
  function Built(c: Config, name: string, entries: seq<Entry>): Config {
    if entries == [] then c else c + [Section(name, entries)]
  }

  lemma {:induction false} SetEntryAtEnd(entries: seq<Entry>, key: string, value: string)
    requires !HasKey(entries, key)
    ensures SetEntry(entries, key, value) == entries + [Entry(key, value)]
  {
    if entries != [] {
      assert entries[0].key != key;
      assert forall i :: 0 <= i < |entries[1..]| ==> entries[1..][i] == entries[i + 1];
      SetEntryAtEnd(entries[1..], key, value);
    }
  }

  lemma {:induction false} SetInBuilt(c: Config, name: string, entries: seq<Entry>, key: string, value: string)
    requires !HasSection(c, name) && !HasKey(entries, key)
    ensures SetIn(Built(c, name, entries), name, key, value) == Built(c, name, entries + [Entry(key, value)])
  {
    var b := Built(c, name, entries);
    if c == [] {
      SetEntryAtEnd(entries, key, value);
    } else {
      assert c[0].name != name;
      assert forall i :: 0 <= i < |c[1..]| ==> c[1..][i] == c[i + 1];
      SetInBuilt(c[1..], name, entries, key, value);
      assert b[1..] == Built(c[1..], name, entries);
      assert b[0] == c[0];
    }
  }

  predicate DistinctKeys(entries: seq<Entry>) {
    forall i, j :: 0 <= i < j < |entries| ==> entries[i].key != entries[j].key
  }

  function CountAfter(entries: seq<Entry>, count: nat): nat {
    if entries == [] then count
    else CountAfter(entries[1..], if entries[0].key == KEEPER then count else NextCount(entries[0].key, count))
  }

  lemma SavedEntryReads(r: Reader, c: Config, done: seq<Entry>, e: Entry, pretty: bool, text: string)
    requires r.section != "" && r.pending == "" && r.config == Built(c, r.section, done) && !HasSection(c, r.section)
    requires Survives(e, r.count) && e.key != KEEPER && !HasKey(done, e.key)
    ensures ReadLines(r, SavedEntry(NO_COMMENTS, r.section, e, pretty) + text) ==
            ReadLines(r.(config := Built(c, r.section, done + [e]), count := NextCount(e.key, r.count)), text)
  {
    hide Survives, EntryLine, SetIn, ReadLines, ReadLine, TrimSpace, Built, HasSection, HasKey;
    NotEmptyKey(e, r.count);
    EntryReads(r, e, pretty);
    EntryLineHasNoBreak(e, pretty);
    SetInBuilt(c, r.section, done, e.key, e.value);
    assert SavedEntry(NO_COMMENTS, r.section, e, pretty) == "" + Line(EntryLine(e, pretty)) == Line(EntryLine(e, pretty));
    LineReads(r, EntryLine(e, pretty), text);
  }

  lemma NotEmptyKey(e: Entry, count: nat)
    requires Survives(e, count)
    ensures e.key != "" && '\n' !in e.key && '\n' !in e.value
  {
  }

  lemma KeysStayDistinct(done: seq<Entry>, e: Entry, rest: seq<Entry>)
    requires DistinctKeys(done + ([e] + rest))
    ensures !HasKey(done, e.key) && DistinctKeys(done + [e] + rest)
  {
    var all := done + ([e] + rest);
    assert done + [e] + rest == all;
    assert all[|done|] == e && forall i :: 0 <= i < |done| ==> all[i] == done[i];
  }

  lemma {:induction false} EntriesRead(r: Reader, c: Config, done: seq<Entry>, entries: seq<Entry>, pretty: bool, text: string)
    requires r.section != "" && r.pending == "" && r.config == Built(c, r.section, done) && !HasSection(c, r.section)
    requires EntriesSurvive(entries, r.count) && DistinctKeys(done + Kept(entries))
    ensures ReadLines(r, SavedEntries(NO_COMMENTS, r.section, entries, pretty) + text) ==
            ReadLines(r.(config := Built(c, r.section, done + Kept(entries)), count := CountAfter(entries, r.count)), text)
    decreases |entries|
  {
    hide SavedEntry, Survives, ReadLines, Built, HasSection, HasKey, DistinctKeys;
    if entries == [] {
      assert done + [] == done && "" + text == text;
      assert r.(config := r.config, count := r.count) == r;
    } else {
      var e, rest := entries[0], entries[1..];
      var first, more := SavedEntry(NO_COMMENTS, r.section, e, pretty), SavedEntries(NO_COMMENTS, r.section, rest, pretty);
      assert first + more + text == first + (more + text);
      if e.key == KEEPER {
        KeeperIsNotSaved(e, r.section, pretty);
        assert first + (more + text) == more + text && [] + Kept(rest) == Kept(rest);
        EntriesRead(r, c, done, rest, pretty, text);
      } else {
        KeysStayDistinct(done, e, Kept(rest));
        SavedEntryReads(r, c, done, e, pretty, more + text);
        var r' := r.(config := Built(c, r.section, done + [e]), count := NextCount(e.key, r.count));
        EntriesRead(r', c, done + [e], rest, pretty, text);
        assert done + ([e] + Kept(rest)) == done + [e] + Kept(rest);
      }
    }
  }

  lemma KeeperIsNotSaved(e: Entry, section: string, pretty: bool)
    requires e.key == KEEPER
    ensures SavedEntry(NO_COMMENTS, section, e, pretty) == ""
  {
  }

  lemma BlankLineReads(r: Reader, text: string)
    ensures ReadLines(r, "\n" + text) == ReadLines(r, text)
  {
    assert Line("") == "\n";
    LineReads(r, "", text);
    assert TrimSpace("") == "";
    hide ReadLines;
  }

  lemma HeaderReads(r: Reader, name: string, text: string)
    requires NameSurvives(name) && r.pending == "" && !HasSection(r.config, name)
    ensures ReadLines(r, Line("[" + name + "]") + text) ==
            ReadLines(r.(config := Built(r.config, name, [Entry(KEEPER, KEEPER)]), section := name, count := 1), text)
  {
    NotedHeaderReads(r, name, text);
    hide ReadLines, Built;
  }

  /** The same, with the comment gathered in front of the line. */
  lemma NotedHeaderReads(r: Reader, name: string, text: string)
    requires NameSurvives(name) && !HasSection(r.config, name)
    ensures ReadLines(r, Line("[" + name + "]") + text) ==
            ReadLines(r.(config := Built(r.config, name, [Entry(KEEPER, KEEPER)]), section := name, count := 1, pending := "",
                         comments := if r.pending == "" then r.comments else SetSectionComments(r.comments, name, r.pending)), text)
  {
    var line := "[" + name + "]";
    LineReads(r, line, text);
    TrimSame(line);
    assert line[1..|line| - 1] == name;
    TrimSame(name);
    SetInBuilt(r.config, name, [], KEEPER, KEEPER);
    assert Built(r.config, name, []) == r.config && [] + [Entry(KEEPER, KEEPER)] == [Entry(KEEPER, KEEPER)];
    hide ReadLines, Built, TrimSpace, SetIn;
  }

  /** One section with its header, on top of what was read before. */
  lemma SectionReads(r: Reader, s: Section, pretty: bool, text: string)
    requires r.pending == "" && !HasSection(r.config, s.name) && NameSurvives(s.name) && s.name != DEFAULT_SECTION
    requires EntriesSurvive(s.entries, 1) && DistinctKeys(ReadBack(s).entries)
    ensures ReadLines(r, SavedSection(NO_COMMENTS, s, pretty) + text) ==
            ReadLines(r.(config := r.config + [ReadBack(s)], section := s.name, count := CountAfter(s.entries, 1)), text)
  {
    hide ReadLines, SavedEntries, HasSection, DistinctKeys, EntriesSurvive;
    var header, body := Line("[" + s.name + "]"), SavedEntries(NO_COMMENTS, s.name, s.entries, pretty);
    assert SavedHeader(NO_COMMENTS, s.name) == "" + header == header;
    assert SavedSection(NO_COMMENTS, s, pretty) + text == header + (body + ("\n" + text));
    HeaderReads(r, s.name, body + ("\n" + text));
    var keeper := [Entry(KEEPER, KEEPER)];
    var r1 := r.(config := Built(r.config, s.name, keeper), section := s.name, count := 1);
    EntriesRead(r1, r.config, keeper, s.entries, pretty, "\n" + text);
    var r2 := r1.(config := Built(r.config, s.name, keeper + Kept(s.entries)), count := CountAfter(s.entries, 1));
    BlankLineReads(r2, text);
  }

  /** DEFAULT, which has none, at the beginning. */
  lemma DefaultReads(s: Section, pretty: bool, text: string)
    requires s.name == DEFAULT_SECTION && EntriesSurvive(s.entries, 1) && DistinctKeys(Kept(s.entries)) && Kept(s.entries) != []
    ensures ReadLines(NewReader([], NO_COMMENTS), SavedSection(NO_COMMENTS, s, pretty) + text) ==
            ReadLines(NewReader([], NO_COMMENTS).(config := [ReadBack(s)], count := CountAfter(s.entries, 1)), text)
  {
    hide ReadLines, SavedEntries, DistinctKeys, EntriesSurvive;
    var r := NewReader([], NO_COMMENTS);
    var body := SavedEntries(NO_COMMENTS, s.name, s.entries, pretty);
    assert SavedSection(NO_COMMENTS, s, pretty) + text == body + ("\n" + text);
    assert [] + Kept(s.entries) == Kept(s.entries);
    EntriesRead(r, [], [], s.entries, pretty, "\n" + text);
    BlankLineReads(r.(config := Built([], s.name, Kept(s.entries)), count := CountAfter(s.entries, 1)), text);
    assert [] + [ReadBack(s)] == [ReadBack(s)];
  }

  /** What ConfigFile's maps and lists guarantee: names and keys occur once. */
  ghost predicate Unique(c: Config) {
    && (forall i, j :: 0 <= i < j < |c| ==> c[i].name != c[j].name)
    && (forall i :: 0 <= i < |c| ==> DistinctKeys(c[i].entries))
  }

  lemma {:induction false} KeptKeys(entries: seq<Entry>, e: Entry)
    ensures e in Kept(entries) <==> e in entries && e.key != KEEPER
  {
    if entries != [] {
      KeptKeys(entries[1..], e);
    }
  }

  lemma {:induction false} KeptIsDistinct(entries: seq<Entry>)
    requires DistinctKeys(entries)
    ensures DistinctKeys(Kept(entries)) && DistinctKeys([Entry(KEEPER, KEEPER)] + Kept(entries))
  {
    if entries != [] {
      var rest := entries[1..];
      assert forall i :: 0 <= i < |rest| ==> rest[i] == entries[i + 1];
      KeptIsDistinct(rest);
      forall k | 0 <= k < |Kept(rest)|
        ensures Kept(rest)[k].key != entries[0].key
      {
        KeptKeys(rest, Kept(rest)[k]);
        var j :| 0 <= j < |rest| && rest[j] == Kept(rest)[k];
        assert entries[j + 1] == rest[j];
      }
    }
    forall e
      ensures e in Kept(entries) ==> e.key != KEEPER
    {
      KeptKeys(entries, e);
    }
  }

  /** Sections that can be read on top of others. */
  ghost predicate FitsBehind(before: Config, c: Config) {
    forall i :: 0 <= i < |c| ==>
      && NameSurvives(c[i].name) && c[i].name != DEFAULT_SECTION && EntriesSurvive(c[i].entries, 1)
      && !HasSection(before, c[i].name)
  }

  lemma {:induction false} SectionsRead(r: Reader, c: Config, pretty: bool)
    requires r.pending == "" && Unique(c) && FitsBehind(r.config, c)
    ensures var o := ReadLines(r, Saved(NO_COMMENTS, c, pretty));
            o.Read? && o.reader.config == r.config + AllReadBack(c) && o.reader.comments == r.comments
    decreases |c|
  {
    hide ReadLines, SavedSection, NameSurvives, EntriesSurvive, DistinctKeys, Unique, FitsBehind, HasSection;
    if c == [] {
      NothingReads(r);
      assert r.config + [] == r.config;
    } else {
      FirstFits(r.config, c);
      KeptIsDistinct(c[0].entries);
      SectionReads(r, c[0], pretty, Saved(NO_COMMENTS, c[1..], pretty));
      var r' := r.(config := r.config + [ReadBack(c[0])], section := c[0].name, count := CountAfter(c[0].entries, 1));
      RestFits(r.config, c);
      NotAddedTwice(r.config, c);
      SectionsRead(r', c[1..], pretty);
      assert r'.config + AllReadBack(c[1..]) == r.config + AllReadBack(c);
    }
  }

  lemma NothingReads(r: Reader)
    ensures ReadLines(r, "") == Read(r)
  {
    assert TrimSpace("") == "" && Index("", "\n") == -1;
  }

  lemma FirstFits(before: Config, c: Config)
    requires c != [] && Unique(c) && FitsBehind(before, c)
    ensures NameSurvives(c[0].name) && c[0].name != DEFAULT_SECTION && EntriesSurvive(c[0].entries, 1)
    ensures !HasSection(before, c[0].name) && DistinctKeys(c[0].entries)
  {
  }

  lemma NotAddedTwice(before: Config, c: Config)
    requires c != [] && Unique(c) && FitsBehind(before, c[1..])
    ensures Unique(c[1..]) && FitsBehind(before + [ReadBack(c[0])], c[1..])
  {
    hide DistinctKeys, Kept, NameSurvives, EntriesSurvive;
    forall i | 0 <= i < |c[1..]|
      ensures !HasSection(before + [ReadBack(c[0])], c[1..][i].name) && c[1..][i] == c[i + 1]
    {
      assert c[1..][i] == c[i + 1];
    }
  }

  lemma RestFits(before: Config, c: Config)
    requires c != [] && FitsBehind(before, c)
    ensures FitsBehind(before, c[1..])
  {
    hide HasSection, NameSurvives, EntriesSurvive;
    assert forall i :: 0 <= i < |c[1..]| ==> c[1..][i] == c[i + 1];
  }

  /** Reading what was saved gives every section, key and value back, in order. */
  lemma SavedReadsBack(c: Config, pretty: bool)
    requires ConfigSurvives(c) && Unique(c)
    ensures var o := ReadText([], NO_COMMENTS, Saved(NO_COMMENTS, c, pretty));
            o.Read? && o.reader.config == AllReadBack(c) && o.reader.comments == NO_COMMENTS
  {
    hide ReadLines, EntriesSurvive, DistinctKeys, NameSurvives, Kept, LosesMark, SavedSection;
    NoMarkInFront(c, pretty);
    if c != [] && c[0].name == DEFAULT_SECTION {
      KeptIsDistinct(c[0].entries);
      DefaultReads(c[0], pretty, Saved(NO_COMMENTS, c[1..], pretty));
      var r := NewReader([], NO_COMMENTS).(config := [ReadBack(c[0])], count := CountAfter(c[0].entries, 1));
      NotAddedTwice([], c);
      assert [] + [ReadBack(c[0])] == [ReadBack(c[0])];
      SectionsRead(r, c[1..], pretty);
    } else {
      SectionsRead(NewReader([], NO_COMMENTS), c, pretty);
      assert [] + AllReadBack(c) == AllReadBack(c);
    }
  }

  /** The first key that is saved begins the text, unless it is quoted or automatic. */
  lemma {:induction false} FirstEntryLeads(entries: seq<Entry>, section: string, pretty: bool)
    requires Kept(entries) != [] && Kept(entries)[0].key != ""
    ensures var text := SavedEntries(NO_COMMENTS, section, entries, pretty);
            text != "" && (text[0] == BYTE_ORDER_MARK <==> LosesMark(Kept(entries)[0].key))
  {
    var e := entries[0];
    if e.key == KEEPER {
      FirstEntryLeads(entries[1..], section, pretty);
      assert SavedEntries(NO_COMMENTS, section, entries, pretty) == SavedEntries(NO_COMMENTS, section, entries[1..], pretty);
    } else {
      var line := EntryLine(e, pretty);
      var name := KeyName(e.key);
      assert name != "" && line[0] == name[0];
      assert SavedEntries(NO_COMMENTS, section, entries, pretty)[0] == line[0];
      assert e.key[..1] == [e.key[0]];
    }
  }

  lemma {:induction false} SurvivorsHaveKeys(entries: seq<Entry>, count: nat)
    requires EntriesSurvive(entries, count) && Kept(entries) != []
    ensures Kept(entries)[0].key != ""
  {
    if entries[0].key == KEEPER {
      SurvivorsHaveKeys(entries[1..], count);
    }
  }

  lemma NoMarkInFront(c: Config, pretty: bool)
    requires ConfigSurvives(c)
    ensures var text := Saved(NO_COMMENTS, c, pretty); text == "" || text[0] != BYTE_ORDER_MARK
  {
    if c != [] {
      var s := c[0];
      var text := Saved(NO_COMMENTS, c, pretty);
      var header, body := SavedHeader(NO_COMMENTS, s.name), SavedEntries(NO_COMMENTS, s.name, s.entries, pretty);
      if s.name == DEFAULT_SECTION {
        SurvivorsHaveKeys(s.entries, 1);
        FirstEntryLeads(s.entries, s.name, pretty);
        assert header == "" && text[0] == body[0];
      } else {
        assert header == "" + Line("[" + s.name + "]") && text[0] == header[0] == '[';
      }
    }
  }

  /** A key that loses its mark is read back without it, so the configuration is not the same. */
  lemma MarkIsLost(key: string, value: string, rest: seq<Entry>, others: Config, pretty: bool)
    requires key != "" && key[0] != '#' && key != KEEPER && !NeedsQuotes(key)
    requires var plain := [Section(DEFAULT_SECTION, [Entry(key, value)] + rest)] + others; ConfigSurvives(plain) && Unique(plain)
    ensures var plain := [Section(DEFAULT_SECTION, [Entry(key, value)] + rest)] + others;
            var marked := [Section(DEFAULT_SECTION, [Entry([BYTE_ORDER_MARK] + key, value)] + rest)] + others;
            var o := ReadText([], NO_COMMENTS, Saved(NO_COMMENTS, marked, pretty));
            o.Read? && o.reader.config == AllReadBack(plain) && AllReadBack(plain) != AllReadBack(marked)
  {
    hide ConfigSurvives, ReadLines, Unique;
    var first, other := Entry(key, value), Entry([BYTE_ORDER_MARK] + key, value);
    var plain := [Section(DEFAULT_SECTION, [first] + rest)] + others;
    var marked := [Section(DEFAULT_SECTION, [other] + rest)] + others;
    var text, markedText := Saved(NO_COMMENTS, plain, pretty), Saved(NO_COMMENTS, marked, pretty);
    MarkLeads(first, other, rest, others, pretty);
    NoMarkInFront(plain, pretty);
    SavedReadsBack(plain, pretty);
    assert markedText[1..] == text;
    assert Kept([first] + rest)[0] == first && Kept([other] + rest)[0] == other;
    assert AllReadBack(plain)[0].entries[0] == first && AllReadBack(marked)[0].entries[0] == other;
  }

  lemma MarkLeads(first: Entry, other: Entry, rest: seq<Entry>, others: Config, pretty: bool)
    requires first.key != "" && first.key[0] != '#' && first.key != KEEPER && !NeedsQuotes(first.key)
    requires other == Entry([BYTE_ORDER_MARK] + first.key, first.value)
    ensures Saved(NO_COMMENTS, [Section(DEFAULT_SECTION, [other] + rest)] + others, pretty) ==
            [BYTE_ORDER_MARK] + Saved(NO_COMMENTS, [Section(DEFAULT_SECTION, [first] + rest)] + others, pretty)
  {
    hide Saved, EntryLine;
    MarkedLine(first, other, pretty);
    SavedFrom(first, rest, others, pretty);
    SavedFrom(other, rest, others, pretty);
  }

  lemma MarkedLine(first: Entry, other: Entry, pretty: bool)
    requires first.key != "" && first.key[0] != '#' && !NeedsQuotes(first.key)
    requires other == Entry([BYTE_ORDER_MARK] + first.key, first.value)
    ensures EntryLine(other, pretty) == [BYTE_ORDER_MARK] + EntryLine(first, pretty)
  {
    assert KeyName(other.key) == [BYTE_ORDER_MARK] + KeyName(first.key);
    hide KeyName, QuotedValue;
  }

  lemma SavedFrom(e: Entry, rest: seq<Entry>, others: Config, pretty: bool)
    requires e.key != "" && e.key != KEEPER
    ensures Saved(NO_COMMENTS, [Section(DEFAULT_SECTION, [e] + rest)] + others, pretty) ==
            EntryLine(e, pretty) + ("\n" + SavedEntries(NO_COMMENTS, DEFAULT_SECTION, rest, pretty) + "\n" + Saved(NO_COMMENTS, others, pretty))
  {
    hide Saved, SavedSection, SavedEntries, EntryLine;
    SavedFirst(Section(DEFAULT_SECTION, [e] + rest), others, pretty);
    DefaultFrom(e, rest, pretty);
    Chained(EntryLine(e, pretty), "\n", SavedEntries(NO_COMMENTS, DEFAULT_SECTION, rest, pretty), Saved(NO_COMMENTS, others, pretty));
  }

  lemma SavedFirst(s: Section, others: Config, pretty: bool)
    ensures Saved(NO_COMMENTS, [s] + others, pretty) == SavedSection(NO_COMMENTS, s, pretty) + Saved(NO_COMMENTS, others, pretty)
  {
    hide SavedSection;
    assert ([s] + others)[1..] == others;
  }

  lemma DefaultSection(s: Section, pretty: bool)
    requires s.name == DEFAULT_SECTION
    ensures SavedSection(NO_COMMENTS, s, pretty) == SavedEntries(NO_COMMENTS, DEFAULT_SECTION, s.entries, pretty) + "\n"
  {
    hide SavedEntries;
    var body := SavedEntries(NO_COMMENTS, DEFAULT_SECTION, s.entries, pretty);
    assert SavedHeader(NO_COMMENTS, s.name) == "" + "" == "";
    assert "" + body == body;
  }

  lemma EntryInFront(section: string, e: Entry, rest: seq<Entry>, pretty: bool)
    requires e.key != "" && e.key != KEEPER
    ensures SavedEntries(NO_COMMENTS, section, [e] + rest, pretty) ==
            Line(EntryLine(e, pretty)) + SavedEntries(NO_COMMENTS, section, rest, pretty)
  {
    hide EntryLine;
    assert ([e] + rest)[1..] == rest;
    assert "" + Line(EntryLine(e, pretty)) == Line(EntryLine(e, pretty));
  }

  lemma DefaultFrom(e: Entry, rest: seq<Entry>, pretty: bool)
    requires e.key != "" && e.key != KEEPER
    ensures SavedSection(NO_COMMENTS, Section(DEFAULT_SECTION, [e] + rest), pretty) ==
            EntryLine(e, pretty) + "\n" + SavedEntries(NO_COMMENTS, DEFAULT_SECTION, rest, pretty) + "\n"
  {
    hide EntryLine, SavedEntries, SavedSection;
    DefaultSection(Section(DEFAULT_SECTION, [e] + rest), pretty);
    EntryInFront(DEFAULT_SECTION, e, rest, pretty);
  }

  lemma Chained(a: string, b: string, c: string, d: string)
    ensures a + b + c + b + d == a + (b + c + b + d)
  {
  }
}
