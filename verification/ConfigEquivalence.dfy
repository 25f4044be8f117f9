/** Exactly which configurations are read back from the text they are saved as. */
module ConfigEquivalence {
  import opened ConfigText
  import opened ConfigFiles
  import opened ConfigRoundTrip
  import opened ConfigExact

  // What a reader can put into a configuration

  predicate EntryReadable(e: Entry) {
    e.key != "" && '\n' !in e.key && '\n' !in e.value
  }

  predicate SectionReadable(s: Section) {
    NameSurvives(s.name) && s.entries != [] && forall i :: 0 <= i < |s.entries| ==> EntryReadable(s.entries[i])
  }

  predicate Readable(c: Config) {
    forall i :: 0 <= i < |c| ==> SectionReadable(c[i])
  }

  predicate ReaderOk(r: Reader) {
    Readable(r.config) && Trimmed(r.section) && '\n' !in r.section
  }

  lemma {:induction false} SetEntryReadable(entries: seq<Entry>, key: string, value: string)
    requires (forall i :: 0 <= i < |entries| ==> EntryReadable(entries[i])) && EntryReadable(Entry(key, value))
    ensures SetEntry(entries, key, value) != []
    ensures forall i :: 0 <= i < |SetEntry(entries, key, value)| ==> EntryReadable(SetEntry(entries, key, value)[i])
  {
    if entries != [] && entries[0].key != key {
      SetEntryReadable(entries[1..], key, value);
    }
  }

  lemma {:induction false} SetInReadable(c: Config, section: string, key: string, value: string)
    requires Readable(c) && NameSurvives(section) && EntryReadable(Entry(key, value))
    ensures Readable(SetIn(c, section, key, value))
  {
    hide NameSurvives, EntryReadable, SetEntry;
    if c == [] {
    } else if c[0].name == section {
      SetEntryReadable(c[0].entries, key, value);
    } else {
      assert forall i :: 0 <= i < |c[1..]| ==> c[1..][i] == c[i + 1];
      SetInReadable(c[1..], section, key, value);
    }
  }

  lemma SetValueReadable(c: Config, section: string, key: string, value: string)
    requires Readable(c) && Trimmed(section) && '\n' !in section && '\n' !in key && '\n' !in value
    ensures Readable(SetValue(c, section, key, value))
  {
    if key != "" {
      SetInReadable(c, if section == "" then DEFAULT_SECTION else section, key, value);
    }
  }

  lemma TrimKeepsLine(s: string)
    ensures Trimmed(TrimSpace(s)) && ('\n' !in s ==> '\n' !in TrimSpace(s))
  {
    var a, b := TrimSplits(s);
    hide TrimSpace;
    assert forall c :: c in TrimSpace(s) ==> c in a + TrimSpace(s) + b;
  }

  lemma {:induction false} DecimalIsLine(n: nat)
    ensures '\n' !in Decimal(n)
  {
    if n >= 10 {
      DecimalIsLine(n / 10);
    }
  }

  lemma SplitKeepsLine(line: string)
    requires line != "" && '\n' !in line && SplitLine(line).Split?
    ensures '\n' !in SplitLine(line).key && '\n' !in SplitLine(line).rest
  {
    hide TrimSpace;
    var q := KeyQuote(line);
    if q == "" {
      TrimKeepsLine(line[..IndexSeparator(line)]);
    }
  }

  lemma ValueKeepsLine(rest: string)
    requires '\n' !in rest && ReadValue(rest).Text?
    ensures '\n' !in ReadValue(rest).value
  {
    hide TrimSpace;
    TrimKeepsLine(rest);
    TrimKeepsLine(TrimSpace(rest));
  }

  /** Whatever a line does, no line feed and no blank name gets into the configuration. */
  lemma LineReadable(r: Reader, line: string)
    requires ReaderOk(r) && '\n' !in line && ReadLine(r, line).Read?
    ensures ReaderOk(ReadLine(r, line).reader)
  {
    hide Readable, SetValue, SplitLine, ReadValue, TrimSpace, Decimal, Trimmed;
    if line != "" && line[0] != '#' && line[0] != ';' {
      if line[0] == '[' && line[|line| - 1] == ']' {
        TrimKeepsLine(line[1..|line| - 1]);
        SetValueReadable(r.config, TrimSpace(line[1..|line| - 1]), KEEPER, KEEPER);
      } else {
        var split := SplitLine(line);
        SplitKeepsLine(line);
        ValueKeepsLine(split.rest);
        DecimalIsLine(r.count);
        var key := if split.key == "-" then "#" + Decimal(r.count) else split.key;
        SetValueReadable(r.config, r.section, key, ReadValue(split.rest).value);
      }
    }
  }

  lemma {:induction false} FirstBreak(text: string)
    ensures var n := Index(text, "\n"); if n == -1 then '\n' !in text else n < |text| && '\n' !in text[..n]
  {
    if text != "" && !HasPrefix(text, "\n") {
      FirstBreak(text[1..]);
      assert text[..1] == [text[0]];
      assert text == [text[0]] + text[1..];
      var n := Index(text[1..], "\n");
      if n != -1 {
        assert text[..n + 1] == [text[0]] + text[1..][..n];
      }
    }
  }

  lemma {:induction false} LinesReadable(r: Reader, text: string)
    requires ReaderOk(r) && ReadLines(r, text).Read?
    ensures ReaderOk(ReadLines(r, text).reader)
    decreases |text|
  {
    hide ReaderOk, ReadLine, TrimSpace;
    FirstBreak(text);
    var n := Index(text, "\n");
    if n == -1 {
      TrimKeepsLine(text);
      LineReadable(r, TrimSpace(text));
    } else {
      TrimKeepsLine(text[..n]);
      LineReadable(r, TrimSpace(text[..n]));
      LinesReadable(ReadLine(r, TrimSpace(text[..n])).reader, text[n + 1..]);
    }
  }

  /** What is read from any text into a fresh configuration. */
  lemma ReadTextReadable(text: string)
    requires ReadText([], NO_COMMENTS, text).Read?
    ensures Readable(ReadText([], NO_COMMENTS, text).reader.config)
  {
    LinesReadable(NewReader([], NO_COMMENTS), if text != "" && text[0] == BYTE_ORDER_MARK then text[1..] else text);
    hide ReadLines;
  }

  // How much a line can add

  /** The entries but the keepers. */
  function Size(c: Config): nat {
    if c == [] then 0 else |Kept(c[0].entries)| + Size(c[1..])
  }

  predicate Extends(c: Config, c': Config) {
    |c| <= |c'| && forall i :: 0 <= i < |c| ==> c'[i].name == c[i].name && Kept(c[i].entries) <= Kept(c'[i].entries)
  }

  /** At most n entries more; when it is n, nothing that was there has changed. */
  predicate Grown(c: Config, c': Config, n: nat) {
    Size(c') <= Size(c) + n && (Size(c') == Size(c) + n ==> Extends(c, c'))
  }

  lemma GrownOn(c: Config, c1: Config, c2: Config, m: nat, n: nat)
    requires Grown(c, c1, m) && Grown(c1, c2, n)
    ensures Grown(c, c2, m + n)
  {
    hide Size, Kept;
  }

  lemma {:induction false} SetEntryGrows(entries: seq<Entry>, key: string, value: string)
    ensures var more := Kept(SetEntry(entries, key, value));
            if key == KEEPER then more == Kept(entries)
            else if HasKey(entries, key) then |more| == |Kept(entries)|
            else more == Kept(entries) + [Entry(key, value)]
  {
    if entries == [] {
    } else if entries[0].key == key {
    } else {
      SetEntryGrows(entries[1..], key, value);
      assert forall i :: 0 <= i < |entries[1..]| ==> entries[1..][i] == entries[i + 1];
      assert HasKey(entries, key) <==> HasKey(entries[1..], key);
    }
  }

  lemma {:induction false} SetInGrows(c: Config, section: string, key: string, value: string)
    ensures Grown(c, SetIn(c, section, key, value), if key == KEEPER then 0 else 1)
  {
    hide SetEntry, Kept;
    if c == [] {
      OneEntry(key, value);
      assert SetIn(c, section, key, value)[1..] == [];
    } else if c[0].name == section {
      SetEntryGrows(c[0].entries, key, value);
    } else {
      var more := SetIn(c[1..], section, key, value);
      SetInGrows(c[1..], section, key, value);
      assert forall i :: 0 <= i < |c[1..]| ==> c[1..][i] == c[i + 1];
      assert ([c[0]] + more)[1..] == more;
    }
  }

  lemma OneEntry(key: string, value: string)
    ensures Kept([Entry(key, value)]) == if key == KEEPER then [] else [Entry(key, value)]
  {
    assert Kept([Entry(key, value)][1..]) == [];
  }

  /** No section is, or will become, DEFAULT. */
  ghost predicate Named(r: Reader) {
    r.section != "" && r.section != DEFAULT_SECTION && !HasSection(r.config, DEFAULT_SECTION)
  }

  /** What reading some lines does in any state. */
  ghost predicate Advances(r: Reader, r': Reader, n: nat) {
    Grown(r.config, r'.config, n) && (Named(r) ==> Named(r'))
  }

  lemma AdvancesOn(r: Reader, r1: Reader, r2: Reader, m: nat, n: nat)
    requires Advances(r, r1, m) && Advances(r1, r2, n)
    ensures Advances(r, r2, m + n)
  {
    hide Grown, Named;
    GrownOn(r.config, r1.config, r2.config, m, n);
  }

  lemma {:induction false} SetInNames(c: Config, section: string, key: string, value: string, name: string)
    ensures HasSection(SetIn(c, section, key, value), name) <==> HasSection(c, name) || name == section
  {
    hide SetEntry;
    var more := SetIn(c, section, key, value);
    if c == [] {
      assert more[0].name == section;
    } else if c[0].name == section {
      assert forall i :: 0 <= i < |c| ==> more[i].name == c[i].name;
    } else {
      SetInNames(c[1..], section, key, value, name);
      AfterFirst(c, name);
      AfterFirst(more, name);
      assert more[1..] == SetIn(c[1..], section, key, value);
    }
  }

  lemma AfterFirst(c: Config, name: string)
    requires c != []
    ensures HasSection(c, name) <==> c[0].name == name || HasSection(c[1..], name)
  {
    assert forall i :: 0 <= i < |c[1..]| ==> c[1..][i] == c[i + 1];
    if HasSection(c, name) && c[0].name != name {
      var i :| 0 <= i < |c| && c[i].name == name;
      assert c[1..][i - 1].name == name;
    }
  }

  lemma SetValueAdvances(r: Reader, r': Reader, section: string, key: string, value: string)
    requires r'.config == SetValue(r.config, section, key, value) && r'.section == section
    ensures Grown(r.config, r'.config, if key == KEEPER then 0 else 1)
    ensures section != "" && section != DEFAULT_SECTION && !HasSection(r.config, DEFAULT_SECTION) ==> Named(r')
  {
    hide SetIn, Size, HasSection, Extends;
    SetInGrows(r.config, if section == "" then DEFAULT_SECTION else section, key, value);
    SetInNames(r.config, if section == "" then DEFAULT_SECTION else section, key, value, DEFAULT_SECTION);
    if key == "" {
      NothingGrows(r.config);
    }
  }

  lemma NothingGrows(c: Config)
    ensures Grown(c, c, 0) && Grown(c, c, 1)
  {
    hide Size, Kept;
  }

  predicate LooksLikeHeader(line: string) {
    line != "" && line[0] == '[' && line[|line| - 1] == ']'
  }

  /** A line adds at most the entry it stands for. */
  lemma LineAdvances(r: Reader, line: string)
    requires ReadLine(r, line).Read? && (LooksLikeHeader(line) ==> TrimSpace(line[1..|line| - 1]) !in ["", DEFAULT_SECTION])
    ensures Advances(r, ReadLine(r, line).reader, 1)
    ensures EntryOf(line, r.count).NoEntry? ==> Grown(r.config, ReadLine(r, line).reader.config, 0)
  {
    hide SetValue, SplitLine, ReadValue, TrimSpace, Decimal, Grown;
    var r' := ReadLine(r, line).reader;
    NothingGrows(r.config);
    if LooksLikeHeader(line) {
      var section := TrimSpace(line[1..|line| - 1]);
      SetValueAdvances(r, r', section, KEEPER, KEEPER);
      LessGrown(r.config, r'.config);
    } else if line != "" && line[0] != '#' && line[0] != ';' {
      var split := SplitLine(line);
      var key := if split.key == "-" then "#" + Decimal(r.count) else split.key;
      SetValueAdvances(r, r', r.section, key, ReadValue(split.rest).value);
      LessGrown(r.config, r'.config);
    }
  }

  lemma LessGrown(c: Config, c': Config)
    ensures Grown(c, c', 0) ==> Grown(c, c', 1)
  {
    hide Size, Extends;
  }

  // Configurations that could have been read, and their lines

  /** Entries that could have been read, keepers aside. */
  predicate Clean(entries: seq<Entry>) {
    forall i :: 0 <= i < |entries| && entries[i].key != KEEPER ==> EntryReadable(entries[i])
  }

  predicate CleanConfig(c: Config) {
    forall i :: 0 <= i < |c| ==> NameSurvives(c[i].name) && Clean(c[i].entries)
  }

  lemma EntryLineHolds(e: Entry, pretty: bool)
    requires e.key != ""
    ensures '=' in TrimSpace(EntryLine(e, pretty))
  {
    hide TrimSpace, KeyName, QuotedValue;
    var line := EntryLine(e, pretty);
    var a, b := TrimSplits(line);
    var k := KeyName(e.key) + (if pretty then " " else "");
    assert line == KeyName(e.key) + EqualSign(pretty) + QuotedValue(e.value) && line[|k|] == '=';
    assert '=' in line && line == a + TrimSpace(line) + b;
    SpaceIsNoSign(a);
    SpaceIsNoSign(b);
  }

  lemma SpaceIsNoSign(a: string)
    requires AllSpace(a)
    ensures '=' !in a
  {
  }

  /** The name between the brackets of a line with a sign holds the sign. */
  lemma NoProperHeader(line: string)
    requires '=' in line && LooksLikeHeader(line)
    ensures TrimSpace(line[1..|line| - 1]) !in ["", DEFAULT_SECTION]
  {
    hide TrimSpace;
    var inner := line[1..|line| - 1];
    assert line == ['['] + inner + [']'];
    assert '=' in inner;
    var a, b := TrimSplits(inner);
    SpaceIsNoSign(a);
    SpaceIsNoSign(b);
    assert inner == a + TrimSpace(inner) + b;
    assert '=' in TrimSpace(inner);
  }

  lemma EntryAdvances(r: Reader, section: string, e: Entry, pretty: bool, text: string) returns (r': Reader)
    requires e.key != KEEPER && EntryReadable(e)
    requires ReadLines(r, SavedEntry(NO_COMMENTS, section, e, pretty) + text).Read?
    ensures ReadLines(r, SavedEntry(NO_COMMENTS, section, e, pretty) + text) == ReadLines(r', text) && Advances(r, r', 1)
    ensures ReadLine(r, TrimSpace(EntryLine(e, pretty))) == Read(r')
  {
    hide ReadLines, ReadLine, EntryLine, TrimSpace, Advances, Grown;
    var line := EntryLine(e, pretty);
    EntryLineHasNoBreak(e, pretty);
    EntryIsItsLine(section, e, pretty);
    LineReads(r, line, text);
    r' := ReadLine(r, TrimSpace(line)).reader;
    EntryLineHolds(e, pretty);
    if LooksLikeHeader(TrimSpace(line)) {
      NoProperHeader(TrimSpace(line));
    }
    LineAdvances(r, TrimSpace(line));
  }

  lemma EntryIsItsLine(section: string, e: Entry, pretty: bool)
    requires e.key != KEEPER && e.key != ""
    ensures SavedEntry(NO_COMMENTS, section, e, pretty) == Line(EntryLine(e, pretty))
  {
    hide EntryLine;
    assert "" + Line(EntryLine(e, pretty)) == Line(EntryLine(e, pretty));
  }

  /** The first entry and the rest. */
  lemma EntriesSplit(section: string, entries: seq<Entry>, pretty: bool, text: string)
    requires entries != [] && Clean(entries)
    ensures Clean(entries[1..]) && (entries[0].key != KEEPER ==> EntryReadable(entries[0]))
    ensures |Kept(entries)| == (if entries[0].key == KEEPER then 0 else 1) + |Kept(entries[1..])|
    ensures var more := SavedEntries(NO_COMMENTS, section, entries[1..], pretty) + text;
            && SavedEntries(NO_COMMENTS, section, entries, pretty) + text == SavedEntry(NO_COMMENTS, section, entries[0], pretty) + more
            && (entries[0].key == KEEPER ==> SavedEntries(NO_COMMENTS, section, entries, pretty) + text == more)
  {
    hide SavedEntry, EntryReadable;
    assert forall i :: 0 <= i < |entries[1..]| ==> entries[1..][i] == entries[i + 1];
    var first, more := SavedEntry(NO_COMMENTS, section, entries[0], pretty), SavedEntries(NO_COMMENTS, section, entries[1..], pretty);
    assert first + more + text == first + (more + text);
    if entries[0].key == KEEPER {
      KeeperIsNotSaved(entries[0], section, pretty);
      assert first + (more + text) == more + text;
    }
  }

  lemma {:induction false} EntriesAdvance(r: Reader, section: string, entries: seq<Entry>, pretty: bool, text: string) returns (r': Reader)
    requires Clean(entries) && ReadLines(r, SavedEntries(NO_COMMENTS, section, entries, pretty) + text).Read?
    ensures ReadLines(r, SavedEntries(NO_COMMENTS, section, entries, pretty) + text) == ReadLines(r', text)
    ensures Advances(r, r', |Kept(entries)|)
    decreases |entries|
  {
    hide ReadLines, SavedEntry, EntryReadable, Advances, Clean;
    r' := r;
    if entries == [] {
      assert "" + text == text;
      StaysPut(r);
    } else {
      hide SavedEntries, Kept;
      EntriesSplit(section, entries, pretty, text);
      if entries[0].key == KEEPER {
        r' := EntriesAdvance(r, section, entries[1..], pretty, text);
      } else {
        var more := SavedEntries(NO_COMMENTS, section, entries[1..], pretty) + text;
        var r1 := EntryAdvances(r, section, entries[0], pretty, more);
        r' := EntriesAdvance(r1, section, entries[1..], pretty, text);
        AdvancesOn(r, r1, r', 1, |Kept(entries[1..])|);
      }
    }
  }

  lemma StaysPut(r: Reader)
    ensures Advances(r, r, 0)
  {
    NothingGrows(r.config);
    hide Grown, Named;
  }

  lemma HeaderAdvances(r: Reader, name: string, text: string) returns (r': Reader)
    requires NameSurvives(name) && ReadLines(r, SavedHeader(NO_COMMENTS, name) + text).Read?
    ensures ReadLines(r, SavedHeader(NO_COMMENTS, name) + text) == ReadLines(r', text) && Advances(r, r', 0)
  {
    hide ReadLines, TrimSpace, SetValue, Grown;
    r' := r;
    StaysPut(r);
    if name == DEFAULT_SECTION {
      assert SavedHeader(NO_COMMENTS, name) + text == text;
    } else {
      var line := "[" + name + "]";
      assert SavedHeader(NO_COMMENTS, name) == Line(line);
      LineReads(r, line, text);
      TrimSame(line);
      assert line[1..|line| - 1] == name;
      TrimSame(name);
      r' := ReadLine(r, line).reader;
      SetValueAdvances(r, r', name, KEEPER, KEEPER);
    }
  }

  lemma SectionAdvances(r: Reader, s: Section, pretty: bool, text: string) returns (r': Reader)
    requires NameSurvives(s.name) && Clean(s.entries) && ReadLines(r, SavedSection(NO_COMMENTS, s, pretty) + text).Read?
    ensures ReadLines(r, SavedSection(NO_COMMENTS, s, pretty) + text) == ReadLines(r', text)
    ensures Advances(r, r', |Kept(s.entries)|)
  {
    hide ReadLines, SavedEntries, SavedHeader, Advances, Clean, NameSurvives, Kept;
    var header, body := SavedHeader(NO_COMMENTS, s.name), SavedEntries(NO_COMMENTS, s.name, s.entries, pretty);
    assert SavedSection(NO_COMMENTS, s, pretty) + text == header + (body + ("\n" + text));
    var r1 := HeaderAdvances(r, s.name, body + ("\n" + text));
    r' := EntriesAdvance(r1, s.name, s.entries, pretty, "\n" + text);
    AdvancesOn(r, r1, r', 0, |Kept(s.entries)|);
    BlankLineReads(r', text);
  }

  /** Whatever state it meets, a saved configuration adds at most as many entries as it has. */
  lemma {:induction false} SavedAdvances(r: Reader, c: Config, pretty: bool)
    requires CleanConfig(c) && ReadLines(r, Saved(NO_COMMENTS, c, pretty)).Read?
    ensures Advances(r, ReadLines(r, Saved(NO_COMMENTS, c, pretty)).reader, Size(c))
    decreases |c|
  {
    hide ReadLines, SavedSection, Advances, Clean, NameSurvives, Kept;
    if c == [] {
      NothingReads(r);
      StaysPut(r);
    } else {
      var r1 := SectionAdvances(r, c[0], pretty, Saved(NO_COMMENTS, c[1..], pretty));
      assert CleanConfig(c[1..]) by {
        assert forall i :: 0 <= i < |c[1..]| ==> c[1..][i] == c[i + 1];
      }
      SavedAdvances(r1, c[1..], pretty);
      AdvancesOn(r, r1, ReadLines(r1, Saved(NO_COMMENTS, c[1..], pretty)).reader, |Kept(c[0].entries)|, Size(c[1..]));
    }
  }

  // What is read back leaves every line no choice

  lemma {:induction false} SizeMore(c: Config, s: Section)
    ensures Size(c + [s]) == Size(c) + |Kept(s.entries)|
  {
    hide Kept;
    if c == [] {
      assert c + [s] == [s] && [s][1..] == [];
    } else {
      assert (c + [s])[1..] == c[1..] + [s];
      SizeMore(c[1..], s);
    }
  }

  lemma {:induction false} SizeSum(c: Config, d: Config)
    ensures Size(c + d) == Size(c) + Size(d)
  {
    hide Kept;
    if c == [] {
      assert c + d == d;
    } else {
      assert (c + d)[1..] == c[1..] + d;
      SizeSum(c[1..], d);
    }
  }

  lemma {:induction false} KeptMore(entries: seq<Entry>, e: Entry)
    ensures Kept(entries + [e]) == Kept(entries) + Kept([e])
  {
    if entries == [] {
      assert entries + [e] == [e];
    } else {
      assert (entries + [e])[1..] == entries[1..] + [e];
      KeptMore(entries[1..], e);
    }
  }

  lemma {:induction false} KeptTwice(entries: seq<Entry>)
    ensures Kept(Kept(entries)) == Kept(entries) && Kept([Entry(KEEPER, KEEPER)] + Kept(entries)) == Kept(entries)
  {
    var rest := Kept(entries);
    assert ([Entry(KEEPER, KEEPER)] + rest)[1..] == rest;
    if entries != [] {
      KeptTwice(entries[1..]);
      assert entries[0].key != KEEPER ==> rest[1..] == Kept(entries[1..]);
    }
  }

  lemma KeptReadBack(s: Section)
    ensures Kept(ReadBack(s).entries) == Kept(s.entries)
  {
    KeptTwice(s.entries);
    assert [] + Kept(s.entries) == Kept(s.entries);
    hide Kept;
  }

  lemma {:induction false} SizeReadBack(c: Config)
    ensures Size(AllReadBack(c)) == Size(c)
  {
    hide Kept;
    if c != [] {
      KeptReadBack(c[0]);
      SizeReadBack(c[1..]);
      assert AllReadBack(c)[1..] == AllReadBack(c[1..]);
    }
  }

  /** Setting a key in the last section. */
  lemma {:induction false} SetInLast(c: Config, name: string, entries: seq<Entry>, key: string, value: string)
    requires !HasSection(c, name)
    ensures SetIn(Built(c, name, entries), name, key, value) == c + [Section(name, SetEntry(entries, key, value))]
  {
    hide SetEntry;
    var b := Built(c, name, entries);
    if c == [] {
      NewEntry(key, value);
    } else {
      AfterFirst(c, name);
      SetInLast(c[1..], name, entries, key, value);
      assert b[0] == c[0] && b[1..] == Built(c[1..], name, entries);
    }
  }

  lemma NewEntry(key: string, value: string)
    ensures SetEntry([], key, value) == [Entry(key, value)]
  {
  }

  lemma SizeBuilt(c: Config, name: string, entries: seq<Entry>)
    ensures Size(Built(c, name, entries)) == Size(c) + |Kept(entries)|
  {
    SizeMore(c, Section(name, entries));
  }

  /** A line that adds an entry, all of which is to stay in its place, stands for the entry that is there. */
  lemma LineMustGive(r: Reader, c: Config, done: seq<Entry>, line: string, e: Entry, target: Config)
    requires r.section != "" && r.pending == "" && r.config == Built(c, r.section, done) && !HasSection(c, r.section)
    requires '=' in line && ReadLine(r, line).Read?
    requires Size(ReadLine(r, line).reader.config) == Size(r.config) + 1 && Extends(ReadLine(r, line).reader.config, target)
    requires |c| < |target| && Kept(done) + [e] <= Kept(target[|c|].entries)
    ensures EntryOf(line, r.count) == Gives(e)
  {
    hide ReadLine, EntryOf, Size, Kept, HasSection, SetEntry, SetIn, Built;
    if LooksLikeHeader(line) {
      NoProperHeader(line);
    }
    LineAdvances(r, line);
    ReadsEntryOf(r, line);
    var found := EntryOf(line, r.count).entry;
    assert found.key != "";
    SetInLast(c, r.section, done, found.key, found.value);
    SetEntryGrows(done, found.key, found.value);
    var entries := SetEntry(done, found.key, found.value);
    SizeMore(c, Section(r.section, entries));
    SizeBuilt(c, r.section, done);
    var now := ReadLine(r, line).reader.config;
    assert now == c + [Section(r.section, entries)] && now[|c|].entries == entries;
    assert Kept(entries) == Kept(done) + [found];
    assert Kept(target[|c|].entries)[|Kept(done)|] == e;
  }

  /** The rest of a section and what follows it. */
  function Remaining(section: string, entries: seq<Entry>, others: Config, pretty: bool): string {
    SavedEntries(NO_COMMENTS, section, entries, pretty) + ("\n" + Saved(NO_COMMENTS, others, pretty))
  }

  lemma RemainingAdvances(r: Reader, section: string, entries: seq<Entry>, others: Config, pretty: bool)
    requires Clean(entries) && CleanConfig(others) && ReadLines(r, Remaining(section, entries, others, pretty)).Read?
    ensures Advances(r, ReadLines(r, Remaining(section, entries, others, pretty)).reader, |Kept(entries)| + Size(others))
  {
    hide ReadLines, SavedEntries, Saved, Advances, Clean, CleanConfig, Kept, Size;
    var r1 := EntriesAdvance(r, section, entries, pretty, "\n" + Saved(NO_COMMENTS, others, pretty));
    BlankLineReads(r1, Saved(NO_COMMENTS, others, pretty));
    SavedAdvances(r1, others, pretty);
    AdvancesOn(r, r1, ReadLines(r1, Saved(NO_COMMENTS, others, pretty)).reader, |Kept(entries)|, Size(others));
  }

  /** The configuration read may still become the target: what it lacks is what remains to be read. */
  ghost predicate OnTheWay(c: Config, at: nat, done: seq<Entry>, entries: seq<Entry>, others: Config, target: Config) {
    && Size(target) == Size(c) + |Kept(entries)| + Size(others)
    && at < |target| && Kept(target[at].entries) == Kept(done) + Kept(entries)
  }

  /** The first line of the rest of a section must stand for the first entry. */
  lemma FirstMustGive(r: Reader, c: Config, done: seq<Entry>, line: string, e: Entry, tail: seq<Entry>, others: Config, pretty: bool,
                      target: Config)
    requires r.section != "" && r.pending == "" && r.config == Built(c, r.section, done) && !HasSection(c, r.section)
    requires '=' in line && ReadLine(r, line).Read? && e.key != KEEPER && Clean(tail) && CleanConfig(others)
    requires OnTheWay(r.config, |c|, done, [e] + tail, others, target)
    requires var o := ReadLines(ReadLine(r, line).reader, Remaining(r.section, tail, others, pretty));
             o.Read? && o.reader.config == target
    ensures EntryOf(line, r.count) == Gives(e)
  {
    hide ReadLine, ReadLines, Remaining, EntryOf, Size, HasSection, Built, Extends, Clean, CleanConfig, Named;
    var r1 := ReadLine(r, line).reader;
    if LooksLikeHeader(line) {
      NoProperHeader(line);
    }
    LineAdvances(r, line);
    RemainingAdvances(r1, r.section, tail, others, pretty);
    assert ([e] + tail)[1..] == tail;
    assert Kept([e] + tail) == [e] + Kept(tail);
    hide Kept;
    assert Kept(done) + ([e] + Kept(tail)) == (Kept(done) + [e]) + Kept(tail);
    LineMustGive(r, c, done, line, e, target);
  }

  lemma {:induction false} EntriesExact(r: Reader, c: Config, done: seq<Entry>, entries: seq<Entry>, others: Config, pretty: bool, target: Config)
    requires r.section != "" && r.pending == "" && r.config == Built(c, r.section, done) && !HasSection(c, r.section)
    requires Clean(entries) && CleanConfig(others) && DistinctKeys(done + Kept(entries))
    requires OnTheWay(r.config, |c|, done, entries, others, target)
    requires var o := ReadLines(r, Remaining(r.section, entries, others, pretty)); o.Read? && o.reader.config == target
    ensures EntriesSurvive(entries, r.count)
    decreases |entries|
  {
    hide ReadLines, ReadLine, Size, Built, HasSection, Clean, CleanConfig, DistinctKeys, Survives, SavedEntries, SavedEntry, TrimSpace;
    hide OnTheWay, NextCount, EntryLine, EntryOf, EntryReadable, Advances;
    if entries != [] {
      var e, tail := entries[0], entries[1..];
      var rest := "\n" + Saved(NO_COMMENTS, others, pretty);
      EntriesSplit(r.section, entries, pretty, rest);
      if e.key == KEEPER {
        KeeperOnTheWay(r.config, |c|, done, entries, others, target);
        assert [] + Kept(tail) == Kept(tail);
        EntriesExact(r, c, done, tail, others, pretty, target);
      } else {
        var r1 := EntryAdvances(r, r.section, e, pretty, Remaining(r.section, tail, others, pretty));
        EntryKey(e);
        var line := TrimSpace(EntryLine(e, pretty));
        EntryLineHolds(e, pretty);
        assert entries == [e] + tail;
        FirstMustGive(r, c, done, line, e, tail, others, pretty, target);
        EntryReadsBack(e, r.count, pretty);
        EntryReads(r, e, pretty);
        KeysStayDistinct(done, e, Kept(tail));
        SetInBuilt(c, r.section, done, e.key, e.value);
        EntryOnTheWay(c, r.section, done, e, tail, others, target);
        EntriesExact(r1, c, done + [e], tail, others, pretty, target);
      }
    }
  }

  lemma EntryKey(e: Entry)
    requires EntryReadable(e)
    ensures e.key != "" && '\n' !in e.key && '\n' !in e.value
  {
  }

  lemma KeeperOnTheWay(c: Config, at: nat, done: seq<Entry>, entries: seq<Entry>, others: Config, target: Config)
    requires entries != [] && entries[0].key == KEEPER && OnTheWay(c, at, done, entries, others, target)
    ensures OnTheWay(c, at, done, entries[1..], others, target)
  {
    assert Kept(entries) == [] + Kept(entries[1..]) == Kept(entries[1..]);
  }

  lemma EntryOnTheWay(c: Config, section: string, done: seq<Entry>, e: Entry, tail: seq<Entry>, others: Config, target: Config)
    requires e.key != KEEPER && OnTheWay(Built(c, section, done), |c|, done, [e] + tail, others, target)
    ensures OnTheWay(Built(c, section, done + [e]), |c|, done + [e], tail, others, target)
  {
    hide Size, Built;
    SizeBuilt(c, section, done);
    SizeBuilt(c, section, done + [e]);
    KeptMore(done, e);
    assert ([e] + tail)[1..] == tail;
    assert Kept([e] + tail) == [e] + Kept(tail) && Kept([e]) == [e] + Kept([e][1..]);
    assert Kept([e]) == [e];
    hide Kept;
    assert Kept(done) + ([e] + Kept(tail)) == (Kept(done) + [e]) + Kept(tail);
  }

  // Sections

  /** Sections that can be read on top of others, whatever their entries. */
  ghost predicate NewNames(before: Config, c: Config) {
    forall i :: 0 <= i < |c| ==> c[i].name != DEFAULT_SECTION && !HasSection(before, c[i].name)
  }

  predicate AllSurvive(c: Config) {
    forall i :: 0 <= i < |c| ==> EntriesSurvive(c[i].entries, 1)
  }

  lemma FirstAndOthers(before: Config, c: Config)
    requires c != [] && Unique(c) && CleanConfig(c) && NewNames(before, c)
    ensures NameSurvives(c[0].name) && Clean(c[0].entries) && c[0].name != DEFAULT_SECTION && !HasSection(before, c[0].name)
    ensures DistinctKeys(c[0].entries) && Unique(c[1..]) && CleanConfig(c[1..])
    ensures NewNames(before + [ReadBack(c[0])], c[1..])
  {
    hide DistinctKeys, Kept, NameSurvives, Clean;
    forall i | 0 <= i < |c[1..]|
      ensures !HasSection(before + [ReadBack(c[0])], c[1..][i].name) && c[1..][i] == c[i + 1]
    {
      assert c[1..][i] == c[i + 1];
    }
  }

  lemma {:induction false} SectionsExact(r: Reader, c: Config, pretty: bool)
    requires r.pending == "" && Unique(c) && CleanConfig(c) && NewNames(r.config, c)
    requires var o := ReadLines(r, Saved(NO_COMMENTS, c, pretty)); o.Read? && o.reader.config == r.config + AllReadBack(c)
    ensures AllSurvive(c)
    decreases |c|
  {
    hide ReadLines, SavedSection, NameSurvives, EntriesSurvive, DistinctKeys, Unique, CleanConfig, Clean, NewNames, HasSection, Kept;
    if c != [] {
      FirstAndOthers(r.config, c);
      FirstSectionExact(r, c, pretty);
      KeptIsDistinct(c[0].entries);
      SectionReads(r, c[0], pretty, Saved(NO_COMMENTS, c[1..], pretty));
      var r' := r.(config := r.config + [ReadBack(c[0])], section := c[0].name, count := CountAfter(c[0].entries, 1));
      assert r.config + AllReadBack(c) == r'.config + AllReadBack(c[1..]);
      SectionsExact(r', c[1..], pretty);
      assert forall i :: 0 < i < |c| ==> c[i] == c[1..][i - 1];
    }
  }

  lemma FirstSectionExact(r: Reader, c: Config, pretty: bool)
    requires c != [] && r.pending == "" && NameSurvives(c[0].name) && Clean(c[0].entries) && c[0].name != DEFAULT_SECTION
    requires !HasSection(r.config, c[0].name) && DistinctKeys(c[0].entries) && CleanConfig(c[1..])
    requires var o := ReadLines(r, Saved(NO_COMMENTS, c, pretty)); o.Read? && o.reader.config == r.config + AllReadBack(c)
    ensures EntriesSurvive(c[0].entries, 1)
  {
    hide ReadLines, Remaining, HasSection, DistinctKeys, EntriesSurvive, Clean, CleanConfig, Kept, Built, Saved, AllReadBack,
         OnTheWay, NameSurvives;
    var s, others, target := c[0], c[1..], r.config + AllReadBack(c);
    SectionText(c, pretty);
    NamedByItself(s.name);
    HeaderReads(r, s.name, Remaining(s.name, s.entries, others, pretty));
    var keeper := [Entry(KEEPER, KEEPER)];
    var r1 := r.(config := Built(r.config, s.name, keeper), section := s.name, count := 1);
    KeptIsDistinct(s.entries);
    SectionOnTheWay(r.config, c);
    EntriesExact(r1, r.config, keeper, s.entries, others, pretty, target);
  }

  lemma NamedByItself(name: string)
    requires NameSurvives(name)
    ensures name != ""
  {
  }

  lemma SectionText(c: Config, pretty: bool)
    requires c != [] && c[0].name != DEFAULT_SECTION
    ensures Saved(NO_COMMENTS, c, pretty) == Line("[" + c[0].name + "]") + Remaining(c[0].name, c[0].entries, c[1..], pretty)
  {
    hide SavedEntries, Line;
    var header, body := Line("[" + c[0].name + "]"), SavedEntries(NO_COMMENTS, c[0].name, c[0].entries, pretty);
    var rest := Saved(NO_COMMENTS, c[1..], pretty);
    assert SavedHeader(NO_COMMENTS, c[0].name) == "" + header == header;
    assert SavedSection(NO_COMMENTS, c[0], pretty) == header + body + "\n";
    hide Saved;
    assert header + body + "\n" + rest == header + (body + ("\n" + rest));
  }

  lemma SectionOnTheWay(before: Config, c: Config)
    requires c != []
    ensures OnTheWay(Built(before, c[0].name, [Entry(KEEPER, KEEPER)]), |before|, [Entry(KEEPER, KEEPER)], c[0].entries, c[1..],
                     before + AllReadBack(c))
  {
    hide Kept, Size, ReadBack;
    SizeBuilt(before, c[0].name, [Entry(KEEPER, KEEPER)]);
    SizeSum(before, AllReadBack(c));
    SizeReadBack(c);
    KeptReadBack(c[0]);
    NoEntries();
    SizeOf(c);
    assert (before + AllReadBack(c))[|before|] == ReadBack(c[0]);
    assert [] + Kept(c[0].entries) == Kept(c[0].entries);
  }

  lemma NoEntries()
    ensures Kept([Entry(KEEPER, KEEPER)]) == []
  {
    assert Kept([Entry(KEEPER, KEEPER)][1..]) == [];
  }

  lemma SizeOf(c: Config)
    requires c != []
    ensures Size(c) == |Kept(c[0].entries)| + Size(c[1..])
  {
  }

  /** DEFAULT in front, when the text does not begin with a byte order mark. */
  lemma DefaultExact(c: Config, pretty: bool)
    requires c != [] && c[0].name == DEFAULT_SECTION && Unique(c) && CleanConfig(c) && Kept(c[0].entries) != []
    requires var o := ReadLines(NewReader([], NO_COMMENTS), Saved(NO_COMMENTS, c, pretty));
             o.Read? && o.reader.config == AllReadBack(c)
    ensures AllSurvive(c)
  {
    hide ReadLines, SavedEntries, Unique, DistinctKeys, EntriesSurvive, Clean, CleanConfig, Kept, Size, OnTheWay, NewNames;
    var s, others := c[0], c[1..];
    DefaultAndOthers(c);
    DefaultText(c, pretty);
    var r := NewReader([], NO_COMMENTS);
    DefaultOnTheWay(c);
    KeptIsDistinct(s.entries);
    assert [] + Kept(s.entries) == Kept(s.entries);
    EntriesExact(r, [], [], s.entries, others, pretty, AllReadBack(c));
    DefaultReads(s, pretty, Saved(NO_COMMENTS, others, pretty));
    var r' := r.(config := [ReadBack(s)], count := CountAfter(s.entries, 1));
    assert AllReadBack(c) == r'.config + AllReadBack(others);
    SectionsExact(r', others, pretty);
    assert forall i :: 0 < i < |c| ==> c[i] == others[i - 1];
  }

  lemma DefaultText(c: Config, pretty: bool)
    requires c != [] && c[0].name == DEFAULT_SECTION
    ensures Saved(NO_COMMENTS, c, pretty) == Remaining(DEFAULT_SECTION, c[0].entries, c[1..], pretty)
  {
    hide SavedEntries, SavedSection;
    DefaultSection(c[0], pretty);
    var body, rest := SavedEntries(NO_COMMENTS, DEFAULT_SECTION, c[0].entries, pretty), Saved(NO_COMMENTS, c[1..], pretty);
    assert Saved(NO_COMMENTS, c, pretty) == body + "\n" + rest;
    hide Saved;
    Reassociate(body, "\n", rest);
  }

  lemma DefaultOnTheWay(c: Config)
    requires c != []
    ensures OnTheWay([], 0, [], c[0].entries, c[1..], AllReadBack(c))
  {
    hide Size, Kept;
    SizeReadBack(c);
    SizeOf(c);
    KeptReadBack(c[0]);
    NothingKept();
    assert [] + Kept(c[0].entries) == Kept(c[0].entries);
  }

  lemma NothingKept()
    ensures Kept([]) == [] && Size([]) == 0
  {
  }

  lemma DefaultAndOthers(c: Config)
    requires c != [] && c[0].name == DEFAULT_SECTION && Unique(c) && CleanConfig(c)
    ensures Clean(c[0].entries) && DistinctKeys(c[0].entries) && Unique(c[1..]) && CleanConfig(c[1..])
    ensures NewNames([ReadBack(c[0])], c[1..])
  {
    hide DistinctKeys, Kept, NameSurvives, Clean;
    assert forall i :: 0 <= i < |c[1..]| ==> c[1..][i] == c[i + 1];
  }

  // A byte order mark in front

  lemma {:induction false} FirstKept(section: string, entries: seq<Entry>, pretty: bool) returns (tail: seq<Entry>)
    requires Clean(entries) && Kept(entries) != []
    ensures var e := Kept(entries)[0];
            && Kept(entries) == [e] + Kept(tail) && Clean(tail) && EntryReadable(e) && e.key != KEEPER
            && SavedEntries(NO_COMMENTS, section, entries, pretty) ==
               Line(EntryLine(e, pretty)) + SavedEntries(NO_COMMENTS, section, tail, pretty)
  {
    hide EntryLine, EntryReadable, SavedEntry;
    tail := entries[1..];
    EntriesSplit(section, entries, pretty, "");
    var whole := SavedEntries(NO_COMMENTS, section, entries, pretty);
    assert whole + "" == whole;
    if entries[0].key == KEEPER {
      assert Kept(entries) == [] + Kept(tail) == Kept(tail);
      var rest := SavedEntries(NO_COMMENTS, section, tail, pretty);
      assert rest + "" == rest;
      tail := FirstKept(section, entries[1..], pretty);
    } else {
      EntryKey(entries[0]);
      EntryIsItsLine(section, entries[0], pretty);
    }
  }

  /** Without its mark a key is read as another one, or as none. */
  lemma MarkedKeyDiffers(key: string, e: Entry, count: nat, pretty: bool)
    requires e.key == [BYTE_ORDER_MARK] + key && !NeedsQuotes(e.key)
    ensures EntryOf(TrimSpace(key + EqualSign(pretty) + QuotedValue(e.value)), count) != Gives(e)
  {
    var m, w := TrimSpace(key), QuotedValue(e.value);
    assert !NeedsQuotes(key);
    if m == "" {
      BlankKey(key, w, pretty);
      NoKeyInFront(TrimSpace(key + EqualSign(pretty) + w), count);
      return;
    }
    hide TrimSpace, QuotedValue, EntryOf, EqualSign, FromSplit, SplitLine, Decimal;
    var a, b, z := LineOf(key, w, pretty);
    var line := m + b + Sign(pretty) + z;
    assert line[0] == m[0];
    TrimmedEnd(key);
    PartsAreRaw(key, a, m, b);
    if m[0] == '#' || m[0] == ';' || (m[0] == '[' && line[|line| - 1] == ']') {
      IsNoEntry(line, count);
    } else if m[0] == '"' || m[0] == '`' {
      assert e.key == ([BYTE_ORDER_MARK] + a) + m + b;
      LooksQuoted(e, count, [BYTE_ORDER_MARK] + a, m, b, Sign(pretty), z);
    } else {
      PlainSplit(m, b, pretty, z);
      IsSplit(line, count);
      assert |m| <= |key| < |e.key|;
      OtherKey(Split(m, z), count, e);
    }
  }

  lemma NoKeyInFront(line: string, count: nat)
    requires line != "" && line[0] == '='
    ensures EntryOf(line, count) == NoEntry
  {
  }

  lemma OtherKey(split: Split, count: nat, e: Entry)
    requires split.Split? && |split.key| < |e.key| && e.key[0] == BYTE_ORDER_MARK
    ensures FromSplit(split, count) != Gives(e)
  {
    hide ReadValue, Decimal;
    assert ("#" + Decimal(count))[0] == '#';
  }

  lemma MarkedText(c: Config, e: Entry, tail: seq<Entry>, pretty: bool)
    requires c != [] && c[0].name == DEFAULT_SECTION && e.key != "" && LosesMark(e.key)
    requires SavedEntries(NO_COMMENTS, DEFAULT_SECTION, c[0].entries, pretty) ==
             Line(EntryLine(e, pretty)) + SavedEntries(NO_COMMENTS, DEFAULT_SECTION, tail, pretty)
    ensures e.key[0] == BYTE_ORDER_MARK && e.key == [BYTE_ORDER_MARK] + e.key[1..]
    ensures var line := e.key[1..] + EqualSign(pretty) + QuotedValue(e.value);
            && EntryLine(e, pretty) == [BYTE_ORDER_MARK] + line
            && Saved(NO_COMMENTS, c, pretty) == [BYTE_ORDER_MARK] + (Line(line) + Remaining(DEFAULT_SECTION, tail, c[1..], pretty))
  {
    hide SavedEntries, Saved, QuotedValue;
    DefaultText(c, pretty);
    var line := e.key[1..] + EqualSign(pretty) + QuotedValue(e.value);
    assert e.key[..1] == [e.key[0]];
    assert KeyName(e.key) == e.key;
    assert EntryLine(e, pretty) == [BYTE_ORDER_MARK] + line;
    var more, rest := SavedEntries(NO_COMMENTS, DEFAULT_SECTION, tail, pretty), "\n" + Saved(NO_COMMENTS, c[1..], pretty);
    hide EntryLine, EqualSign;
    MarkInFront(line, more, rest);
  }

  lemma MarkInFront(line: string, more: string, rest: string)
    ensures Line([BYTE_ORDER_MARK] + line) + more + rest == [BYTE_ORDER_MARK] + (Line(line) + (more + rest))
  {
  }

  /** A configuration whose text begins with a byte order mark is not read back. */
  lemma MarkIsMissed(c: Config, pretty: bool)
    requires c != [] && c[0].name == DEFAULT_SECTION && CleanConfig(c) && Unique(c)
    requires Kept(c[0].entries) != [] && LosesMark(Kept(c[0].entries)[0].key)
    ensures var o := ReadText([], NO_COMMENTS, Saved(NO_COMMENTS, c, pretty)); !(o.Read? && o.reader.config == AllReadBack(c))
  {
    hide Saved, ReadLines, ReadLine, EntryOf, TrimSpace, Unique, CleanConfig, Clean, OnTheWay, Remaining, QuotedValue,
         SavedEntries, EntryLine;
    DefaultAndOthers(c);
    var e := Kept(c[0].entries)[0];
    var tail := FirstKept(DEFAULT_SECTION, c[0].entries, pretty);
    EntryKey(e);
    MarkedText(c, e, tail, pretty);
    var line := e.key[1..] + EqualSign(pretty) + QuotedValue(e.value);
    EntryLineHasNoBreak(e, pretty);
    assert '\n' !in line by {
      assert forall x :: x in line ==> x in EntryLine(e, pretty);
    }
    var r := NewReader([], NO_COMMENTS);
    var rest := Remaining(DEFAULT_SECTION, tail, c[1..], pretty);
    LineReads(r, line, rest);
    assert ReadText([], NO_COMMENTS, Saved(NO_COMMENTS, c, pretty)) == ReadLines(r, Line(line) + rest);
    MarkedKeyDiffers(e.key[1..], e, 1, pretty);
    EntryLineHolds(e, pretty);
    SignStays(line);
    DefaultOnTheWay(c);
    FirstOnTheWay(c, e, tail);
    if ReadLines(r, Line(line) + rest).Read? && ReadLines(r, Line(line) + rest).reader.config == AllReadBack(c) {
      FirstMustGive(r, [], [], TrimSpace(line), e, tail, c[1..], pretty, AllReadBack(c));
    }
  }

  lemma SignStays(line: string)
    requires '=' in line
    ensures '=' in TrimSpace(line)
  {
    hide TrimSpace;
    var a, b := TrimSplits(line);
    assert line == a + TrimSpace(line) + b;
    SpaceIsNoSign(a);
    SpaceIsNoSign(b);
  }

  lemma FirstOnTheWay(c: Config, e: Entry, tail: seq<Entry>)
    requires c != [] && e.key != KEEPER && Kept(c[0].entries) == [e] + Kept(tail)
    requires OnTheWay([], 0, [], c[0].entries, c[1..], AllReadBack(c))
    ensures OnTheWay([], 0, [], [e] + tail, c[1..], AllReadBack(c))
  {
    hide Size, AllReadBack;
    assert ([e] + tail)[1..] == tail;
  }

  // DEFAULT behind other sections

  /** After the first header, no line of a saved configuration makes a section DEFAULT. */
  lemma LateDefaultIsLost(c: Config, pretty: bool)
    requires c != [] && c[0].name != DEFAULT_SECTION && CleanConfig(c)
    requires ReadLines(NewReader([], NO_COMMENTS), Saved(NO_COMMENTS, c, pretty)).Read?
    ensures !HasSection(ReadLines(NewReader([], NO_COMMENTS), Saved(NO_COMMENTS, c, pretty)).reader.config, DEFAULT_SECTION)
  {
    hide ReadLines, Saved, Remaining, Clean, Grown, Size, Kept;
    var r := NewReader([], NO_COMMENTS);
    SectionText(c, pretty);
    var rest := Remaining(c[0].name, c[0].entries, c[1..], pretty);
    HeaderReads(r, c[0].name, rest);
    var keeper := [Entry(KEEPER, KEEPER)];
    var r1 := r.(config := Built([], c[0].name, keeper), section := c[0].name, count := 1);
    assert Named(r1);
    assert forall i :: 0 <= i < |c[1..]| ==> c[1..][i] == c[i + 1];
    RemainingAdvances(r1, c[0].name, c[0].entries, c[1..], pretty);
  }

  // The equivalence

  lemma SectionIsClean(s: Section)
    requires SectionReadable(ReadBack(s))
    ensures NameSurvives(s.name) && Clean(s.entries) && (s.name == DEFAULT_SECTION ==> Kept(s.entries) != [])
  {
    hide EntryReadable, Kept, NameSurvives;
    var all := ReadBack(s).entries;
    forall i | 0 <= i < |s.entries| && s.entries[i].key != KEEPER
      ensures EntryReadable(s.entries[i])
    {
      KeptKeys(s.entries, s.entries[i]);
      var k :| 0 <= k < |Kept(s.entries)| && Kept(s.entries)[k] == s.entries[i];
      assert all[if s.name == DEFAULT_SECTION then k else k + 1] == s.entries[i];
    }
  }

  lemma {:induction false} ReadBackAt(c: Config, i: nat)
    requires i < |c|
    ensures |AllReadBack(c)| == |c| && AllReadBack(c)[i] == ReadBack(c[i])
  {
    hide Kept, ReadBack;
    if i > 0 {
      ReadBackAt(c[1..], i - 1);
    } else if c[1..] != [] {
      ReadBackAt(c[1..], 0);
    }
  }

  /** What could have been read has proper names, keys and values, and a DEFAULT that is not empty. */
  lemma ReadBackIsClean(c: Config)
    requires Readable(AllReadBack(c))
    ensures CleanConfig(c)
    ensures forall i :: 0 <= i < |c| && c[i].name == DEFAULT_SECTION ==> Kept(c[i].entries) != []
  {
    hide Kept, SectionReadable, NameSurvives, Clean, AllReadBack, ReadBack;
    forall i | 0 <= i < |c|
      ensures NameSurvives(c[i].name) && Clean(c[i].entries) && (c[i].name == DEFAULT_SECTION ==> Kept(c[i].entries) != [])
    {
      ReadBackAt(c, i);
      SectionIsClean(c[i]);
    }
  }

  /** Only what survives is read back. */
  lemma OnlySurvivorsReadBack(c: Config, pretty: bool)
    requires Unique(c)
    requires var o := ReadText([], NO_COMMENTS, Saved(NO_COMMENTS, c, pretty)); o.Read? && o.reader.config == AllReadBack(c)
    ensures ConfigSurvives(c)
  {
    hide Saved, ReadLines, EntriesSurvive, DistinctKeys, Kept, LosesMark, AllReadBack, Readable, Clean, NameSurvives;
    ReadTextReadable(Saved(NO_COMMENTS, c, pretty));
    ReadBackIsClean(c);
    if c != [] {
      if c[0].name == DEFAULT_SECTION {
        DefaultInFront(c, pretty);
      } else {
        HeaderInFront(c, pretty);
      }
    }
  }

  lemma DefaultInFront(c: Config, pretty: bool)
    requires c != [] && c[0].name == DEFAULT_SECTION && Unique(c) && CleanConfig(c) && Kept(c[0].entries) != []
    requires var o := ReadText([], NO_COMMENTS, Saved(NO_COMMENTS, c, pretty)); o.Read? && o.reader.config == AllReadBack(c)
    ensures AllSurvive(c) && !LosesMark(Kept(c[0].entries)[0].key)
    ensures forall i :: 0 < i < |c| ==> c[i].name != DEFAULT_SECTION
  {
    hide Saved, ReadLines, AllSurvive, DistinctKeys, Kept, LosesMark, AllReadBack, Clean, NameSurvives, SavedEntries;
    if LosesMark(Kept(c[0].entries)[0].key) {
      MarkIsMissed(c, pretty);
    }
    FirstKeyLeads(c, pretty);
    DefaultExact(c, pretty);
  }

  lemma FirstKeyLeads(c: Config, pretty: bool)
    requires c != [] && c[0].name == DEFAULT_SECTION && CleanConfig(c) && Kept(c[0].entries) != []
    ensures var text := Saved(NO_COMMENTS, c, pretty);
            text != "" && (text[0] == BYTE_ORDER_MARK <==> LosesMark(Kept(c[0].entries)[0].key))
  {
    hide SavedEntries, Saved, EntryLine, LosesMark, Kept, EntryReadable;
    DefaultText(c, pretty);
    var _ := FirstKept(DEFAULT_SECTION, c[0].entries, pretty);
    EntryKey(Kept(c[0].entries)[0]);
    FirstEntryLeads(c[0].entries, DEFAULT_SECTION, pretty);
  }

  lemma NameReadBack(s: Section)
    ensures ReadBack(s).name == s.name
  {
  }

  lemma HeaderInFront(c: Config, pretty: bool)
    requires c != [] && c[0].name != DEFAULT_SECTION && Unique(c) && CleanConfig(c)
    requires var o := ReadText([], NO_COMMENTS, Saved(NO_COMMENTS, c, pretty)); o.Read? && o.reader.config == AllReadBack(c)
    ensures AllSurvive(c) && forall i :: 0 <= i < |c| ==> c[i].name != DEFAULT_SECTION
  {
    hide Saved, ReadLines, AllSurvive, DistinctKeys, AllReadBack, Clean, NameSurvives, Remaining, ReadBack;
    SectionText(c, pretty);
    assert Saved(NO_COMMENTS, c, pretty)[0] == '[';
    var r := NewReader([], NO_COMMENTS);
    LateDefaultIsLost(c, pretty);
    forall i | 0 <= i < |c|
      ensures c[i].name != DEFAULT_SECTION
    {
      ReadBackAt(c, i);
      NameReadBack(c[i]);
      assert AllReadBack(c)[i].name != DEFAULT_SECTION;
    }
    assert [] + AllReadBack(c) == AllReadBack(c);
    SectionsExact(r, c, pretty);
  }

  /**
   * Exactly the configurations that survive are read back, section by section and key by key: with any other one
   * the reader fails, or reads something else.
   */
  lemma SavedExact(c: Config, pretty: bool)
    requires Unique(c)
    ensures var o := ReadText([], NO_COMMENTS, Saved(NO_COMMENTS, c, pretty));
            o.Read? && o.reader.config == AllReadBack(c) <==> ConfigSurvives(c)
  {
    hide ReadText, Saved, ConfigSurvives, AllReadBack, Unique;
    var o := ReadText([], NO_COMMENTS, Saved(NO_COMMENTS, c, pretty));
    if ConfigSurvives(c) {
      SavedReadsBack(c, pretty);
    }
    if o.Read? && o.reader.config == AllReadBack(c) {
      OnlySurvivorsReadBack(c, pretty);
    }
  }
}
