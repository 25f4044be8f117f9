/** Which comments are read back with a configuration, and what they do to the rest of it. */
module ConfigComments {
  import opened ConfigText
  import opened ConfigFiles
  import opened ConfigRoundTrip
  import opened ConfigExact
  import opened ConfigEquivalence

  predicate IsCommentLine(line: string) {
    line != "" && Trimmed(line) && (line[0] == '#' || line[0] == ';') && '\n' !in line
  }

  /** Every line of the comment is one to the reader too, and nothing of it is trimmed. */
  predicate WellFormed(t: string)
    decreases |t|
  {
    var n := Index(t, "\n");
    if n == -1 then IsCommentLine(t) else IsCommentLine(t[..n]) && WellFormed(t[n + 1..])
  }

  predicate Fits(t: string) {
    t == "" || WellFormed(t)
  }

  ghost predicate AllFit(m: Comments) {
    && (forall s :: Fits(SectionComments(m, s)))
    && (forall s, k :: Fits(KeyComments(m, s, k)))
  }

  function Joined(pending: string, t: string): string {
    if pending == "" then t else if t == "" then pending else pending + "\n" + t
  }

  /** The first line of a text and the rest. */
  lemma LinesSplit(line: string, rest: string)
    requires '\n' !in line
    ensures WellFormed(line + "\n" + rest) <==> IsCommentLine(line) && WellFormed(rest)
  {
    hide IsCommentLine, Index;
    IndexOfChar(line, '\n', rest);
    var t := line + "\n" + rest;
    assert t == line + ['\n'] + rest;
    assert t[..|line|] == line && t[|line| + 1..] == rest;
  }

  lemma FirstLine(t: string)
    ensures var n := Index(t, "\n");
            if n == -1 then '\n' !in t
            else n < |t| && '\n' !in t[..n] && |t[n + 1..]| < |t| && t == t[..n] + "\n" + t[n + 1..]
  {
    FirstBreak(t);
    var n := Index(t, "\n");
    if n != -1 {
      assert t[n..][..1] == "\n";
      assert t[n] == '\n';
    }
  }

  lemma {:induction false} JoinedFits(a: string, b: string)
    requires WellFormed(a) && WellFormed(b)
    ensures WellFormed(a + "\n" + b)
    decreases |a|
  {
    FirstLine(a);
    var n := Index(a, "\n");
    if n == -1 {
      LinesSplit(a, b);
    } else {
      hide Index, WellFormed, IsCommentLine;
      var head, tail := a[..n], a[n + 1..];
      LinesSplit(head, tail);
      JoinedFits(tail, b);
      LinesSplit(head, tail + "\n" + b);
      ThreeLines(head, tail, b);
    }
  }

  lemma ThreeLines(a: string, b: string, c: string)
    ensures a + "\n" + b + "\n" + c == a + "\n" + (b + "\n" + c)
  {
  }

  lemma FormedBegins(t: string)
    requires WellFormed(t)
    ensures t != "" && (t[0] == '#' || t[0] == ';') && Commented(t) == t
  {
    if Index(t, "\n") != -1 {
      assert t[..Index(t, "\n")][0] == t[0];
    }
  }

  // Looking comments up

  lemma SectionLookup(m: Comments, section: string, t: string, s: string, k: string)
    requires WellFormed(t)
    ensures var m' := SetSectionComments(m, section, t);
            && SectionComments(m', s) == (if NotBlank(s) == NotBlank(section) then t else SectionComments(m, s))
            && KeyComments(m', s, k) == KeyComments(m, s, k)
  {
    FormedBegins(t);
    hide WellFormed, Commented;
  }

  lemma KeyLookup(m: Comments, section: string, key: string, t: string, s: string, k: string)
    requires WellFormed(t)
    ensures var m' := SetKeyComments(m, section, key, t);
            && SectionComments(m', s) == SectionComments(m, s)
            && KeyComments(m', s, k) == (if NotBlank(s) == NotBlank(section) && k == key then t else KeyComments(m, s, k))
  {
    FormedBegins(t);
    hide WellFormed, Commented;
  }

  // What a reader can put into the comments

  ghost predicate NotesOk(r: Reader) {
    AllFit(r.comments) && Fits(r.pending)
  }

  lemma NotesFitAfter(m: Comments, section: string, key: string, t: string)
    requires AllFit(m) && WellFormed(t)
    ensures AllFit(SetSectionComments(m, section, t)) && AllFit(SetKeyComments(m, section, key, t))
  {
    hide WellFormed, SetSectionComments, SetKeyComments, SectionComments, KeyComments, NotBlank;
    var m1, m2 := SetSectionComments(m, section, t), SetKeyComments(m, section, key, t);
    forall s
      ensures Fits(SectionComments(m1, s)) && Fits(SectionComments(m2, s))
    {
      SectionLookup(m, section, t, s, "");
      KeyLookup(m, section, key, t, s, "");
    }
    forall s, k
      ensures Fits(KeyComments(m1, s, k)) && Fits(KeyComments(m2, s, k))
    {
      SectionLookup(m, section, t, s, k);
      KeyLookup(m, section, key, t, s, k);
    }
  }

  lemma LineNotes(r: Reader, line: string)
    requires NotesOk(r) && Trimmed(line) && '\n' !in line && ReadLine(r, line).Read?
    ensures NotesOk(ReadLine(r, line).reader)
  {
    hide SetValue, SplitLine, ReadValue, TrimSpace, Decimal, AllFit, SetSectionComments, SetKeyComments;
    if line != "" {
      if line[0] == '#' || line[0] == ';' {
        NoBreakIn(line);
        assert WellFormed(line);
        if r.pending != "" {
          JoinedFits(r.pending, line);
        }
      } else if r.pending != "" {
        hide WellFormed;
        if line[0] == '[' && line[|line| - 1] == ']' {
          NotesFitAfter(r.comments, TrimSpace(line[1..|line| - 1]), "", r.pending);
        } else {
          var split := SplitLine(line);
          var key := if split.key == "-" then "#" + Decimal(r.count) else split.key;
          NotesFitAfter(r.comments, r.section, key, r.pending);
        }
      }
    }
  }

  lemma NoBreakIn(line: string)
    requires '\n' !in line
    ensures Index(line, "\n") == -1
  {
    NoCharNoIndex(line, '\n');
  }

  lemma {:induction false} LinesNotes(r: Reader, text: string)
    requires NotesOk(r) && ReadLines(r, text).Read?
    ensures NotesOk(ReadLines(r, text).reader)
    decreases |text|
  {
    hide NotesOk, ReadLine, TrimSpace;
    FirstBreak(text);
    var n := Index(text, "\n");
    if n == -1 {
      TrimKeepsLine(text);
      LineNotes(r, TrimSpace(text));
    } else {
      TrimKeepsLine(text[..n]);
      LineNotes(r, TrimSpace(text[..n]));
      LinesNotes(ReadLine(r, TrimSpace(text[..n])).reader, text[n + 1..]);
    }
  }

  // Comments and the rest

  function Quiet(r: Reader): Reader {
    r.(comments := NO_COMMENTS, pending := "")
  }

  function Quieted(o: Outcome): Outcome {
    if o.Failed? then o else Read(Quiet(o.reader))
  }

  lemma LineIsQuiet(r: Reader, line: string)
    ensures Quieted(ReadLine(r, line)) == Quieted(ReadLine(Quiet(r), line))
  {
    hide SetValue, SplitLine, ReadValue, TrimSpace, Decimal, SetSectionComments, SetKeyComments;
  }

  /** The two texts put the same into a configuration, whatever they do to its comments. */
  ghost predicate Alike(text: string, text': string) {
    forall r :: Quieted(ReadLines(r, text)) == Quieted(ReadLines(Quiet(r), text'))
  }

  lemma NothingAlike()
    ensures Alike("", "")
  {
    forall r
      ensures Quieted(ReadLines(r, "")) == Quieted(ReadLines(Quiet(r), ""))
    {
      NothingReads(r);
      NothingReads(Quiet(r));
    }
  }

  lemma LinesAlike(line: string, text: string, text': string)
    requires '\n' !in line && Alike(text, text')
    ensures Alike(Line(line) + text, Line(line) + text')
  {
    hide ReadLines, ReadLine, TrimSpace;
    forall r
      ensures Quieted(ReadLines(r, Line(line) + text)) == Quieted(ReadLines(Quiet(r), Line(line) + text'))
    {
      LineReads(r, line, text);
      LineReads(Quiet(r), line, text');
      LineIsQuiet(r, TrimSpace(line));
      var o := ReadLine(r, TrimSpace(line));
      var o' := ReadLine(Quiet(r), TrimSpace(line));
      if o.Read? {
        assert Quiet(o.reader) == Quiet(o'.reader);
        assert Quieted(ReadLines(o.reader, text)) == Quieted(ReadLines(Quiet(o.reader), text'));
        LinesAreQuiet(o'.reader, text');
      }
    }
  }

  lemma {:induction false} LinesAreQuiet(r: Reader, text: string)
    ensures Quieted(ReadLines(r, text)) == Quieted(ReadLines(Quiet(r), text))
    decreases |text|
  {
    hide ReadLine, TrimSpace;
    var n := Index(text, "\n");
    if n == -1 {
      LineIsQuiet(r, TrimSpace(text));
    } else {
      LineIsQuiet(r, TrimSpace(text[..n]));
      var o, o' := ReadLine(r, TrimSpace(text[..n])), ReadLine(Quiet(r), TrimSpace(text[..n]));
      if o.Read? {
        LinesAreQuiet(o.reader, text[n + 1..]);
        LinesAreQuiet(o'.reader, text[n + 1..]);
        assert Quiet(o.reader) == Quiet(o'.reader);
      }
    }
  }

  /** A well-formed comment is gathered, behind what was gathered before. */
  lemma {:induction false} CommentReads(r: Reader, t: string, text: string)
    requires WellFormed(t)
    ensures ReadLines(r, Line(t) + text) == ReadLines(r.(pending := Joined(r.pending, t)), text)
    decreases |t|
  {
    FormedBegins(t);
    FirstBreak(t);
    var n := Index(t, "\n");
    if n == -1 {
      CommentLineReads(r, t, text);
    } else {
      var line, rest := t[..n], t[n + 1..];
      assert t[n..][..1] == "\n";
      assert t[n] == '\n';
      assert t == line + "\n" + rest;
      hide ReadLines, WellFormed, IsCommentLine;
      assert Line(t) + text == Line(line) + (Line(rest) + text);
      CommentLineReads(r, line, Line(rest) + text);
      var r1 := r.(pending := Joined(r.pending, line));
      CommentReads(r1, rest, text);
      FormedBegins(rest);
      JoinsOn(r.pending, line, rest);
      assert r1.(pending := Joined(r1.pending, rest)) == r.(pending := Joined(r.pending, t));
    }
  }

  lemma JoinsOn(p: string, a: string, b: string)
    requires a != "" && b != ""
    ensures Joined(Joined(p, a), b) == Joined(p, a + "\n" + b)
  {
    assert p + "\n" + a + "\n" + b == p + "\n" + (a + "\n" + b);
  }

  lemma CommentLineReads(r: Reader, line: string, text: string)
    requires IsCommentLine(line)
    ensures line != "" && ReadLines(r, Line(line) + text) == ReadLines(r.(pending := Joined(r.pending, line)), text)
  {
    LineReads(r, line, text);
    TrimSame(line);
    hide ReadLines, TrimSpace, Trimmed;
  }

  lemma CommentAlike(t: string, text: string, text': string)
    requires WellFormed(t) && Alike(text, text')
    ensures Alike(Line(t) + text, text')
  {
    hide ReadLines, WellFormed, Joined;
    forall r
      ensures Quieted(ReadLines(r, Line(t) + text)) == Quieted(ReadLines(Quiet(r), text'))
    {
      CommentReads(r, t, text);
      var r1 := r.(pending := Joined(r.pending, t));
      assert Quieted(ReadLines(r1, text)) == Quieted(ReadLines(Quiet(r1), text'));
    }
  }

  /** A comment in front of a line, if there is one. */
  function Noted(t: string): string {
    if t == "" then "" else Line(t)
  }

  lemma NotedAlike(t: string, text: string, text': string)
    requires Fits(t) && Alike(text, text')
    ensures Alike(Noted(t) + text, text')
  {
    hide Alike, WellFormed;
    if t == "" {
      assert "" + text == text;
    } else {
      CommentAlike(t, text, text');
    }
  }

  lemma EntryText(m: Comments, section: string, e: Entry, pretty: bool)
    requires e.key != "" && e.key != KEEPER
    ensures SavedEntry(m, section, e, pretty) == Noted(KeyComments(m, section, e.key)) + Line(EntryLine(e, pretty))
  {
    hide EntryLine, KeyComments;
  }

  lemma {:induction false} EntriesAlike(m: Comments, section: string, entries: seq<Entry>, pretty: bool, text: string, text': string)
    requires AllFit(m) && Clean(entries) && Alike(text, text')
    ensures Alike(SavedEntries(m, section, entries, pretty) + text, SavedEntries(NO_COMMENTS, section, entries, pretty) + text')
    decreases |entries|
  {
    hide Alike, SavedEntry, EntryReadable, EntryLine, KeyComments;
    if entries == [] {
      assert "" + text == text && "" + text' == text';
    } else {
      var e, rest := entries[0], entries[1..];
      EntriesSplit(section, entries, pretty, text');
      EntriesAlike(m, section, rest, pretty, text, text');
      var more, more' := SavedEntries(m, section, rest, pretty) + text, SavedEntries(NO_COMMENTS, section, rest, pretty) + text';
      assert SavedEntries(m, section, entries, pretty) + text == SavedEntry(m, section, e, pretty) + more;
      if e.key == KEEPER {
        KeeperHasNoText(m, section, e, pretty);
        assert "" + more == more;
      } else {
        EntryKey(e);
        EntryIsItsLine(section, e, pretty);
        EntryText(m, section, e, pretty);
        EntryLineHasNoBreak(e, pretty);
        LinesAlike(EntryLine(e, pretty), more, more');
        NotedAlike(KeyComments(m, section, e.key), Line(EntryLine(e, pretty)) + more, Line(EntryLine(e, pretty)) + more');
        Reassociate(Noted(KeyComments(m, section, e.key)), Line(EntryLine(e, pretty)), more);
      }
    }
  }

  lemma KeeperHasNoText(m: Comments, section: string, e: Entry, pretty: bool)
    requires e.key == KEEPER
    ensures SavedEntry(m, section, e, pretty) == ""
  {
  }

  /** A section's text behind its header, and the sections behind it. */
  function Behind(m: Comments, section: string, entries: seq<Entry>, others: Config, pretty: bool): string {
    SavedEntries(m, section, entries, pretty) + ("\n" + Saved(m, others, pretty))
  }

  lemma BehindAlike(m: Comments, section: string, entries: seq<Entry>, others: Config, pretty: bool)
    requires AllFit(m) && Clean(entries) && Alike(Saved(m, others, pretty), Saved(NO_COMMENTS, others, pretty))
    ensures Alike(Behind(m, section, entries, others, pretty), Remaining(section, entries, others, pretty))
  {
    hide Alike, Saved, SavedEntries, Clean;
    var text, text' := Saved(m, others, pretty), Saved(NO_COMMENTS, others, pretty);
    assert Line("") == "\n";
    LinesAlike("", text, text');
    EntriesAlike(m, section, entries, pretty, "\n" + text, "\n" + text');
  }

  function HeaderText(section: string): string {
    if section == DEFAULT_SECTION then "" else Line("[" + section + "]")
  }

  lemma ConfigTextIs(m: Comments, c: Config, pretty: bool)
    requires c != []
    ensures Saved(m, c, pretty) ==
            Noted(SectionComments(m, c[0].name)) + (HeaderText(c[0].name) + Behind(m, c[0].name, c[0].entries, c[1..], pretty))
  {
    var body, rest := SavedEntries(m, c[0].name, c[0].entries, pretty), Saved(m, c[1..], pretty);
    SectionTextIs(m, c[0], pretty);
    hide SavedEntries, SectionComments, SavedSection, Noted, HeaderText;
    assert Saved(m, c, pretty) == SavedSection(m, c[0], pretty) + rest;
    hide Saved;
    FourParts(Noted(SectionComments(m, c[0].name)), HeaderText(c[0].name), body, rest);
  }

  lemma SectionTextIs(m: Comments, s: Section, pretty: bool)
    ensures SavedSection(m, s, pretty) ==
            Noted(SectionComments(m, s.name)) + HeaderText(s.name) + SavedEntries(m, s.name, s.entries, pretty) + "\n"
  {
    hide SavedEntries, SectionComments;
  }

  lemma FourParts(a: string, b: string, c: string, d: string)
    ensures a + b + c + "\n" + d == a + (b + (c + ("\n" + d)))
  {
  }

  lemma NoSectionComments(section: string)
    ensures SectionComments(NO_COMMENTS, section) == "" && Noted("") == ""
  {
  }

  lemma NothingBehind(c: Config, pretty: bool)
    requires c != []
    ensures Behind(NO_COMMENTS, c[0].name, c[0].entries, c[1..], pretty) == Remaining(c[0].name, c[0].entries, c[1..], pretty)
  {
  }

  /** Well-formed comments change nothing about sections, keys and values. */
  lemma {:induction false} SavedAlike(m: Comments, c: Config, pretty: bool)
    requires AllFit(m) && CleanConfig(c)
    ensures Alike(Saved(m, c, pretty), Saved(NO_COMMENTS, c, pretty))
    decreases |c|
  {
    hide Alike, AllFit, Clean, SavedSection, NameSurvives, Behind, Remaining;
    if c == [] {
      NothingAlike();
    } else {
      assert forall i :: 0 <= i < |c[1..]| ==> c[1..][i] == c[i + 1];
      SavedAlike(m, c[1..], pretty);
      BehindAlike(m, c[0].name, c[0].entries, c[1..], pretty);
      HeaderAlike(m, c, pretty);
    }
  }

  lemma HeaderAlike(m: Comments, c: Config, pretty: bool)
    requires c != [] && AllFit(m) && NameSurvives(c[0].name)
    requires Alike(Behind(m, c[0].name, c[0].entries, c[1..], pretty), Remaining(c[0].name, c[0].entries, c[1..], pretty))
    ensures Alike(Saved(m, c, pretty), Saved(NO_COMMENTS, c, pretty))
  {
    hide Alike, Saved, Behind, Remaining, SectionComments, Noted;
    var name := c[0].name;
    var body, body' := Behind(m, name, c[0].entries, c[1..], pretty), Remaining(name, c[0].entries, c[1..], pretty);
    ConfigTextIs(m, c, pretty);
    ConfigTextIs(NO_COMMENTS, c, pretty);
    NoSectionComments(name);
    assert Behind(NO_COMMENTS, name, c[0].entries, c[1..], pretty) == body' by { NothingBehind(c, pretty); }
    assert "" + (HeaderText(name) + body') == HeaderText(name) + body';
    if name == DEFAULT_SECTION {
      assert "" + body == body && "" + body' == body';
    } else {
      LinesAlike("[" + name + "]", body, body');
    }
    NotedAlike(SectionComments(m, name), HeaderText(name) + body, HeaderText(name) + body');
  }

  // The comments of what survives

  function WithKey(n: Comments, section: string, key: string, t: string): Comments {
    if t == "" then n else SetKeyComments(n, section, key, t)
  }

  function WithSection(n: Comments, section: string, t: string): Comments {
    if t == "" then n else SetSectionComments(n, section, t)
  }

  datatype Gathered = Gathered(notes: Comments, pending: string)

  /** The comments after a section's keys: what is pending goes to the first key. */
  function EntryNotes(g: Gathered, m: Comments, section: string, entries: seq<Entry>): Gathered
    decreases |entries|
  {
    if entries == [] then g
    else if entries[0].key == KEEPER then EntryNotes(g, m, section, entries[1..])
    else
      var t := Joined(g.pending, KeyComments(m, section, entries[0].key));
      EntryNotes(Gathered(WithKey(g.notes, section, entries[0].key, t), ""), m, section, entries[1..])
  }

  /** The comments after sections with headers. */
  function SectionNotes(g: Gathered, m: Comments, c: Config): Gathered
    decreases |c|
  {
    if c == [] then g
    else
      var t := Joined(g.pending, SectionComments(m, c[0].name));
      SectionNotes(EntryNotes(Gathered(WithSection(g.notes, c[0].name, t), ""), m, c[0].name, c[0].entries), m, c[1..])
  }

  function Gathering(r: Reader): Gathered {
    Gathered(r.comments, r.pending)
  }

  function Noting(r: Reader, g: Gathered): Reader {
    r.(comments := g.notes, pending := g.pending)
  }

  lemma NoteReads(r: Reader, t: string, text: string)
    requires Fits(t)
    ensures ReadLines(r, Noted(t) + text) == ReadLines(r.(pending := Joined(r.pending, t)), text)
  {
    hide ReadLines, WellFormed;
    if t == "" {
      assert "" + text == text && r.(pending := r.pending) == r;
    } else {
      CommentReads(r, t, text);
    }
  }

  lemma SavedEntryNoted(r: Reader, c: Config, done: seq<Entry>, e: Entry, m: Comments, pretty: bool, text: string)
    requires r.section != "" && r.config == Built(c, r.section, done) && !HasSection(c, r.section)
    requires Survives(e, r.count) && e.key != KEEPER && !HasKey(done, e.key) && Fits(KeyComments(m, r.section, e.key))
    ensures ReadLines(r, SavedEntry(m, r.section, e, pretty) + text) ==
            ReadLines(Noting(r.(config := Built(c, r.section, done + [e]), count := NextCount(e.key, r.count)),
                             EntryNotes(Gathering(r), m, r.section, [e])), text)
  {
    hide Survives, EntryLine, SetIn, ReadLines, ReadLine, TrimSpace, Built, HasSection, HasKey, WellFormed, KeyComments;
    NotEmptyKey(e, r.count);
    var note, line := KeyComments(m, r.section, e.key), EntryLine(e, pretty);
    EntryText(m, r.section, e, pretty);
    Reassociate(Noted(note), Line(line), text);
    NoteReads(r, note, Line(line) + text);
    var r1 := r.(pending := Joined(r.pending, note));
    NotedEntryReads(r1, e, pretty);
    EntryLineHasNoBreak(e, pretty);
    SetInBuilt(c, r.section, done, e.key, e.value);
    LineReads(r1, line, text);
    assert [e][1..] == [];
  }

  lemma OneByOne(g: Gathered, m: Comments, section: string, entries: seq<Entry>)
    requires entries != [] && entries[0].key != KEEPER
    ensures EntryNotes(g, m, section, entries) == EntryNotes(EntryNotes(g, m, section, [entries[0]]), m, section, entries[1..])
  {
    assert [entries[0]][1..] == [];
  }

  lemma {:induction false} EntriesNoted(r: Reader, c: Config, done: seq<Entry>, entries: seq<Entry>, m: Comments, pretty: bool, text: string)
    requires r.section != "" && r.config == Built(c, r.section, done) && !HasSection(c, r.section)
    requires EntriesSurvive(entries, r.count) && DistinctKeys(done + Kept(entries)) && AllFit(m)
    ensures ReadLines(r, SavedEntries(m, r.section, entries, pretty) + text) ==
            ReadLines(Noting(r.(config := Built(c, r.section, done + Kept(entries)), count := CountAfter(entries, r.count)),
                             EntryNotes(Gathering(r), m, r.section, entries)), text)
    decreases |entries|
  {
    hide SavedEntry, Survives, ReadLines, Built, HasSection, HasKey, DistinctKeys, WellFormed, KeyComments;
    if entries == [] {
      assert done + [] == done && "" + text == text;
      assert Noting(r.(config := r.config, count := r.count), Gathering(r)) == r;
    } else {
      var e, rest := entries[0], entries[1..];
      var first, more := SavedEntry(m, r.section, e, pretty), SavedEntries(m, r.section, rest, pretty);
      assert first + more + text == first + (more + text);
      if e.key == KEEPER {
        KeeperHasNoText(m, r.section, e, pretty);
        assert first + (more + text) == more + text && [] + Kept(rest) == Kept(rest);
        EntriesNoted(r, c, done, rest, m, pretty, text);
      } else {
        KeysStayDistinct(done, e, Kept(rest));
        SavedEntryNoted(r, c, done, e, m, pretty, more + text);
        OneByOne(Gathering(r), m, r.section, entries);
        hide EntryNotes;
        var r' := Noting(r.(config := Built(c, r.section, done + [e]), count := NextCount(e.key, r.count)),
                         EntryNotes(Gathering(r), m, r.section, [e]));
        EntriesNoted(r', c, done + [e], rest, m, pretty, text);
        assert done + ([e] + Kept(rest)) == done + [e] + Kept(rest);
      }
    }
  }

  /** A section behind its header. */
  lemma BehindNoted(r: Reader, c: Config, done: seq<Entry>, s: Section, others: Config, m: Comments, pretty: bool)
    requires r.section == s.name != "" && r.config == Built(c, s.name, done) && !HasSection(c, s.name) && r.count == 1
    requires EntriesSurvive(s.entries, 1) && DistinctKeys(done + Kept(s.entries)) && AllFit(m)
    ensures ReadLines(r, Behind(m, s.name, s.entries, others, pretty)) ==
            ReadLines(Noting(r.(config := Built(c, s.name, done + Kept(s.entries)), count := CountAfter(s.entries, 1)),
                             EntryNotes(Gathering(r), m, s.name, s.entries)), Saved(m, others, pretty))
  {
    hide ReadLines, SavedEntries, HasSection, DistinctKeys, EntriesSurvive, Built, Saved, EntryNotes, AllFit, Kept, CountAfter;
    EntriesNoted(r, c, done, s.entries, m, pretty, "\n" + Saved(m, others, pretty));
    BlankLineReads(Noting(r.(config := Built(c, s.name, done + Kept(s.entries)), count := CountAfter(s.entries, 1)),
                          EntryNotes(Gathering(r), m, s.name, s.entries)), Saved(m, others, pretty));
  }

  lemma SectionNoted(r: Reader, c: Config, m: Comments, pretty: bool)
    requires c != [] && !HasSection(r.config, c[0].name) && NameSurvives(c[0].name) && c[0].name != DEFAULT_SECTION
    requires EntriesSurvive(c[0].entries, 1) && DistinctKeys(ReadBack(c[0]).entries) && AllFit(m)
    ensures var g := Gathered(WithSection(r.comments, c[0].name, Joined(r.pending, SectionComments(m, c[0].name))), "");
            ReadLines(r, Saved(m, c, pretty)) ==
            ReadLines(Noting(r.(config := r.config + [ReadBack(c[0])], section := c[0].name, count := CountAfter(c[0].entries, 1)),
                             EntryNotes(g, m, c[0].name, c[0].entries)), Saved(m, c[1..], pretty))
  {
    hide ReadLines, HasSection, DistinctKeys, EntriesSurvive, Saved, EntryNotes, Kept, CountAfter, Behind, WellFormed, SectionComments;
    var s, note := c[0], SectionComments(m, c[0].name);
    var header, body := Line("[" + s.name + "]"), Behind(m, s.name, s.entries, c[1..], pretty);
    ConfigTextIs(m, c, pretty);
    NoteReads(r, note, header + body);
    var r1 := r.(pending := Joined(r.pending, note));
    NotedHeaderReads(r1, s.name, body);
    var keeper := [Entry(KEEPER, KEEPER)];
    var r2 := r1.(config := Built(r.config, s.name, keeper), section := s.name, count := 1, pending := "",
                  comments := WithSection(r.comments, s.name, Joined(r.pending, note)));
    BehindNoted(r2, r.config, keeper, s, c[1..], m, pretty);
    assert Built(r.config, s.name, keeper + Kept(s.entries)) == r.config + [ReadBack(s)];
  }

  lemma {:induction false} SectionsNoted(r: Reader, c: Config, m: Comments, pretty: bool)
    requires Unique(c) && FitsBehind(r.config, c) && AllFit(m)
    ensures var o := ReadLines(r, Saved(m, c, pretty));
            o.Read? && o.reader.config == r.config + AllReadBack(c) && Gathering(o.reader) == SectionNotes(Gathering(r), m, c)
    decreases |c|
  {
    hide ReadLines, NameSurvives, EntriesSurvive, DistinctKeys, Unique, FitsBehind, HasSection, EntryNotes, AllFit,
         SectionComments, WithSection, SavedSection;
    if c == [] {
      NothingReads(r);
      assert r.config + [] == r.config;
    } else {
      hide Saved;
      hide AllReadBack, Kept, CountAfter;
      FirstFits(r.config, c);
      ReadBackIsDistinct(c[0]);
      SectionNoted(r, c, m, pretty);
      var g := Gathered(WithSection(r.comments, c[0].name, Joined(r.pending, SectionComments(m, c[0].name))), "");
      var r' := Noting(r.(config := r.config + [ReadBack(c[0])], section := c[0].name, count := CountAfter(c[0].entries, 1)),
                       EntryNotes(g, m, c[0].name, c[0].entries));
      RestFits(r.config, c);
      NotAddedTwice(r.config, c);
      SectionsNoted(r', c[1..], m, pretty);
      OneMoreReadBack(r.config, c);
    }
  }

  lemma OneMoreReadBack(before: Config, c: Config)
    requires c != []
    ensures before + [ReadBack(c[0])] + AllReadBack(c[1..]) == before + AllReadBack(c)
  {
  }

  lemma ReadBackIsDistinct(s: Section)
    requires DistinctKeys(s.entries)
    ensures DistinctKeys(ReadBack(s).entries)
  {
    KeptIsDistinct(s.entries);
    assert [] + Kept(s.entries) == Kept(s.entries);
  }

  // Looking them up

  function Or(a: string, b: string): string {
    if a == "" then b else a
  }

  lemma JoinFits(a: string, b: string)
    requires Fits(a) && Fits(b)
    ensures Fits(Joined(a, b))
  {
    hide WellFormed;
    if a != "" && b != "" {
      JoinedFits(a, b);
    }
  }

  lemma WithKeyLookup(n: Comments, section: string, key: string, t: string, s: string, k: string)
    requires Fits(t)
    ensures var n' := WithKey(n, section, key, t);
            && SectionComments(n', s) == SectionComments(n, s)
            && KeyComments(n', s, k) ==
               (if NotBlank(s) == NotBlank(section) && k == key then Or(t, KeyComments(n, s, k)) else KeyComments(n, s, k))
  {
    hide SetKeyComments, KeyComments, SectionComments, WellFormed, NotBlank;
    if t != "" {
      KeyLookup(n, section, key, t, s, k);
    }
  }

  lemma WithSectionLookup(n: Comments, section: string, t: string, s: string, k: string)
    requires Fits(t)
    ensures var n' := WithSection(n, section, t);
            && KeyComments(n', s, k) == KeyComments(n, s, k)
            && SectionComments(n', s) ==
               (if NotBlank(s) == NotBlank(section) then Or(t, SectionComments(n, s)) else SectionComments(n, s))
  {
    hide SetSectionComments, KeyComments, SectionComments, WellFormed, NotBlank;
    if t != "" {
      SectionLookup(n, section, t, s, k);
    }
  }

  lemma SameName(m: Comments, s: string, k: string)
    ensures KeyComments(m, NotBlank(s), k) == KeyComments(m, s, k) && SectionComments(m, NotBlank(s)) == SectionComments(m, s)
  {
  }

  lemma FirstKey(entries: seq<Entry>, k: string)
    requires entries != [] && entries[0].key != KEEPER && DistinctKeys(entries)
    ensures DistinctKeys(entries[1..]) && Kept(entries) == [entries[0]] + Kept(entries[1..])
    ensures HasKey(Kept(entries), k) <==> k == entries[0].key || HasKey(Kept(entries[1..]), k)
    ensures k == entries[0].key ==> !HasKey(Kept(entries[1..]), k)
  {
    KeptIsDistinct(entries);
    RestIsDistinct(entries);
    assert Kept(entries) == [entries[0]] + Kept(entries[1..]);
    hide Kept;
    KeysBehind(entries[0], Kept(entries[1..]), k);
  }

  lemma KeysBehind(e: Entry, rest: seq<Entry>, k: string)
    requires DistinctKeys([e] + rest)
    ensures HasKey([e] + rest, k) <==> k == e.key || HasKey(rest, k)
    ensures k == e.key ==> !HasKey(rest, k)
  {
    var all := [e] + rest;
    assert all[0] == e && forall i :: 0 <= i < |rest| ==> rest[i] == all[i + 1];
    if HasKey(all, k) && k != e.key {
      var i :| 0 <= i < |all| && all[i].key == k;
      assert rest[i - 1].key == k;
    }
  }

  /** Every kept key gets its comment, the first one behind what was pending. */
  ghost predicate EntriesLookUp(g: Gathered, r: Gathered, m: Comments, section: string, kept: seq<Entry>, s: string, k: string) {
    && r.pending == (if kept == [] then g.pending else "")
    && SectionComments(r.notes, s) == SectionComments(g.notes, s)
    && KeyComments(r.notes, s, k) ==
       if NotBlank(s) == section && HasKey(kept, k)
       then Or(Joined(if kept != [] && kept[0].key == k then g.pending else "", KeyComments(m, s, k)), KeyComments(g.notes, s, k))
       else KeyComments(g.notes, s, k)
  }

  lemma {:induction false} EntryNotesLookUp(g: Gathered, m: Comments, section: string, entries: seq<Entry>, s: string, k: string)
    requires DistinctKeys(entries) && AllFit(m) && Fits(g.pending) && section != ""
    ensures EntriesLookUp(g, EntryNotes(g, m, section, entries), m, section, Kept(entries), s, k)
    decreases |entries|
  {
    hide WellFormed, DistinctKeys, KeyComments, SectionComments, HasKey;
    if entries == [] {
      NoKeys(k);
    } else if entries[0].key == KEEPER {
      RestIsDistinct(entries);
      assert [] + Kept(entries[1..]) == Kept(entries[1..]);
      EntryNotesLookUp(g, m, section, entries[1..], s, k);
    } else {
      var e, rest := entries[0], entries[1..];
      FirstKey(entries, k);
      var t := Joined(g.pending, KeyComments(m, section, e.key));
      JoinFits(g.pending, KeyComments(m, section, e.key));
      WithKeyLookup(g.notes, section, e.key, t, s, k);
      SameName(m, s, k);
      hide EntryNotes, WithKey, Kept;
      EntryNotesLookUp(Gathered(WithKey(g.notes, section, e.key, t), ""), m, section, rest, s, k);
      assert EntryNotes(g, m, section, entries) == EntryNotes(Gathered(WithKey(g.notes, section, e.key, t), ""), m, section, rest) by {
        OneMoreNote(g, m, section, entries);
      }
    }
  }

  lemma OneMoreNote(g: Gathered, m: Comments, section: string, entries: seq<Entry>)
    requires entries != [] && entries[0].key != KEEPER
    ensures var t := Joined(g.pending, KeyComments(m, section, entries[0].key));
            EntryNotes(g, m, section, entries) ==
            EntryNotes(Gathered(WithKey(g.notes, section, entries[0].key, t), ""), m, section, entries[1..])
  {
    hide WithKey, Joined, KeyComments;
  }

  lemma NoKeys(k: string)
    ensures !HasKey([], k)
  {
  }

  lemma RestIsDistinct(entries: seq<Entry>)
    requires entries != [] && DistinctKeys(entries)
    ensures DistinctKeys(entries[1..])
  {
    assert forall i :: 0 <= i < |entries[1..]| ==> entries[1..][i] == entries[i + 1];
  }

  predicate KeptIn(c: Config, section: string, k: string) {
    exists i :: 0 <= i < |c| && c[i].name == section && HasKey(Kept(c[i].entries), k)
  }

  ghost predicate SectionsLookUp(n: Comments, n': Comments, m: Comments, c: Config, s: string, k: string) {
    && SectionComments(n', s) == (if HasSection(c, NotBlank(s)) then Or(SectionComments(m, s), SectionComments(n, s)) else SectionComments(n, s))
    && KeyComments(n', s, k) == (if KeptIn(c, NotBlank(s), k) then Or(KeyComments(m, s, k), KeyComments(n, s, k)) else KeyComments(n, s, k))
  }

  lemma FirstSection(c: Config, s: string, k: string)
    requires c != [] && Unique(c)
    ensures Unique(c[1..]) && DistinctKeys(c[0].entries)
    ensures HasSection(c, s) <==> c[0].name == s || HasSection(c[1..], s)
    ensures c[0].name == s ==> !HasSection(c[1..], s) && !KeptIn(c[1..], s, k)
    ensures KeptIn(c, s, k) <==> (c[0].name == s && HasKey(Kept(c[0].entries), k)) || KeptIn(c[1..], s, k)
  {
    hide Kept, HasKey, DistinctKeys;
    assert forall i :: 0 <= i < |c[1..]| ==> c[1..][i] == c[i + 1];
    if HasSection(c, s) && c[0].name != s {
      var i :| 0 <= i < |c| && c[i].name == s;
      assert c[1..][i - 1].name == s;
    }
    if KeptIn(c, s, k) && !(c[0].name == s && HasKey(Kept(c[0].entries), k)) {
      var i :| 0 <= i < |c| && c[i].name == s && HasKey(Kept(c[i].entries), k);
      assert c[1..][i - 1].name == s;
    }
  }

  lemma {:induction false} SectionNotesLookUp(g: Gathered, m: Comments, c: Config, s: string, k: string)
    requires Unique(c) && AllFit(m) && g.pending == "" && forall i :: 0 <= i < |c| ==> c[i].name != ""
    ensures var r := SectionNotes(g, m, c); r.pending == "" && SectionsLookUp(g.notes, r.notes, m, c, s, k)
    decreases |c|
  {
    hide WellFormed, Unique, DistinctKeys, KeyComments, SectionComments, HasKey, HasSection, KeptIn, EntryNotes, Kept, WithSection;
    if c == [] {
      NoSections(NotBlank(s), k);
    } else {
      var name, note := c[0].name, SectionComments(m, c[0].name);
      assert name != "";
      FirstSection(c, NotBlank(s), k);
      WithSectionLookup(g.notes, name, note, s, k);
      SameName(m, s, k);
      var g1 := Gathered(WithSection(g.notes, name, note), "");
      EntryNotesLookUp(g1, m, name, c[0].entries, s, k);
      var g2 := EntryNotes(g1, m, name, c[0].entries);
      assert forall i :: 0 <= i < |c[1..]| ==> c[1..][i] == c[i + 1];
      SectionNotesLookUp(g2, m, c[1..], s, k);
      hide SectionNotes;
      assert SectionNotes(g, m, c) == SectionNotes(g2, m, c[1..]) by { OneMoreSection(g, m, c); }
    }
  }

  lemma OneMoreSection(g: Gathered, m: Comments, c: Config)
    requires c != [] && g.pending == ""
    ensures var g1 := Gathered(WithSection(g.notes, c[0].name, SectionComments(m, c[0].name)), "");
            SectionNotes(g, m, c) == SectionNotes(EntryNotes(g1, m, c[0].name, c[0].entries), m, c[1..])
  {
    hide EntryNotes, WithSection, SectionComments;
  }

  lemma NoSections(s: string, k: string)
    ensures !HasSection([], s) && !KeptIn([], s, k)
  {
  }

  // What is read back

  /** All that ConfigSurvives asks for but what it says of a byte order mark. */
  predicate SurvivesUnmarked(c: Config) {
    && (forall i :: 0 <= i < |c| ==> NameSurvives(c[i].name) && EntriesSurvive(c[i].entries, 1))
    && (forall i :: 0 < i < |c| ==> c[i].name != DEFAULT_SECTION)
    && (c != [] && c[0].name == DEFAULT_SECTION ==> Kept(c[0].entries) != [])
  }

  /** The first key begins with a byte order mark that is written as it is. */
  predicate Marked(c: Config) {
    c != [] && c[0].name == DEFAULT_SECTION && Kept(c[0].entries) != [] && LosesMark(Kept(c[0].entries)[0].key)
  }

  /** A comment is written in front of the first key. */
  predicate CommentInFront(m: Comments, c: Config) {
    && c != [] && Kept(c[0].entries) != []
    && (SectionComments(m, c[0].name) != "" || KeyComments(m, c[0].name, Kept(c[0].entries)[0].key) != "")
  }

  lemma UnmarkedSurvives(c: Config)
    ensures ConfigSurvives(c) <==> SurvivesUnmarked(c) && !Marked(c)
  {
    hide NameSurvives, EntriesSurvive, Kept, LosesMark;
  }

  // The beginning of the text

  /** The first key that is written, when it has no comment. */
  lemma {:induction false} FirstKeptNoted(m: Comments, section: string, entries: seq<Entry>, pretty: bool) returns (tail: seq<Entry>)
    requires Clean(entries) && Kept(entries) != [] && KeyComments(m, section, Kept(entries)[0].key) == ""
    ensures Kept(entries)[0].key != ""
    ensures var line := Line(EntryLine(Kept(entries)[0], pretty));
            && Clean(tail) && Kept(entries) == [Kept(entries)[0]] + Kept(tail)
            && SavedEntries(m, section, entries, pretty) == line + SavedEntries(m, section, tail, pretty)
            && SavedEntries(NO_COMMENTS, section, entries, pretty) == line + SavedEntries(NO_COMMENTS, section, tail, pretty)
  {
    hide EntryLine, EntryReadable, SavedEntry, KeyComments;
    var e := entries[0];
    tail := entries[1..];
    EntriesSplit(section, entries, pretty, "");
    var whole, rest := SavedEntries(NO_COMMENTS, section, entries, pretty), SavedEntries(NO_COMMENTS, section, tail, pretty);
    assert whole + "" == whole && rest + "" == rest;
    if e.key == KEEPER {
      assert Kept(entries) == [] + Kept(tail) == Kept(tail);
      KeeperHasNoText(m, section, e, pretty);
      var more := SavedEntries(m, section, tail, pretty);
      assert "" + more == more;
      tail := FirstKeptNoted(m, section, entries[1..], pretty);
    } else {
      EntryKey(e);
      EntryIsItsLine(section, e, pretty);
      EntryText(m, section, e, pretty);
      assert "" + Line(EntryLine(e, pretty)) == Line(EntryLine(e, pretty));
    }
  }

  /** A comment of the first key comes first. */
  lemma {:induction false} CommentComesFirst(m: Comments, section: string, entries: seq<Entry>, pretty: bool)
    requires Clean(entries) && Kept(entries) != [] && AllFit(m) && KeyComments(m, section, Kept(entries)[0].key) != ""
    ensures var text := SavedEntries(m, section, entries, pretty); text != "" && (text[0] == '#' || text[0] == ';')
  {
    hide EntryLine, EntryReadable, SavedEntry, KeyComments, WellFormed;
    var e, rest := entries[0], entries[1..];
    EntriesSplit(section, entries, pretty, "");
    if e.key == KEEPER {
      assert Kept(entries) == [] + Kept(rest) == Kept(rest);
      KeeperHasNoText(m, section, e, pretty);
      CommentComesFirst(m, section, rest, pretty);
      assert SavedEntries(m, section, entries, pretty) == "" + SavedEntries(m, section, rest, pretty);
    } else {
      EntryKey(e);
      EntryText(m, section, e, pretty);
      var note := KeyComments(m, section, e.key);
      assert Fits(note);
      FormedBegins(note);
      assert SavedEntries(m, section, entries, pretty)[0] == Noted(note)[0] == note[0];
    }
  }

  ghost predicate BeginsWithMark(text: string) {
    text != "" && text[0] == BYTE_ORDER_MARK
  }

  lemma DefaultBegins(m: Comments, c: Config, pretty: bool)
    requires c != [] && c[0].name == DEFAULT_SECTION && CleanConfig(c) && Kept(c[0].entries) != [] && AllFit(m)
    ensures BeginsWithMark(Saved(m, c, pretty)) <==> Marked(c) && !CommentInFront(m, c)
  {
    hide Saved, SavedEntries, Clean, Kept, LosesMark, KeyComments, SectionComments, WellFormed, EntryLine;
    var note, entries := SectionComments(m, DEFAULT_SECTION), c[0].entries;
    ConfigTextIs(m, c, pretty);
    var body := Behind(m, DEFAULT_SECTION, entries, c[1..], pretty);
    if note != "" {
      assert Fits(note);
      FormedBegins(note);
      assert Saved(m, c, pretty)[0] == Noted(note)[0] == note[0];
    } else {
      assert Saved(m, c, pretty) == body;
      if KeyComments(m, DEFAULT_SECTION, Kept(entries)[0].key) != "" {
        CommentComesFirst(m, DEFAULT_SECTION, entries, pretty);
        assert body[0] == SavedEntries(m, DEFAULT_SECTION, entries, pretty)[0];
      } else {
        var tail := FirstKeptNoted(m, DEFAULT_SECTION, entries, pretty);
        var line := Line(EntryLine(Kept(entries)[0], pretty));
        assert body[0] == line[0];
        DefaultText(c, pretty);
        assert Saved(NO_COMMENTS, c, pretty)[0] == line[0];
        FirstKeyLeads(c, pretty);
      }
    }
  }

  lemma SectionBegins(m: Comments, c: Config, pretty: bool)
    requires c != [] && c[0].name != DEFAULT_SECTION && AllFit(m)
    ensures Saved(m, c, pretty) != "" && !BeginsWithMark(Saved(m, c, pretty))
  {
    hide Saved, Behind, WellFormed, SectionComments;
    ConfigTextIs(m, c, pretty);
    var note, text := SectionComments(m, c[0].name), Saved(m, c, pretty);
    if note != "" {
      assert Fits(note);
      FormedBegins(note);
      assert text[0] == Noted(note)[0] == note[0];
    } else {
      assert text[0] == HeaderText(c[0].name)[0] == '[';
    }
  }

  lemma TextBegins(m: Comments, c: Config, pretty: bool)
    requires CleanConfig(c) && AllFit(m) && (c != [] && c[0].name == DEFAULT_SECTION ==> Kept(c[0].entries) != [])
    ensures BeginsWithMark(Saved(m, c, pretty)) <==> Marked(c) && !CommentInFront(m, c)
  {
    hide CleanConfig, AllFit, Kept, LosesMark, BeginsWithMark, SavedSection;
    if c == [] {
      NoMarkInNothing();
    } else if c[0].name == DEFAULT_SECTION {
      DefaultBegins(m, c, pretty);
    } else {
      SectionBegins(m, c, pretty);
    }
  }

  lemma NoMarkInNothing()
    ensures !BeginsWithMark("")
  {
  }

  // Sections, keys and values

  ghost predicate DataBack(m: Comments, c: Config, pretty: bool) {
    var o := ReadText([], NO_COMMENTS, Saved(m, c, pretty)); o.Read? && o.reader.config == AllReadBack(c)
  }

  lemma BackIsClean(m: Comments, c: Config, pretty: bool)
    requires DataBack(m, c, pretty)
    ensures CleanConfig(c) && (c != [] && c[0].name == DEFAULT_SECTION ==> Kept(c[0].entries) != [])
  {
    hide ReadText, Saved, CleanConfig, Kept, Readable;
    ReadTextReadable(Saved(m, c, pretty));
    ReadBackIsClean(c);
  }

  /** Read from the first line on, byte order mark and all, only what survives is read back. */
  lemma LinesExact(c: Config, pretty: bool)
    requires Unique(c) && CleanConfig(c) && (c != [] && c[0].name == DEFAULT_SECTION ==> Kept(c[0].entries) != [])
    requires var o := ReadLines(NewReader([], NO_COMMENTS), Saved(NO_COMMENTS, c, pretty));
             o.Read? && o.reader.config == AllReadBack(c)
    ensures SurvivesUnmarked(c)
  {
    hide Saved, ReadLines, EntriesSurvive, DistinctKeys, Kept, AllReadBack, Clean, NameSurvives;
    if c != [] {
      if c[0].name == DEFAULT_SECTION {
        DefaultExact(c, pretty);
      } else {
        NothingNoted();
        SectionBegins(NO_COMMENTS, c, pretty);
        HeaderInFront(c, pretty);
      }
    }
  }

  lemma NothingNoted()
    ensures AllFit(NO_COMMENTS)
  {
  }

  /** Without its mark the first key is not read back, whatever comments stand behind it. */
  lemma MarkedIsMissed(m: Comments, c: Config, pretty: bool)
    requires Unique(c) && CleanConfig(c) && AllFit(m) && Marked(c) && !CommentInFront(m, c)
    ensures !DataBack(m, c, pretty)
  {
    hide Saved, SavedEntries, Clean, CleanConfig, Unique, Kept, LosesMark, AllFit, Alike, ReadLines, AllReadBack, EntryLine,
         KeyComments, SectionComments, QuotedValue;
    var entries, others := c[0].entries, c[1..];
    FirstIsClean(c);
    var e := Kept(entries)[0];
    var tail := FirstKeptNoted(m, DEFAULT_SECTION, entries, pretty);
    MarkedHasKey(e.key);
    MarkedText(c, e, tail, pretty);
    var line := e.key[1..] + EqualSign(pretty) + QuotedValue(e.value);
    ConfigTextIs(m, c, pretty);
    var body, body' := Behind(m, DEFAULT_SECTION, tail, others, pretty), Remaining(DEFAULT_SECTION, tail, others, pretty);
    assert Saved(m, c, pretty) == [BYTE_ORDER_MARK] + (Line(line) + body) by {
      assert Saved(m, c, pretty) == "" + ("" + Behind(m, DEFAULT_SECTION, entries, others, pretty));
      MarkInFront(line, SavedEntries(m, DEFAULT_SECTION, tail, pretty), "\n" + Saved(m, others, pretty));
    }
    SavedAlike(m, others, pretty);
    BehindAlike(m, DEFAULT_SECTION, tail, others, pretty);
    FirstHasNoBreak(entries, pretty);
    assert '\n' !in line by {
      assert forall x :: x in line ==> x in EntryLine(e, pretty);
    }
    LinesAlike(line, body, body');
    StripAlike(Line(line) + body, Line(line) + body');
    MarkIsMissed(c, pretty);
  }

  lemma FirstIsClean(c: Config)
    requires c != [] && CleanConfig(c)
    ensures Clean(c[0].entries) && CleanConfig(c[1..])
  {
    hide Clean, NameSurvives;
    assert forall i :: 0 <= i < |c[1..]| ==> c[1..][i] == c[i + 1];
  }

  lemma MarkedHasKey(key: string)
    requires LosesMark(key)
    ensures key != ""
  {
  }

  lemma FirstHasNoBreak(entries: seq<Entry>, pretty: bool)
    requires Clean(entries) && Kept(entries) != []
    ensures Kept(entries)[0].key != "" && '\n' !in EntryLine(Kept(entries)[0], pretty)
  {
    hide EntryLine;
    KeptKeys(entries, Kept(entries)[0]);
    EntryLineHasNoBreak(Kept(entries)[0], pretty);
  }

  lemma StripAlike(text: string, text': string)
    requires Alike(text, text')
    ensures var o, o' := ReadText([], NO_COMMENTS, [BYTE_ORDER_MARK] + text), ReadText([], NO_COMMENTS, [BYTE_ORDER_MARK] + text');
            (o.Read? <==> o'.Read?) && (o.Read? ==> o.reader.config == o'.reader.config)
  {
    hide ReadLines;
    var r := NewReader([], NO_COMMENTS);
    assert Quiet(r) == r;
    assert ([BYTE_ORDER_MARK] + text)[1..] == text && ([BYTE_ORDER_MARK] + text')[1..] == text';
    assert Quieted(ReadLines(r, text)) == Quieted(ReadLines(Quiet(r), text'));
  }

  lemma UnstrippedAlike(m: Comments, c: Config, pretty: bool)
    requires AllFit(m) && CleanConfig(c) && !BeginsWithMark(Saved(m, c, pretty)) && DataBack(m, c, pretty)
    ensures var o := ReadLines(NewReader([], NO_COMMENTS), Saved(NO_COMMENTS, c, pretty));
            o.Read? && o.reader.config == AllReadBack(c)
  {
    hide ReadLines, Saved, AllFit, CleanConfig, AllReadBack;
    SavedAlike(m, c, pretty);
    var r := NewReader([], NO_COMMENTS);
    assert Quiet(r) == r;
    assert Quieted(ReadLines(r, Saved(m, c, pretty))) == Quieted(ReadLines(Quiet(r), Saved(NO_COMMENTS, c, pretty)));
  }

  /** With comments that fit, only what survives is read back. */
  lemma OnlySurvivors(m: Comments, c: Config, pretty: bool)
    requires Unique(c) && AllFit(m) && DataBack(m, c, pretty)
    ensures SurvivesUnmarked(c) && (Marked(c) ==> CommentInFront(m, c))
  {
    hide Unique, AllFit, SurvivesUnmarked, Marked, CommentInFront, DataBack, BeginsWithMark, Kept, CleanConfig, Saved, ReadLines;
    BackIsClean(m, c, pretty);
    TextBegins(m, c, pretty);
    if Marked(c) && !CommentInFront(m, c) {
      MarkedIsMissed(m, c, pretty);
    } else {
      UnstrippedAlike(m, c, pretty);
      LinesExact(c, pretty);
    }
  }

  // Comments

  ghost predicate SameNotes(n: Comments, m: Comments) {
    && (forall s :: SectionComments(n, s) == SectionComments(m, s))
    && (forall s, k :: KeyComments(n, s, k) == KeyComments(m, s, k))
  }

  /** Every comment stands in front of something that is written: a header, or a key that is not the keeper. */
  ghost predicate AllPlaced(m: Comments, c: Config) {
    && (forall s :: SectionComments(m, s) != "" ==> NotBlank(s) != DEFAULT_SECTION && HasSection(c, NotBlank(s)))
    && (forall s, k :: KeyComments(m, s, k) != "" ==> KeptIn(c, NotBlank(s), k))
  }

  predicate IsFirstOfDefault(c: Config, section: string, k: string) {
    c != [] && c[0].name == DEFAULT_SECTION == section && Kept(c[0].entries) != [] && Kept(c[0].entries)[0].key == k
  }

  /** The comments that are read: DEFAULT's own comment ends up at its first key. */
  ghost predicate NotesRead(n: Comments, m: Comments, c: Config, s: string, k: string) {
    && SectionComments(n, s) ==
       (if HasSection(c, NotBlank(s)) && NotBlank(s) != DEFAULT_SECTION then SectionComments(m, s) else "")
    && KeyComments(n, s, k) ==
       (if !KeptIn(c, NotBlank(s), k) then ""
        else if IsFirstOfDefault(c, NotBlank(s), k) then Joined(SectionComments(m, DEFAULT_SECTION), KeyComments(m, s, k))
        else KeyComments(m, s, k))
  }

  ghost predicate AllNotesRead(n: Comments, m: Comments, c: Config) {
    forall s, k :: NotesRead(n, m, c, s, k)
  }

  lemma NoComments(s: string, k: string)
    ensures SectionComments(NO_COMMENTS, s) == "" && KeyComments(NO_COMMENTS, s, k) == ""
  {
  }

  /** Without DEFAULT every section has a header. */
  lemma HeadersNoted(c: Config, m: Comments, pretty: bool)
    requires Unique(c) && AllFit(m) && SurvivesUnmarked(c) && (c != [] ==> c[0].name != DEFAULT_SECTION)
    ensures var o := ReadLines(NewReader([], NO_COMMENTS), Saved(m, c, pretty));
            o.Read? && o.reader.config == AllReadBack(c) && AllNotesRead(o.reader.comments, m, c)
  {
    hide ReadLines, Saved, EntriesSurvive, DistinctKeys, Kept, AllFit, SectionNotes, SectionComments, KeyComments, KeptIn, HasKey;
    var r := NewReader([], NO_COMMENTS);
    SectionsNoted(r, c, m, pretty);
    assert [] + AllReadBack(c) == AllReadBack(c);
    var o := ReadLines(r, Saved(m, c, pretty));
    forall s, k
      ensures NotesRead(o.reader.comments, m, c, s, k)
    {
      SectionNotesLookUp(Gathering(r), m, c, s, k);
      NoComments(s, k);
    }
  }

  lemma DefaultNoted(c: Config, m: Comments, pretty: bool)
    requires Unique(c) && AllFit(m) && SurvivesUnmarked(c) && c != [] && c[0].name == DEFAULT_SECTION
    ensures var o := ReadLines(NewReader([], NO_COMMENTS), Saved(m, c, pretty));
            o.Read? && o.reader.config == AllReadBack(c) && AllNotesRead(o.reader.comments, m, c)
  {
    hide ReadLines, Saved, EntriesSurvive, DistinctKeys, Kept, AllFit, SectionNotes, EntryNotes, SectionComments, KeyComments,
         KeptIn, HasKey, WellFormed;
    hide Behind, CountAfter, NotesRead;
    var s0, others, note := c[0], c[1..], SectionComments(m, DEFAULT_SECTION);
    var r := NewReader([], NO_COMMENTS);
    ConfigTextIs(m, c, pretty);
    var body := Behind(m, s0.name, s0.entries, others, pretty);
    assert "" + body == body;
    FitsOf(m, DEFAULT_SECTION);
    NoteReads(r, note, body);
    var r1 := r.(pending := note);
    KeptIsDistinct(s0.entries);
    assert [] + Kept(s0.entries) == Kept(s0.entries);
    BehindNoted(r1, [], [], s0, others, m, pretty);
    var g := EntryNotes(Gathering(r1), m, s0.name, s0.entries);
    var r2 := Noting(r1.(config := [ReadBack(s0)], count := CountAfter(s0.entries, 1)), g);
    assert Built([], s0.name, Kept(s0.entries)) == [ReadBack(s0)] by { assert [] + [ReadBack(s0)] == [ReadBack(s0)]; }
    NotAddedTwice([], c);
    assert [] + [ReadBack(c[0])] == [ReadBack(c[0])];
    SectionsNoted(r2, others, m, pretty);
    assert [ReadBack(s0)] + AllReadBack(others) == AllReadBack(c);
    var o := ReadLines(r, Saved(m, c, pretty));
    forall s, k
      ensures NotesRead(o.reader.comments, m, c, s, k)
    {
      EntryNotesLookUp(Gathering(r1), m, s0.name, s0.entries, s, k);
      NamedBehind(c);
      SectionNotesLookUp(g, m, others, s, k);
      DefaultLookedUp(g, o.reader.comments, m, c, s, k);
    }
  }

  lemma FitsOf(m: Comments, s: string)
    requires AllFit(m)
    ensures Fits(SectionComments(m, s))
  {
  }

  lemma NamedBehind(c: Config)
    requires c != [] && SurvivesUnmarked(c) && Unique(c)
    ensures DistinctKeys(c[0].entries) && Unique(c[1..]) && forall i :: 0 <= i < |c[1..]| ==> c[1..][i].name != ""
  {
    hide EntriesSurvive, DistinctKeys, Kept;
    assert forall i :: 0 <= i < |c[1..]| ==> c[1..][i] == c[i + 1];
  }

  lemma DefaultLookedUp(g: Gathered, n: Comments, m: Comments, c: Config, s: string, k: string)
    requires c != [] && c[0].name == DEFAULT_SECTION && Unique(c) && Kept(c[0].entries) != []
    requires EntriesLookUp(Gathered(NO_COMMENTS, SectionComments(m, DEFAULT_SECTION)), g, m, DEFAULT_SECTION, Kept(c[0].entries), s, k)
    requires SectionsLookUp(g.notes, n, m, c[1..], s, k)
    ensures NotesRead(n, m, c, s, k)
  {
    hide Unique, Kept, SectionComments, KeyComments, KeptIn, HasKey, HasSection, NotBlank;
    NoComments(s, k);
    FirstSection(c, NotBlank(s), k);
    FirstSection(c, DEFAULT_SECTION, k);
  }

  /** What survives is read back, and its comments are read as NotesRead says. */
  lemma SavedIsNoted(m: Comments, c: Config, pretty: bool)
    requires Unique(c) && AllFit(m) && SurvivesUnmarked(c) && (Marked(c) ==> CommentInFront(m, c))
    ensures var o := ReadText([], NO_COMMENTS, Saved(m, c, pretty));
            o.Read? && o.reader.config == AllReadBack(c) && AllNotesRead(o.reader.comments, m, c)
  {
    hide ReadLines, Saved, Unique, AllFit, Kept, CommentInFront, Marked, AllNotesRead, CleanConfig;
    if c != [] && c[0].name == DEFAULT_SECTION {
      DefaultNoted(c, m, pretty);
    } else {
      HeadersNoted(c, m, pretty);
    }
    SurvivorsAreClean(c);
    TextBegins(m, c, pretty);
  }

  lemma SurvivorsAreClean(c: Config)
    requires SurvivesUnmarked(c)
    ensures CleanConfig(c)
  {
    hide NameSurvives, EntriesSurvive, Clean, Kept;
    forall i | 0 <= i < |c|
      ensures Clean(c[i].entries)
    {
      SurvivingEntriesAreClean(c[i].entries, 1);
    }
  }

  lemma {:induction false} SurvivingEntriesAreClean(entries: seq<Entry>, count: nat)
    requires EntriesSurvive(entries, count)
    ensures Clean(entries)
    decreases |entries|
  {
    if entries != [] {
      var e, rest := entries[0], entries[1..];
      assert forall i :: 0 < i < |entries| ==> entries[i] == rest[i - 1];
      if e.key == KEEPER {
        hide Survives, EntryReadable;
        SurvivingEntriesAreClean(rest, count);
      } else {
        NotEmptyKey(e, count);
        assert EntryReadable(e);
        hide Survives, EntryReadable;
        SurvivingEntriesAreClean(rest, NextCount(e.key, count));
      }
    }
  }

  /**
   * Everything is read back, comments included, exactly if what ConfigSurvives asks for holds, or would but for a
   * byte order mark that a comment keeps from being the first character; every line of every comment is one to the
   * reader; and every comment stands in front of a header or a key, which a comment of DEFAULT does not.
   */
  lemma CommentsExact(m: Comments, c: Config, pretty: bool)
    requires Unique(c)
    ensures var o := ReadText([], NO_COMMENTS, Saved(m, c, pretty));
            o.Read? && o.reader.config == AllReadBack(c) && SameNotes(o.reader.comments, m) <==>
            SurvivesUnmarked(c) && (Marked(c) ==> CommentInFront(m, c)) && AllFit(m) && AllPlaced(m, c)
  {
    hide ReadText, Saved, Unique, SurvivesUnmarked, Marked, CommentInFront, AllFit, AllReadBack, SameNotes, AllPlaced, AllNotesRead;
    var o := ReadText([], NO_COMMENTS, Saved(m, c, pretty));
    if o.Read? && o.reader.config == AllReadBack(c) && SameNotes(o.reader.comments, m) {
      TextNotes(Saved(m, c, pretty));
      SameFits(o.reader.comments, m);
      OnlySurvivors(m, c, pretty);
      SavedIsNoted(m, c, pretty);
      SameIsPlaced(o.reader.comments, m, c);
    }
    if SurvivesUnmarked(c) && (Marked(c) ==> CommentInFront(m, c)) && AllFit(m) && AllPlaced(m, c) {
      SavedIsNoted(m, c, pretty);
      PlacedIsSame(o.reader.comments, m, c);
    }
  }

  /** Comments that fit decide nothing about the rest, but whether a byte order mark comes first. */
  lemma DataExact(m: Comments, c: Config, pretty: bool)
    requires Unique(c) && AllFit(m)
    ensures DataBack(m, c, pretty) <==> SurvivesUnmarked(c) && (Marked(c) ==> CommentInFront(m, c))
  {
    hide ReadText, Saved, Unique, SurvivesUnmarked, Marked, CommentInFront, AllFit, AllReadBack, AllNotesRead;
    if DataBack(m, c, pretty) {
      OnlySurvivors(m, c, pretty);
    }
    if SurvivesUnmarked(c) && (Marked(c) ==> CommentInFront(m, c)) {
      SavedIsNoted(m, c, pretty);
    }
  }

  /** The comment "a", line feed, "b" gets one sign only, and its second line is none to the reader. */
  lemma SecondLineIsNone()
    ensures Commented("a\nb") == "; a\nb" && !WellFormed(Commented("a\nb"))
  {
    LinesSplit("; a", "b");
    assert "; a" + "\n" + "b" == "; a\nb" && "; " + "a\nb" == "; a\nb";
    NoBreakIn("b");
  }

  lemma TextNotes(text: string)
    requires ReadText([], NO_COMMENTS, text).Read?
    ensures AllFit(ReadText([], NO_COMMENTS, text).reader.comments)
  {
    LinesNotes(NewReader([], NO_COMMENTS), if text != "" && text[0] == BYTE_ORDER_MARK then text[1..] else text);
    hide ReadLines;
  }

  lemma SameFits(n: Comments, m: Comments)
    requires AllFit(n) && SameNotes(n, m)
    ensures AllFit(m)
  {
    hide WellFormed, SectionComments, KeyComments;
    forall s
      ensures Fits(SectionComments(m, s))
    {
      assert SectionComments(n, s) == SectionComments(m, s);
    }
    forall s, k
      ensures Fits(KeyComments(m, s, k))
    {
      assert KeyComments(n, s, k) == KeyComments(m, s, k);
    }
  }

  lemma SameIsPlaced(n: Comments, m: Comments, c: Config)
    requires AllNotesRead(n, m, c) && SameNotes(n, m)
    ensures AllPlaced(m, c)
  {
    hide SectionComments, KeyComments, HasSection, KeptIn, NotBlank, IsFirstOfDefault, Joined;
    forall s | SectionComments(m, s) != ""
      ensures NotBlank(s) != DEFAULT_SECTION && HasSection(c, NotBlank(s))
    {
      assert NotesRead(n, m, c, s, "");
    }
    forall s, k | KeyComments(m, s, k) != ""
      ensures KeptIn(c, NotBlank(s), k)
    {
      assert NotesRead(n, m, c, s, k);
    }
  }

  lemma PlacedIsSame(n: Comments, m: Comments, c: Config)
    requires AllNotesRead(n, m, c) && AllPlaced(m, c)
    ensures SameNotes(n, m)
  {
    hide SectionComments, KeyComments, HasSection, KeptIn, IsFirstOfDefault;
    forall s
      ensures SectionComments(n, s) == SectionComments(m, s)
    {
      assert NotesRead(n, m, c, s, "");
    }
    forall s, k
      ensures KeyComments(n, s, k) == KeyComments(m, s, k)
    {
      assert NotesRead(n, m, c, s, k);
      assert NotBlank(DEFAULT_SECTION) == DEFAULT_SECTION;
      assert SectionComments(m, DEFAULT_SECTION) == "";
    }
  }
}
