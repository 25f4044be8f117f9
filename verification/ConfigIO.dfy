/** Saving a ConfigFile to text and reading text into one. */
module ConfigIO {
  import opened ConfigText
  import opened ConfigFiles
  import opened ConfigRoundTrip
  import opened ConfigEquivalence
  import opened ConfigComments

  lemma {:induction false} SavedMore(m: Comments, c: Config, s: Section, pretty: bool)
    ensures Saved(m, c + [s], pretty) == Saved(m, c, pretty) + SavedSection(m, s, pretty)
  {
    hide SavedSection;
    if c == [] {
      assert c + [s] == [s];
    } else {
      SavedMore(m, c[1..], s, pretty);
      assert (c + [s])[1..] == c[1..] + [s];
    }
  }

  lemma {:induction false} SavedEntriesMore(m: Comments, section: string, entries: seq<Entry>, e: Entry, pretty: bool)
    ensures SavedEntries(m, section, entries + [e], pretty) == SavedEntries(m, section, entries, pretty) + SavedEntry(m, section, e, pretty)
  {
    hide SavedEntry;
    if entries == [] {
      assert entries + [e] == [e];
    } else {
      SavedEntriesMore(m, section, entries[1..], e, pretty);
      assert (entries + [e])[1..] == entries[1..] + [e];
    }
  }

  lemma {:induction false} ConfigMore(names: seq<string>, name: string, data: map<string, Values>, keyList: map<string, seq<string>>)
    ensures ConfigOf(names + [name], data, keyList) == ConfigOf(names, data, keyList) + [SectionOf(name, data, keyList)]
  {
    hide SectionOf;
    if names == [] {
      assert names + [name] == [name];
    } else {
      ConfigMore(names[1..], name, data, keyList);
      assert (names + [name])[1..] == names[1..] + [name];
    }
  }

  lemma {:induction false} EntriesMore(keys: seq<string>, key: string, values: Values)
    requires key in values
    ensures EntriesOf(keys + [key], values) == EntriesOf(keys, values) + [Entry(key, values[key])]
  {
    if keys == [] {
      assert keys + [key] == [key];
    } else {
      EntriesMore(keys[1..], key, values);
      assert (keys + [key])[1..] == keys[1..] + [key];
    }
  }

  /** The key as it is written: a dash for an automatic one, between quotes when it holds a separator. */
  method WriteKey(key: string) returns (keyName: string)
    requires key != ""
    ensures keyName == KeyName(key)
  {
    keyName := key;
    if keyName[0] == '#' {
      keyName := "-";
    }
    if '=' in keyName || ':' in keyName {
      if '`' in keyName {
        if '"' in keyName {
          keyName := "\"\"\"" + keyName + "\"\"\"";
        } else {
          keyName := "\"" + keyName + "\"";
        }
      } else {
        keyName := "`" + keyName + "`";
      }
    }
  }

  method WriteValue(value: string) returns (quoted: string)
    ensures quoted == QuotedValue(value)
  {
    quoted := value;
    if '`' in quoted {
      if '"' in quoted {
        quoted := "\"\"\"" + quoted + "\"\"\"";
      } else {
        quoted := "\"" + quoted + "\"";
      }
    }
  }

  /** The lines of one key. */
  method SaveEntry(c: ConfigFile, section: string, key: string, value: string) returns (out: string)
    requires key != ""
    ensures out == SavedEntry(c.Notes(), section, Entry(key, value), c.prettyFormat)
  {
    hide KeyName, QuotedValue;
    out := "";
    if key != KEEPER {
      var comments := "";
      if NotBlank(section) in c.keyComments && key in c.keyComments[NotBlank(section)] {
        comments := c.keyComments[NotBlank(section)][key];
      }
      if comments != "" {
        out := out + (comments + "\n");
      }
      var keyName := WriteKey(key);
      var quoted := WriteValue(value);
      out := out + (keyName + (if c.prettyFormat then " = " else "=") + quoted + "\n");
    }
  }

  method SaveEntries(c: ConfigFile, section: string) returns (out: string)
    requires c.Valid() && section in c.sectionList
    ensures out == SavedEntries(c.Notes(), section, SectionOf(section, c.data, c.keyList).entries, c.prettyFormat)
  {
    hide SavedEntry, SavedEntries, EntriesOf;
    out := "";
    var keys, values := c.keyList[section], c.data[section];
    KeysHaveValues(c, section);
    hide ListsAgree, KeysAgree;
    EmptySaves(c.Notes(), section, values, c.prettyFormat);
    assert keys[..0] == [];
    for i := 0 to |keys|
      invariant out == SavedEntries(c.Notes(), section, EntriesOf(keys[..i], values), c.prettyFormat)
    {
      assert keys[i] in keys;
      var line := SaveEntry(c, section, keys[i], values[keys[i]]);
      assert keys[..i + 1] == keys[..i] + [keys[i]];
      EntriesMore(keys[..i], keys[i], values);
      SavedEntriesMore(c.Notes(), section, EntriesOf(keys[..i], values), Entry(keys[i], values[keys[i]]), c.prettyFormat);
      out := out + line;
    }
    assert keys[..|keys|] == keys;
  }

  lemma KeysHaveValues(c: ConfigFile, section: string)
    requires c.Valid() && section in c.sectionList
    ensures section in c.keyList && section in c.data
    ensures forall k :: k in c.keyList[section] ==> k in c.data[section] && k != ""
  {
  }

  lemma SectionIs(m: Comments, section: string, data: map<string, Values>, keyList: map<string, seq<string>>, pretty: bool)
    requires section in data && section in keyList
    ensures SavedSection(m, SectionOf(section, data, keyList), pretty) ==
            SavedHeader(m, section) + SavedEntries(m, section, EntriesOf(keyList[section], data[section]), pretty) + "\n"
  {
  }

  method SaveSection(c: ConfigFile, section: string) returns (out: string)
    requires c.Valid() && section in c.sectionList
    ensures out == SavedSection(c.Notes(), SectionOf(section, c.data, c.keyList), c.prettyFormat)
  {
    hide SavedEntries, EntriesOf, ListsAgree;
    var comments := if NotBlank(section) in c.sectionComments then c.sectionComments[NotBlank(section)] else "";
    out := "";
    if comments != "" {
      out := out + (comments + "\n");
    }
    if section != DEFAULT_SECTION {
      out := out + ("[" + section + "]" + "\n");
    }
    ghost var header := SavedHeader(c.Notes(), section);
    assert out == header;
    hide SavedHeader, SectionOf;
    KeysHaveValues(c, section);
    SectionIs(c.Notes(), section, c.data, c.keyList, c.prettyFormat);
    var lines := SaveEntries(c, section);
    out := out + lines + "\n";
  }

  lemma EmptySaves(m: Comments, section: string, values: Values, pretty: bool)
    ensures SavedEntries(m, section, EntriesOf([], values), pretty) == ""
  {
  }

  method SaveConfigData(c: ConfigFile) returns (out: string)
    requires c.Valid()
    ensures out == Saved(c.Notes(), c.Contents(), c.prettyFormat)
  {
    hide SavedSection, ConfigOf, SectionOf, Saved;
    out := "";
    NothingSaves(c);
    assert c.sectionList[..0] == [];
    for i := 0 to |c.sectionList|
      invariant out == Saved(c.Notes(), ConfigOf(c.sectionList[..i], c.data, c.keyList), c.prettyFormat)
    {
      var section := c.sectionList[i];
      var s := SaveSection(c, section);
      assert c.sectionList[..i + 1] == c.sectionList[..i] + [section];
      ConfigMore(c.sectionList[..i], section, c.data, c.keyList);
      SavedMore(c.Notes(), ConfigOf(c.sectionList[..i], c.data, c.keyList), SectionOf(section, c.data, c.keyList), c.prettyFormat);
      out := out + s;
    }
    assert c.sectionList[..|c.sectionList|] == c.sectionList;
  }

  lemma NothingSaves(c: ConfigFile)
    ensures Saved(c.Notes(), ConfigOf([], c.data, c.keyList), c.prettyFormat) == ""
  {
  }

  ghost function ReaderOf(c: ConfigFile, section: string, count: nat, comments: string): Reader
    reads c
  {
    Reader(c.Contents(), c.Notes(), section, count, comments)
  }

  /** The part of the loop that deals with keys and values. */
  method ReadKeyAndValue(c: ConfigFile, line: string, section: string, count: nat, comments: string) returns (ok: bool, newCount: nat)
    requires c.Valid() && line != ""
    modifies c
    ensures c.Valid() && c.prettyFormat == old(c.prettyFormat)
    ensures var o := ReadEntry(old(ReaderOf(c, section, count, comments)), line);
            (ok <==> o.Read?) && (ok ==> o.reader == ReaderOf(c, section, newCount, ""))
  {
    hide ConfigText.SetValue, SplitLine, ReadValue, Decimal, ConfigText.SetKeyComments, ConfigOf, ListsAgree, HasKey, Find;
    newCount := count;
    var split := SplitLine(line);
    if split.NoKey? {
      return false, count;
    }
    var key := split.key;
    if key == "-" {
      key := "#" + Decimal(count);
      newCount := newCount + 1;
    }
    var value := ReadValue(split.rest);
    if value.NoText? {
      return false, count;
    }
    var _ := c.SetValue(section, key, value.value);
    if comments != "" {
      c.SetKeyComments(section, key, comments);
    }
    ok := true;
  }

  /** The body of the loop, for one trimmed line. */
  method ReadOneLine(c: ConfigFile, line: string, section: string, count: nat, comments: string)
    returns (ok: bool, newSection: string, newCount: nat, newComments: string)
    requires c.Valid()
    modifies c
    ensures c.Valid() && c.prettyFormat == old(c.prettyFormat)
    ensures var o := ReadLine(old(ReaderOf(c, section, count, comments)), line);
            (ok <==> o.Read?) && (ok ==> o.reader == ReaderOf(c, newSection, newCount, newComments))
  {
    hide ConfigText.SetValue, ConfigText.SetSectionComments, ReadEntry, TrimSpace;
    ok, newSection, newCount, newComments := true, section, count, comments;
    if line == "" {
      return;
    }
    if line[0] == '#' || line[0] == ';' {
      newComments := if comments == "" then line else comments + "\n" + line;
    } else if line[0] == '[' && line[|line| - 1] == ']' {
      newSection := TrimSpace(line[1..|line| - 1]);
      if comments != "" {
        c.SetSectionComments(newSection, comments);
        newComments := "";
      }
      var _ := c.SetValue(newSection, KEEPER, KEEPER);
      newCount := 1;
    } else if section == "" {
      ok := false;
    } else {
      ok, newCount := ReadKeyAndValue(c, line, section, count, comments);
      newComments := "";
    }
  }

  /** ConfigFile.read; false for a line that is no entry. */
  method ReadInto(c: ConfigFile, text: string) returns (ok: bool)
    requires c.Valid()
    modifies c
    ensures c.Valid() && c.prettyFormat == old(c.prettyFormat)
    ensures var o := ReadText(old(c.Contents()), old(c.Notes()), text);
            (ok <==> o.Read?) && (ok ==> c.Contents() == o.reader.config && c.Notes() == o.reader.comments)
  {
    hide ReadLine, TrimSpace, Index, ConfigOf, ListsAgree;
    var rest := if text != "" && text[0] == BYTE_ORDER_MARK then text[1..] else text;
    var count, section, comments := 1, DEFAULT_SECTION, "";
    ghost var target := ReadText(c.Contents(), c.Notes(), text);
    while true
      invariant c.Valid() && c.prettyFormat == old(c.prettyFormat)
      invariant target == ReadLines(ReaderOf(c, section, count, comments), rest)
      decreases |rest|
    {
      var n := Index(rest, "\n");
      ok, section, count, comments := ReadOneLine(c, TrimSpace(if n == -1 then rest else rest[..n]), section, count, comments);
      if !ok || n == -1 {
        return;
      }
      rest := rest[n + 1..];
    }
  }

  lemma ContentsAreUnique(c: ConfigFile)
    requires c.Valid()
    ensures Unique(c.Contents())
  {
    hide ConfigOf, EntriesOf;
    SectionFound(c.sectionList, c.data, c.keyList, "");
    forall i | 0 <= i < |c.sectionList|
      ensures DistinctKeys(c.Contents()[i].entries)
    {
      var s := c.sectionList[i];
      EntryKeys(c.keyList[s], c.data[s], "");
    }
  }

  /**
   * Save, then read into a fresh configuration. Without comments the same sections, keys and values come back, in the
   * same order, exactly if the configuration survives; comments that fit change this only where one of them stands
   * in front of a byte order mark; and comments come back with all the rest exactly if each fits and is placed.
   */
  method SaveAndReload(c: ConfigFile) returns (ok: bool, d: ConfigFile)
    requires c.Valid()
    ensures fresh(d) && d.Valid()
    ensures c.Notes() == NO_COMMENTS ==> (ok && d.Contents() == AllReadBack(c.Contents()) <==> ConfigSurvives(c.Contents()))
    ensures AllFit(c.Notes()) ==>
              (ok && d.Contents() == AllReadBack(c.Contents()) <==>
               SurvivesUnmarked(c.Contents()) && (Marked(c.Contents()) ==> CommentInFront(c.Notes(), c.Contents())))
    ensures ok && d.Contents() == AllReadBack(c.Contents()) && SameNotes(d.Notes(), c.Notes()) <==>
            SurvivesUnmarked(c.Contents()) && (Marked(c.Contents()) ==> CommentInFront(c.Notes(), c.Contents())) &&
            AllFit(c.Notes()) && AllPlaced(c.Notes(), c.Contents())
  {
    hide ConfigOf, Saved, ReadText, ConfigSurvives, Unique, AllFit, AllPlaced, SameNotes, Marked, CommentInFront, SurvivesUnmarked;
    hide AllNotesRead, AllReadBack;
    var text := SaveConfigData(c);
    ghost var m, contents := c.Notes(), c.Contents();
    ContentsAreUnique(c);
    SavedExact(contents, c.prettyFormat);
    CommentsExact(m, contents, c.prettyFormat);
    if AllFit(m) {
      DataExact(m, contents, c.prettyFormat);
    }
    d := new ConfigFile();
    ok := ReadInto(d, text);
  }

  /** The lists the getters give, and the values, are the same before and after. */
  lemma {:induction false} ReadBackLooksTheSame(c: Config, section: string)
    ensures HasSection(AllReadBack(c), section) <==> HasSection(c, section)
    ensures Keys(Find(AllReadBack(c), section)) == Keys(Find(c, section))
    ensures |AllReadBack(c)| == |c| && forall i :: 0 <= i < |c| ==> AllReadBack(c)[i].name == c[i].name
  {
    if c != [] {
      ReadBackLooksTheSame(c[1..], section);
      KeptHasTheKeys(c[0].entries);
      assert forall i :: 0 < i < |c| ==> c[i] == c[1..][i - 1] && AllReadBack(c)[i] == AllReadBack(c[1..])[i - 1];
      SectionsSplit(c, section);
      SectionsSplit(AllReadBack(c), section);
      assert AllReadBack(c)[1..] == AllReadBack(c[1..]);
      hide Kept, Keys, HasSection;
    }
  }

  lemma SectionsSplit(c: Config, section: string)
    requires c != []
    ensures HasSection(c, section) <==> c[0].name == section || HasSection(c[1..], section)
  {
    assert forall i :: 0 <= i < |c[1..]| ==> c[1..][i] == c[i + 1];
    if HasSection(c, section) && c[0].name != section {
      var i :| 0 <= i < |c| && c[i].name == section;
      assert c[1..][i - 1].name == section;
    }
  }

  lemma {:induction false} KeptHasTheKeys(entries: seq<Entry>)
    ensures Keys(Kept(entries)) == Keys(entries)
    ensures Keys([Entry(KEEPER, KEEPER)] + Kept(entries)) == Keys(entries) && Keys([] + Kept(entries)) == Keys(entries)
  {
    if entries != [] {
      KeptHasTheKeys(entries[1..]);
      assert ([entries[0]] + Kept(entries[1..]))[1..] == Kept(entries[1..]);
      assert [] + Kept(entries[1..]) == Kept(entries[1..]);
    }
    assert ([Entry(KEEPER, KEEPER)] + Kept(entries))[1..] == Kept(entries);
    assert [] + Kept(entries) == Kept(entries);
    assert [] + Keys(Kept(entries)) == Keys(Kept(entries));
  }
}
