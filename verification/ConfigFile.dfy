/**
 * The ConfigFile class: maps for look-up beside lists for order. Every method keeps them in step and does
 * to the contents what the function of ConfigText says.
 */
module ConfigFiles {
  import opened ConfigText

  type Values = map<string, string>

  predicate Distinct(names: seq<string>) {
    forall i, j :: 0 <= i < j < |names| ==> names[i] != names[j]
  }

  /** A section's key list holds the keys of its map, each once; no key is empty. */
  ghost predicate KeysAgree(keys: seq<string>, values: Values) {
    Distinct(keys) && "" !in keys && forall k :: k in values <==> k in keys
  }

  function EntriesOf(keys: seq<string>, values: Values): seq<Entry> {
    if keys == [] then []
    else [Entry(keys[0], if keys[0] in values then values[keys[0]] else "")] + EntriesOf(keys[1..], values)
  }

  ghost predicate ListsAgree(names: seq<string>, data: map<string, Values>, keyList: map<string, seq<string>>) {
    && Distinct(names) && "" !in names
    && (forall s :: s in data <==> s in names) && (forall s :: s in keyList <==> s in names)
    && (forall s :: s in names && s in data && s in keyList ==> KeysAgree(keyList[s], data[s]))
  }

  function SectionOf(name: string, data: map<string, Values>, keyList: map<string, seq<string>>): Section {
    Section(name, EntriesOf(if name in keyList then keyList[name] else [], if name in data then data[name] else map[]))
  }

  function ConfigOf(names: seq<string>, data: map<string, Values>, keyList: map<string, seq<string>>): Config {
    if names == [] then [] else [SectionOf(names[0], data, keyList)] + ConfigOf(names[1..], data, keyList)
  }

  function RemoveEntry(entries: seq<Entry>, key: string): seq<Entry> {
    if entries == [] then []
    else if entries[0].key == key then entries[1..]
    else [entries[0]] + RemoveEntry(entries[1..], key)
  }

  function RemoveIn(c: Config, section: string, key: string): Config {
    if c == [] then []
    else if c[0].name == section then [Section(section, RemoveEntry(c[0].entries, key))] + c[1..]
    else [c[0]] + RemoveIn(c[1..], section, key)
  }

  function RemoveSection(c: Config, section: string): Config {
    if c == [] then [] else if c[0].name == section then c[1..] else [c[0]] + RemoveSection(c[1..], section)
  }

  function Find(c: Config, section: string): seq<Entry> {
    if c == [] then [] else if c[0].name == section then c[0].entries else Find(c[1..], section)
  }

  predicate HasSection(c: Config, section: string) {
    exists i :: 0 <= i < |c| && c[i].name == section
  }

  predicate HasKey(entries: seq<Entry>, key: string) {
    exists i :: 0 <= i < |entries| && entries[i].key == key
  }

  /** The keys but the keeper. */
  function Keys(entries: seq<Entry>): seq<string> {
    if entries == [] then [] else (if entries[0].key == KEEPER then [] else [entries[0].key]) + Keys(entries[1..])
  }

  function Without(names: seq<string>, name: string): seq<string> {
    if names == [] then [] else if names[0] == name then names[1..] else [names[0]] + Without(names[1..], name)
  }

  // Keys and their values

  lemma {:induction false} EntriesSame(keys: seq<string>, values: Values, values': Values)
    requires forall k :: k in keys ==> (k in values <==> k in values') && (k in values ==> values[k] == values'[k])
    ensures EntriesOf(keys, values) == EntriesOf(keys, values')
  {
    if keys != [] {
      EntriesSame(keys[1..], values, values');
    }
  }

  lemma {:induction false} EntrySet(keys: seq<string>, values: Values, key: string, value: string)
    requires Distinct(keys)
    ensures EntriesOf(if key in keys then keys else keys + [key], values[key := value]) == SetEntry(EntriesOf(keys, values), key, value)
  {
    var values' := values[key := value];
    if keys == [] {
      assert keys + [key] == [key] && [key][1..] == [];
    } else {
      var rest := keys[1..];
      if keys[0] == key {
        EntriesSame(rest, values, values');
      } else {
        EntrySet(rest, values, key, value);
        assert (keys + [key])[1..] == rest + [key];
        assert key in keys <==> key in rest;
      }
    }
  }

  lemma {:induction false} EntryRemoved(keys: seq<string>, values: Values, key: string)
    requires Distinct(keys) && key in keys
    ensures EntriesOf(Without(keys, key), values - {key}) == RemoveEntry(EntriesOf(keys, values), key)
  {
    var rest := keys[1..];
    if keys[0] == key {
      EntriesSame(rest, values, values - {key});
    } else {
      EntryRemoved(rest, values, key);
    }
  }

  lemma {:induction false} EntryKeys(keys: seq<string>, values: Values, key: string)
    ensures HasKey(EntriesOf(keys, values), key) <==> key in keys
    ensures |EntriesOf(keys, values)| == |keys| && forall i :: 0 <= i < |keys| ==> EntriesOf(keys, values)[i].key == keys[i]
  {
    if keys != [] {
      EntryKeys(keys[1..], values, key);
    }
    var entries := EntriesOf(keys, values);
    assert forall i :: 0 <= i < |keys| ==> entries[i].key == keys[i];
  }

  lemma DistinctTail(names: seq<string>)
    requires Distinct(names) && names != []
    ensures Distinct(names[1..]) && names[0] !in names[1..]
  {
    var rest := names[1..];
    assert forall i :: 0 <= i < |rest| ==> rest[i] == names[i + 1];
  }

  lemma {:induction false} WithoutMembers(names: seq<string>, name: string, n: string)
    requires Distinct(names)
    ensures n in Without(names, name) <==> n in names && n != name
  {
    if names != [] {
      DistinctTail(names);
      hide Distinct;
      assert n in names <==> n == names[0] || n in names[1..];
      if names[0] != name {
        WithoutMembers(names[1..], name, n);
      }
    }
  }

  lemma {:induction false} WithoutKeeps(names: seq<string>, name: string)
    requires Distinct(names)
    ensures Distinct(Without(names, name)) && forall n :: n in Without(names, name) <==> n in names && n != name
  {
    forall n: string
      ensures n in Without(names, name) <==> n in names && n != name
    {
      WithoutMembers(names, name, n);
    }
    if names != [] {
      DistinctTail(names);
      if names[0] != name {
        WithoutKeeps(names[1..], name);
        WithoutMembers(names[1..], name, names[0]);
      }
    }
  }

  // Sections

  lemma {:induction false} ConfigSame(names: seq<string>, data: map<string, Values>, keyList: map<string, seq<string>>,
                                      data': map<string, Values>, keyList': map<string, seq<string>>)
    requires forall n :: n in names ==> SectionOf(n, data', keyList') == SectionOf(n, data, keyList)
    ensures ConfigOf(names, data', keyList') == ConfigOf(names, data, keyList)
  {
    if names != [] {
      ConfigSame(names[1..], data, keyList, data', keyList');
    }
  }

  /** One section changes to hold the given keys and values, at the end if it is new. */
  lemma {:induction false} SectionSet(names: seq<string>, data: map<string, Values>, keyList: map<string, seq<string>>,
                                      section: string, keys: seq<string>, values: Values, key: string, value: string)
    requires Distinct(names)
    requires section !in names ==> SectionOf(section, data, keyList).entries == []
    requires EntriesOf(keys, values) == SetEntry(SectionOf(section, data, keyList).entries, key, value)
    ensures ConfigOf(if section in names then names else names + [section], data[section := values], keyList[section := keys])
            == SetIn(ConfigOf(names, data, keyList), section, key, value)
  {
    hide EntriesOf, SetEntry;
    var data', keyList' := data[section := values], keyList[section := keys];
    if names == [] {
      assert names + [section] == [section] && [section][1..] == [];
      SetEntryOnNothing(key, value);
    } else {
      var rest := names[1..];
      if names[0] == section {
        ConfigSame(rest, data, keyList, data', keyList');
      } else {
        SectionSet(rest, data, keyList, section, keys, values, key, value);
        assert (names + [section])[1..] == rest + [section];
        assert section in names <==> section in rest;
      }
    }
  }

  lemma SetEntryOnNothing(key: string, value: string)
    ensures SetEntry([], key, value) == [Entry(key, value)]
  {
  }

  lemma {:induction false} SectionEntryRemoved(names: seq<string>, data: map<string, Values>, keyList: map<string, seq<string>>,
                                               section: string, keys: seq<string>, values: Values, key: string)
    requires Distinct(names) && section in names
    requires EntriesOf(keys, values) == RemoveEntry(SectionOf(section, data, keyList).entries, key)
    ensures ConfigOf(names, data[section := values], keyList[section := keys])
            == RemoveIn(ConfigOf(names, data, keyList), section, key)
  {
    hide EntriesOf, RemoveEntry;
    var data', keyList' := data[section := values], keyList[section := keys];
    if names[0] == section {
      ConfigSame(names[1..], data, keyList, data', keyList');
    } else {
      SectionEntryRemoved(names[1..], data, keyList, section, keys, values, key);
    }
  }

  lemma {:induction false} SectionRemoved(names: seq<string>, data: map<string, Values>, keyList: map<string, seq<string>>, section: string)
    requires Distinct(names) && section in names
    ensures ConfigOf(Without(names, section), data - {section}, keyList - {section})
            == RemoveSection(ConfigOf(names, data, keyList), section)
  {
    hide EntriesOf;
    var data', keyList' := data - {section}, keyList - {section};
    if names[0] == section {
      ConfigSame(names[1..], data, keyList, data', keyList');
    } else {
      SectionRemoved(names[1..], data, keyList, section);
    }
  }

  lemma {:induction false} SectionFound(names: seq<string>, data: map<string, Values>, keyList: map<string, seq<string>>, section: string)
    ensures HasSection(ConfigOf(names, data, keyList), section) <==> section in names
    ensures |ConfigOf(names, data, keyList)| == |names|
    ensures section in names ==> Find(ConfigOf(names, data, keyList), section) == SectionOf(section, data, keyList).entries
    ensures forall i :: 0 <= i < |names| ==> ConfigOf(names, data, keyList)[i] == SectionOf(names[i], data, keyList)
  {
    if names != [] {
      SectionFound(names[1..], data, keyList, section);
    }
    var c := ConfigOf(names, data, keyList);
    assert forall i :: 0 <= i < |names| ==> c[i].name == names[i];
  }

  function ValuesIn(data: map<string, Values>, section: string): Values {
    if section in data then data[section] else map[]
  }

  function KeysIn(keyList: map<string, seq<string>>, section: string): seq<string> {
    if section in keyList then keyList[section] else []
  }

  function Included(names: seq<string>, name: string): seq<string> {
    if name in names then names else names + [name]
  }

  /** What SetValue does to the maps and lists keeps them in step. */
  lemma SetAgrees(names: seq<string>, data: map<string, Values>, keyList: map<string, seq<string>>, section: string, key: string, value: string)
    requires ListsAgree(names, data, keyList) && section != "" && key != ""
    ensures ListsAgree(Included(names, section), data[section := ValuesIn(data, section)[key := value]],
                       keyList[section := Included(KeysIn(keyList, section), key)])
  {
    var keys, values := Included(KeysIn(keyList, section), key), ValuesIn(data, section)[key := value];
    assert KeysAgree(KeysIn(keyList, section), ValuesIn(data, section));
    IncludedAgrees(KeysIn(keyList, section), ValuesIn(data, section), key, value);
    DistinctIncluded(names, section);
    hide Distinct, KeysAgree;
  }

  lemma DistinctIncluded(names: seq<string>, name: string)
    requires Distinct(names)
    ensures Distinct(Included(names, name)) && forall n :: n in Included(names, name) <==> n in names || n == name
  {
  }

  lemma IncludedAgrees(keys: seq<string>, values: Values, key: string, value: string)
    requires KeysAgree(keys, values) && key != ""
    ensures KeysAgree(Included(keys, key), values[key := value])
  {
    DistinctIncluded(keys, key);
    hide Distinct, Included;
  }

  lemma SetOver(m: map<string, Values>, name: string, first: Values, second: Values)
    ensures m[name := first][name := second] == m[name := second]
  {
  }

  lemma SetSame(m: map<string, seq<string>>, name: string)
    requires name in m
    ensures m[name := m[name]] == m
  {
  }

  lemma SetChangesContents(names: seq<string>, data: map<string, Values>, keyList: map<string, seq<string>>,
                           section: string, key: string, value: string)
    requires ListsAgree(names, data, keyList)
    ensures ConfigOf(Included(names, section), data[section := ValuesIn(data, section)[key := value]],
                     keyList[section := Included(KeysIn(keyList, section), key)])
            == SetIn(ConfigOf(names, data, keyList), section, key, value)
    ensures HasKey(Find(ConfigOf(names, data, keyList), section), key) <==> key in ValuesIn(data, section)
    ensures key in ValuesIn(data, section) <==> key in KeysIn(keyList, section)
  {
    hide EntriesOf, ConfigOf, SetIn, SetEntry, Find, HasKey, HasSection;
    var values, keys := ValuesIn(data, section), KeysIn(keyList, section);
    NothingThere();
    EntryKeys(keys, values, key);
    EntrySet(keys, values, key, value);
    SectionFound(names, data, keyList, section);
    if section !in names {
      NotFound(names, data, keyList, section);
    }
    SectionSet(names, data, keyList, section, Included(keys, key), values[key := value], key, value);
  }

  class ConfigFile {
    var data: map<string, Values>
    var sectionList: seq<string>
    var keyList: map<string, seq<string>>
    var sectionComments: map<string, string>
    var keyComments: map<string, Values>
    var prettyFormat: bool

    ghost predicate Valid()
      reads this
    {
      ListsAgree(sectionList, data, keyList)
    }

    /** The configuration as ordered lists. */
    ghost function Contents(): Config
      reads this
    {
      ConfigOf(sectionList, data, keyList)
    }

    ghost function Notes(): Comments
      reads this
    {
      Comments(sectionComments, keyComments)
    }

    constructor ()
      ensures Valid() && Contents() == [] && Notes() == NO_COMMENTS && prettyFormat
    {
      data, sectionList, keyList, sectionComments, keyComments := map[], [], map[], map[], map[];
      prettyFormat := true;
    }

    /** True if the key was inserted, false if its value was overwritten or it is empty. */
    method SetValue(section: string, key: string, value: string) returns (inserted: bool)
      requires Valid()
      modifies this`data, this`sectionList, this`keyList
      ensures Valid() && Contents() == ConfigText.SetValue(old(Contents()), section, key, value)
      ensures inserted <==> key != "" && !HasKey(Find(old(Contents()), NotBlank(section)), key)
    {
      var name := NotBlank(section);
      if key == "" {
        return false;
      }
      hide EntriesOf, ConfigOf, SetIn, Find, HasKey, ListsAgree;
      SetAgrees(sectionList, data, keyList, name, key, value);
      SetChangesContents(sectionList, data, keyList, name, key, value);
      SectionsListed(sectionList, data, keyList, name);
      ghost var data0, keyList0 := data, keyList;
      if name !in data {
        data := data[name := map[]];
        sectionList := sectionList + [name];
      }
      inserted := key !in data[name];
      data := data[name := data[name][key := value]];
      SetOver(data0, name, ValuesIn(data0, name), ValuesIn(data0, name)[key := value]);
      if inserted {
        keyList := keyList[name := (if name in keyList then keyList[name] else []) + [key]];
      } else {
        SetSame(keyList0, name);
      }
    }

    method DeleteKey(section: string, key: string) returns (deleted: bool)
      requires Valid()
      modifies this`data, this`keyList, this`keyComments
      ensures Valid() && deleted == HasKey(Find(old(Contents()), NotBlank(section)), key)
      ensures Contents() == (if deleted then RemoveIn(old(Contents()), NotBlank(section), key) else old(Contents()))
      ensures Notes() == (if deleted then ConfigText.SetKeyComments(old(Notes()), section, key, "") else old(Notes()))
    {
      var name := NotBlank(section);
      hide EntriesOf, ConfigOf, RemoveIn, RemoveEntry, Find, HasKey, HasSection, Without, ListsAgree;
      SectionsListed(sectionList, data, keyList, name);
      SectionFound(sectionList, data, keyList, name);
      NothingThere();
      if name !in data {
        NotFound(sectionList, data, keyList, name);
        return false;
      }
      var values, keys := data[name], keyList[name];
      KeysOfSection(sectionList, data, keyList, name);
      EntryKeys(keys, values, key);
      if key !in values {
        return false;
      }
      EntryRemoved(keys, values, key);
      RemovedKeyAgrees(sectionList, data, keyList, name, key);
      SectionEntryRemoved(sectionList, data, keyList, name, Without(keys, key), values - {key}, key);
      data := data[name := values - {key}];
      SetKeyComments(section, key, "");
      var i := IndexIn(keys, key);
      keyList := keyList[name := keys[..i] + keys[i + 1..]];
      deleted := true;
    }

    method DeleteSection(section: string) returns (deleted: bool)
      requires Valid()
      modifies this`data, this`sectionList, this`keyList, this`sectionComments
      ensures Valid() && deleted == HasSection(old(Contents()), NotBlank(section))
      ensures Contents() == (if deleted then RemoveSection(old(Contents()), NotBlank(section)) else old(Contents()))
      ensures Notes() == (if deleted then ConfigText.SetSectionComments(old(Notes()), section, "") else old(Notes()))
    {
      var name := NotBlank(section);
      hide EntriesOf, ConfigOf, RemoveSection, Without, HasSection, ListsAgree;
      SectionsListed(sectionList, data, keyList, name);
      SectionFound(sectionList, data, keyList, name);
      if name !in data {
        return false;
      }
      SectionRemoved(sectionList, data, keyList, name);
      RemovalAgrees(sectionList, data, keyList, name);
      data := data - {name};
      SetSectionComments(section, "");
      var i := IndexIn(sectionList, name);
      sectionList := sectionList[..i] + sectionList[i + 1..];
      keyList := keyList - {name};
      deleted := true;
    }

    /** The keys of a section in order, without the keeper; none for a section that does not exist. */
    method GetKeyList(section: string) returns (list: seq<string>)
      requires Valid()
      ensures list == Keys(Find(Contents(), NotBlank(section)))
    {
      var name := NotBlank(section);
      hide EntriesOf, ConfigOf, Find, Keys, HasSection, ListsAgree;
      SectionsListed(sectionList, data, keyList, name);
      SectionFound(sectionList, data, keyList, name);
      NothingThere();
      if name !in data {
        NotFound(sectionList, data, keyList, name);
        return [];
      }
      list := KeysWithoutKeeper(keyList[name], data[name]);
    }

    method SetSectionComments(section: string, text: string)
      modifies this`sectionComments
      ensures Notes() == ConfigText.SetSectionComments(old(Notes()), section, text)
    {
      var name := NotBlank(section);
      if text == "" {
        if name in sectionComments {
          sectionComments := sectionComments - {name};
        }
        assert sectionComments == old(sectionComments) - {name};
        return;
      }
      sectionComments := sectionComments[name := Commented(text)];
    }

    method SetKeyComments(section: string, key: string, text: string)
      modifies this`keyComments
      ensures Notes() == ConfigText.SetKeyComments(old(Notes()), section, key, text)
    {
      var name := NotBlank(section);
      if name in keyComments {
        if text == "" {
          if key in keyComments[name] {
            keyComments := keyComments[name := keyComments[name] - {key}];
          }
          assert old(keyComments)[name] - {key} == keyComments[name];
          assert keyComments == old(keyComments)[name := old(keyComments)[name] - {key}];
          return;
        }
      } else {
        if text == "" {
          return;
        }
        keyComments := keyComments[name := map[]];
      }
      keyComments := keyComments[name := keyComments[name][key := Commented(text)]];
      assert keyComments == old(keyComments)[name := keyComments[name]];
    }
  }

  method KeysWithoutKeeper(keys: seq<string>, ghost values: Values) returns (list: seq<string>)
    ensures list == Keys(EntriesOf(keys, values))
  {
    hide EntriesOf, Keys;
    NothingThere();
    list := [];
    assert keys[..0] == [];
    for i := 0 to |keys|
      invariant list == Keys(EntriesOf(keys[..i], values))
    {
      assert keys[..i + 1] == keys[..i] + [keys[i]];
      KeysMore(keys[..i], keys[i], values);
      if keys[i] != KEEPER {
        list := list + [keys[i]];
      }
    }
    assert keys[..|keys|] == keys;
  }

  lemma SectionsListed(names: seq<string>, data: map<string, Values>, keyList: map<string, seq<string>>, section: string)
    requires ListsAgree(names, data, keyList)
    ensures Distinct(names) && (section in data <==> section in names) && (section in keyList <==> section in names)
  {
  }

  lemma RemovalAgrees(names: seq<string>, data: map<string, Values>, keyList: map<string, seq<string>>, section: string)
    requires ListsAgree(names, data, keyList)
    ensures ListsAgree(Without(names, section), data - {section}, keyList - {section})
  {
    hide KeysAgree;
    WithoutKeeps(names, section);
  }

  lemma KeysOfSection(names: seq<string>, data: map<string, Values>, keyList: map<string, seq<string>>, section: string)
    requires ListsAgree(names, data, keyList) && section in names && section in data && section in keyList
    ensures Distinct(keyList[section]) && forall k :: k in data[section] <==> k in keyList[section]
  {
  }

  lemma RemovedKeyAgrees(names: seq<string>, data: map<string, Values>, keyList: map<string, seq<string>>, section: string, key: string)
    requires ListsAgree(names, data, keyList) && section in data && section in keyList
    ensures ListsAgree(names, data[section := data[section] - {key}], keyList[section := Without(keyList[section], key)])
  {
    WithoutKeeps(keyList[section], key);
    hide Without, Distinct;
    assert KeysAgree(Without(keyList[section], key), data[section] - {key});
    hide KeysAgree;
  }

  method IndexIn(names: seq<string>, name: string) returns (i: nat)
    requires name in names && Distinct(names)
    ensures i < |names| && names[i] == name && names[..i] + names[i + 1..] == Without(names, name)
  {
    i := 0;
    while names[i] != name
      invariant i < |names| && name in names[i..]
      invariant Without(names, name) == names[..i] + Without(names[i..], name)
      decreases |names| - i
    {
      assert names[i..][1..] == names[i + 1..];
      assert names[..i + 1] == names[..i] + [names[i]];
      i := i + 1;
    }
    assert names[i..][1..] == names[i + 1..];
  }

  lemma NothingThere()
    ensures EntriesOf([], map[]) == [] && Keys([]) == [] && forall key :: !HasKey([], key)
    ensures forall values :: EntriesOf([], values) == []
  {
  }

  lemma {:induction false} NotFound(names: seq<string>, data: map<string, Values>, keyList: map<string, seq<string>>, section: string)
    requires section !in names
    ensures Find(ConfigOf(names, data, keyList), section) == []
  {
    if names != [] {
      NotFound(names[1..], data, keyList, section);
    }
  }

  lemma {:induction false} KeysMore(keys: seq<string>, key: string, values: Values)
    ensures Keys(EntriesOf(keys + [key], values)) == Keys(EntriesOf(keys, values)) + (if key == KEEPER then [] else [key])
  {
    if keys == [] {
      assert keys + [key] == [key] && [key][1..] == [];
    } else {
      assert (keys + [key])[1..] == keys[1..] + [key];
      KeysMore(keys[1..], key, values);
    }
  }
}
