/**
 * goconfig's configurations as ordered lists, the text they are saved as and how a line is read. A string
 * is a sequence of code points; Go's len counts the bytes of their UTF-8.
 */
module ConfigText {
  import Utf8

  datatype Entry = Entry(key: string, value: string)

  datatype Section = Section(name: string, entries: seq<Entry>)

  type Config = seq<Section>

  const DEFAULT_SECTION := "DEFAULT"

  /** The key that keeps an empty section alive. */
  const KEEPER := " "

  // Go's strings package

  predicate IsSpace(c: char) {
    || 9 <= c as int <= 13 || c == ' ' || c as int == 0x85 || c as int == 0xA0 || c as int == 0x1680
    || 0x2000 <= c as int <= 0x200A || c as int == 0x2028 || c as int == 0x2029 || c as int == 0x202F
    || c as int == 0x205F || c as int == 0x3000
  }

  function TrimRight(s: string): string {
    if s != "" && IsSpace(s[|s| - 1]) then TrimRight(s[..|s| - 1]) else s
  }

  function TrimLeft(s: string): string {
    if s != "" && IsSpace(s[0]) then TrimLeft(s[1..]) else s
  }

  function TrimSpace(s: string): string {
    TrimRight(TrimLeft(s))
  }

  predicate Trimmed(s: string) {
    s == "" || (!IsSpace(s[0]) && !IsSpace(s[|s| - 1]))
  }

  predicate HasPrefix(s: string, p: string) {
    |p| <= |s| && s[..|p|] == p
  }

  /** The first position where p begins, or -1. */
  function Index(s: string, p: string): (r: int)
    ensures r == -1 || (0 <= r && r + |p| <= |s| && HasPrefix(s[r..], p))
  {
    if HasPrefix(s, p) then 0
    else if s == "" then -1
    else
      var r := Index(s[1..], p);
      if r == -1 then -1 else r + 1
  }

  /** The last position where p begins, or -1. */
  function LastIndex(s: string, p: string): (r: int)
    ensures r == -1 || (0 <= r && r + |p| <= |s|)
  {
    if s == "" then if p == "" then 0 else -1
    else
      var r := LastIndex(s[1..], p);
      if r != -1 then r + 1 else if HasPrefix(s, p) then 0 else -1
  }

  predicate IsSeparator(c: char) {
    c == '=' || c == ':'
  }

  /** IndexAny(s, "=:"). */
  function IndexSeparator(s: string): (r: int)
    ensures r == -1 || (0 <= r < |s| && IsSeparator(s[r]))
  {
    if s == "" then -1
    else if IsSeparator(s[0]) then 0
    else
      var r := IndexSeparator(s[1..]);
      if r == -1 then -1 else r + 1
  }

  function ByteLength(s: string): nat {
    if s == "" then 0 else ByteLength(s[..|s| - 1]) + |Utf8.Encode(s[|s| - 1] as int)|
  }

  function Decimal(n: nat): string {
    if n < 10 then [('0' as int + n) as char] else Decimal(n / 10) + [('0' as int + n % 10) as char]
  }

  // Configurations

  function SetEntry(entries: seq<Entry>, key: string, value: string): seq<Entry> {
    if entries == [] then [Entry(key, value)]
    else if entries[0].key == key then [Entry(key, value)] + entries[1..]
    else [entries[0]] + SetEntry(entries[1..], key, value)
  }

  /** SetValue, for a section and a key that are not empty. */
  function SetIn(c: Config, section: string, key: string, value: string): Config {
    if c == [] then [Section(section, [Entry(key, value)])]
    else if c[0].name == section then [Section(section, SetEntry(c[0].entries, key, value))] + c[1..]
    else [c[0]] + SetIn(c[1..], section, key, value)
  }

  function SetValue(c: Config, section: string, key: string, value: string): Config {
    if key == "" then c else SetIn(c, if section == "" then DEFAULT_SECTION else section, key, value)
  }

  // Reading

  datatype Comments = Comments(sections: map<string, string>, keys: map<string, map<string, string>>)

  const NO_COMMENTS := Comments(map[], map[])

  function Commented(s: string): string {
    if s != "" && (s[0] == '#' || s[0] == ';') then s else "; " + s
  }

  function NotBlank(section: string): string {
    if section == "" then DEFAULT_SECTION else section
  }

  function SetSectionComments(m: Comments, section: string, text: string): Comments {
    if text == "" then m.(sections := m.sections - {NotBlank(section)})
    else m.(sections := m.sections[NotBlank(section) := Commented(text)])
  }

  function SetKeyComments(m: Comments, section: string, key: string, text: string): Comments {
    var name := NotBlank(section);
    if text == "" then if name in m.keys then m.(keys := m.keys[name := m.keys[name] - {key}]) else m
    else m.(keys := m.keys[name := (if name in m.keys then m.keys[name] else map[])[key := Commented(text)]])
  }

  datatype Reader = Reader(config: Config, comments: Comments, section: string, count: nat, pending: string)

  datatype Outcome = Failed | Read(reader: Reader)

  function NewReader(c: Config, m: Comments): Reader {
    Reader(c, m, DEFAULT_SECTION, 1, "")
  }

  datatype Split = NoKey | Split(key: string, rest: string)

  /** Which quotes surround the key; none for the empty string. */
  function KeyQuote(line: string): string
    requires line != ""
  {
    if line[0] == '"' then if ByteLength(line) >= 6 && HasPrefix(line, "\"\"\"") then "\"\"\"" else "\""
    else if line[0] == '`' then "`"
    else ""
  }

  /** A key between quotes keeps the white space at its ends. */
  function SplitQuoted(q: string, afterQuote: string): Split {
    var at := Index(afterQuote, q);
    if at == -1 then NoKey
    else
      var i := IndexSeparator(afterQuote[at..]);
      if i <= 0 then NoKey else Split(afterQuote[..at], afterQuote[at + i + 1..])
  }

  /** The key of a line and what follows the separator. */
  function SplitLine(line: string): Split
    requires line != ""
  {
    var q := KeyQuote(line);
    if q != "" then
      if |q| <= |line| then SplitQuoted(q, line[|q|..]) else NoKey
    else
      var i := IndexSeparator(line);
      if i <= 0 then NoKey else Split(TrimSpace(line[..i]), line[i + 1..])
  }

  datatype Text = NoText | Text(value: string)

  /** The value to the right of the separator. */
  function ReadValue(rest: string): Text {
    var right := TrimSpace(rest);
    var q := if ByteLength(right) >= 2 && right != "" && right[0] == '`' then "`"
             else if ByteLength(right) >= 6 && HasPrefix(right, "\"\"\"") then "\"\"\""
             else "";
    if q == "" then Text(TrimSpace(right))
    else
      var at := if |q| <= |right| then LastIndex(right[|q|..], q) else -1;
      if at == -1 then NoText else Text(right[|q|..at + |q|])
  }

  /** One line, without the white space around it. */
  function ReadLine(r: Reader, line: string): Outcome {
    if line == "" then Read(r)
    else if line[0] == '#' || line[0] == ';' then
      Read(r.(pending := if r.pending == "" then line else r.pending + "\n" + line))
    else if line[0] == '[' && line[|line| - 1] == ']' then
      ReadHeader(r, TrimSpace(line[1..|line| - 1]))
    else if r.section == "" then Failed
    else ReadEntry(r, line)
  }

  function ReadHeader(r: Reader, section: string): Outcome {
    Read(r.(comments := if r.pending == "" then r.comments else SetSectionComments(r.comments, section, r.pending),
            config := SetValue(r.config, section, KEEPER, KEEPER), section := section, count := 1, pending := ""))
  }

  function ReadEntry(r: Reader, line: string): Outcome
    requires line != ""
  {
    var split := SplitLine(line);
    if split.NoKey? then Failed
    else
      var auto := split.key == "-";
      var key := if auto then "#" + Decimal(r.count) else split.key;
      var value := ReadValue(split.rest);
      if value.NoText? then Failed
      else
        Read(r.(config := SetValue(r.config, r.section, key, value.value),
                comments := if r.pending == "" then r.comments else SetKeyComments(r.comments, r.section, key, r.pending),
                count := if auto then r.count + 1 else r.count, pending := ""))
  }

  /** Line by line; the last line may lack its line feed. */
  function ReadLines(r: Reader, text: string): Outcome
    decreases |text|
  {
    var n := Index(text, "\n");
    if n == -1 then ReadLine(r, TrimSpace(text))
    else
      var next := ReadLine(r, TrimSpace(text[..n]));
      if next.Failed? then Failed else ReadLines(next.reader, text[n + 1..])
  }

  const BYTE_ORDER_MARK: char := '\U{FEFF}'

  function ReadText(c: Config, m: Comments, text: string): Outcome {
    ReadLines(NewReader(c, m), if text != "" && text[0] == BYTE_ORDER_MARK then text[1..] else text)
  }

  // Saving

  function QuotedKey(key: string): string {
    if '=' in key || ':' in key then
      if '`' in key then if '"' in key then "\"\"\"" + key + "\"\"\"" else "\"" + key + "\"" else "`" + key + "`"
    else key
  }

  function KeyName(key: string): string
    requires key != ""
  {
    QuotedKey(if key[0] == '#' then "-" else key)
  }

  function QuotedValue(value: string): string {
    if '`' in value then if '"' in value then "\"\"\"" + value + "\"\"\"" else "\"" + value + "\"" else value
  }

  function EqualSign(pretty: bool): string {
    if pretty then " = " else "="
  }

  function EntryLine(e: Entry, pretty: bool): string
    requires e.key != ""
  {
    KeyName(e.key) + EqualSign(pretty) + QuotedValue(e.value)
  }

  function KeyComments(m: Comments, section: string, key: string): string {
    if NotBlank(section) in m.keys && key in m.keys[NotBlank(section)] then m.keys[NotBlank(section)][key] else ""
  }

  function SectionComments(m: Comments, section: string): string {
    if NotBlank(section) in m.sections then m.sections[NotBlank(section)] else ""
  }

  function Line(s: string): string {
    s + "\n"
  }

  function SavedEntry(m: Comments, section: string, e: Entry, pretty: bool): string {
    if e.key == KEEPER || e.key == "" then ""
    else (if KeyComments(m, section, e.key) == "" then "" else Line(KeyComments(m, section, e.key))) + Line(EntryLine(e, pretty))
  }

  function SavedEntries(m: Comments, section: string, entries: seq<Entry>, pretty: bool): string {
    if entries == [] then ""
    else SavedEntry(m, section, entries[0], pretty) + SavedEntries(m, section, entries[1..], pretty)
  }

  function SavedHeader(m: Comments, section: string): string {
    (if SectionComments(m, section) == "" then "" else Line(SectionComments(m, section))) +
    (if section == DEFAULT_SECTION then "" else Line("[" + section + "]"))
  }

  function SavedSection(m: Comments, s: Section, pretty: bool): string {
    SavedHeader(m, s.name) + SavedEntries(m, s.name, s.entries, pretty) + "\n"
  }

  function Saved(m: Comments, c: Config, pretty: bool): string {
    if c == [] then "" else SavedSection(m, c[0], pretty) + Saved(m, c[1..], pretty)
  }
}
