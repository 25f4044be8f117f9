/** Exactly which entries are read back from the line they are saved as. */
module ConfigExact {
  import opened ConfigText
  import opened ConfigRoundTrip

  datatype Reading = NoEntry | Gives(entry: Entry)

  /** The entry a trimmed line stands for; count is the number an automatic key would get. */
  function EntryOf(line: string, count: nat): Reading {
    if line == "" || line[0] == '#' || line[0] == ';' || (line[0] == '[' && line[|line| - 1] == ']') then NoEntry
    else FromSplit(SplitLine(line), count)
  }

  function FromSplit(split: Split, count: nat): Reading {
    if split.NoKey? || ReadValue(split.rest).NoText? then NoEntry
    else Gives(Entry(if split.key == "-" then "#" + Decimal(count) else split.key, ReadValue(split.rest).value))
  }

  /** In an open section the reader sets that entry, and nothing else when there is none. */
  lemma ReadsEntryOf(r: Reader, line: string)
    requires r.section != "" && r.pending == ""
    ensures match EntryOf(line, r.count)
            case Gives(e) =>
              && ReadLine(r, line).Read?
              && ReadLine(r, line).reader.config == SetValue(r.config, r.section, e.key, e.value)
            case NoEntry => ReadLine(r, line).Read? ==> line == "" || line[0] in "#;["
  {
    hide SetValue, SplitLine, ReadValue, Decimal;
  }

  // White space around a core

  predicate AllSpace(s: string) {
    forall i :: 0 <= i < |s| ==> IsSpace(s[i])
  }

  lemma {:induction false} TrimLeftOf(a: string, s: string)
    requires AllSpace(a) && (s == "" || !IsSpace(s[0]))
    ensures TrimLeft(a + s) == s
  {
    if a == "" {
      assert a + s == s;
    } else {
      assert (a + s)[1..] == a[1..] + s;
      TrimLeftOf(a[1..], s);
    }
  }

  lemma {:induction false} TrimRightOf(s: string, b: string)
    requires AllSpace(b) && (s == "" || !IsSpace(s[|s| - 1]))
    ensures TrimRight(s + b) == s
  {
    if b == "" {
      assert s + b == s;
    } else {
      assert (s + b)[..|s + b| - 1] == s + b[..|b| - 1];
      TrimRightOf(s, b[..|b| - 1]);
    }
  }

  lemma TrimCore(a: string, m: string, b: string)
    requires AllSpace(a) && AllSpace(b) && Trimmed(m)
    ensures TrimSpace(a + m + b) == m
  {
    if m == "" {
      assert a + m + b == a + b + "";
      TrimLeftOf(a + b, "");
    } else {
      assert a + m + b == a + (m + b);
      TrimLeftOf(a, m + b);
      TrimRightOf(m, b);
    }
  }

  lemma {:induction false} TrimLeftSplits(s: string)
    ensures |TrimLeft(s)| <= |s| && s == s[..|s| - |TrimLeft(s)|] + TrimLeft(s) && AllSpace(s[..|s| - |TrimLeft(s)|])
    ensures TrimLeft(s) == "" || !IsSpace(TrimLeft(s)[0])
  {
    hide IsSpace, AllSpace;
    if s != "" && IsSpace(s[0]) {
      TrimLeftSplits(s[1..]);
      SpaceInFront(s[0], s[1..][..|s| - 1 - |TrimLeft(s)|], TrimLeft(s));
      assert [s[0]] + s[1..] == s;
    } else {
      assert s[..0] == "" && "" + s == s;
      NothingIsSpace();
    }
  }

  lemma NothingIsSpace()
    ensures AllSpace("")
  {
  }

  lemma SpaceInFront(c: char, a: string, m: string)
    requires IsSpace(c) && AllSpace(a)
    ensures [c] + (a + m) == [c] + a + m && ([c] + (a + m))[..1 + |a|] == [c] + a && AllSpace([c] + a)
  {
  }

  lemma SpaceBehind(m: string, b: string, c: char)
    requires IsSpace(c) && AllSpace(b)
    ensures m + b + [c] == m + (b + [c]) && (m + b + [c])[|m|..] == b + [c] && AllSpace(b + [c])
  {
  }

  lemma {:induction false} TrimRightSplits(s: string)
    ensures |TrimRight(s)| <= |s| && s == TrimRight(s) + s[|TrimRight(s)|..] && AllSpace(s[|TrimRight(s)|..])
    ensures TrimRight(s) == "" || !IsSpace(TrimRight(s)[|TrimRight(s)| - 1])
    ensures TrimRight(s) != "" ==> TrimRight(s)[0] == s[0]
  {
    hide IsSpace, AllSpace;
    if s != "" && IsSpace(s[|s| - 1]) {
      var init := s[..|s| - 1];
      TrimRightSplits(init);
      SpaceBehind(TrimRight(s), init[|TrimRight(s)|..], s[|s| - 1]);
      assert init + [s[|s| - 1]] == s;
    } else {
      assert s[|s|..] == "" && s + "" == s;
      NothingIsSpace();
    }
  }

  lemma TrimSplits(s: string) returns (a: string, b: string)
    ensures s == a + TrimSpace(s) + b && AllSpace(a) && AllSpace(b) && Trimmed(TrimSpace(s))
  {
    hide TrimLeft, TrimRight, AllSpace;
    var left, core := TrimLeft(s), TrimSpace(s);
    TrimLeftSplits(s);
    TrimRightSplits(left);
    assert core == TrimRight(left);
    a, b := s[..|s| - |left|], left[|core|..];
    assert s == a + left && left == core + b;
    assert a + (core + b) == a + core + b;
  }

  // Values

  lemma ValueIgnoresSpace(z: string)
    ensures ReadValue(z) == ReadValue(TrimSpace(z))
  {
    var a, b := TrimSplits(z);
    TrimSame(TrimSpace(z));
  }

  lemma TrimShrinks(s: string)
    ensures |TrimSpace(s)| <= |s|
    ensures |TrimSpace(s)| == |s| ==> Trimmed(s)
  {
    var a, b := TrimSplits(s);
    hide TrimSpace;
    if |TrimSpace(s)| == |s| {
      assert a == "" && b == "";
      assert s == TrimSpace(s);
    }
  }

  lemma ReadValueShrinks(z: string)
    ensures ReadValue(z).Text? ==> |ReadValue(z).value| <= |TrimSpace(z)|
  {
    TrimShrinks(TrimSpace(z));
    hide TrimSpace;
  }

  /** A value is read back if and only if it survives, white space at its ends included. */
  lemma ValueExact(v: string)
    ensures ReadValue(TrimSpace(QuotedValue(v))) == Text(v) <==> ValueSurvives(v)
  {
    var w := QuotedValue(v);
    if Trimmed(v) {
      assert Trimmed(w);
      TrimSame(w);
      ValueReadsBack(v, false);
      assert "" + w == w;
    } else if '`' in v {
      TrimSame(w);
      if '"' in v {
        QuotedValueReads(v);
      } else {
        assert w == "\"" + v + "\"" && w[0] == '"' && w[1] == v[0];
        assert |w| >= 3 ==> w[..3][1] == w[1];
      }
    } else {
      TrimShrinks(v);
      ReadValueShrinks(TrimSpace(v));
      TrimShrinks(TrimSpace(v));
    }
  }

  // The line

  /** What is left of the value's side of the sign once the line is trimmed. */
  lemma ValueSide(w: string, gap: string) returns (z: string, tail: string)
    requires AllSpace(gap)
    ensures AllSpace(tail) && gap + w == z + tail && TrimSpace(z) == TrimSpace(w)
    ensures z != "" ==> TrimSpace(w) != "" && z[|z| - 1] == TrimSpace(w)[|TrimSpace(w)| - 1]
  {
    var a, b := TrimSplits(w);
    var m := TrimSpace(w);
    hide TrimSpace;
    if m == "" {
      z, tail := "", gap + w;
      assert w == a + b;
      TrimCore("", "", "");
      assert "" + "" + "" == "";
    } else {
      z, tail := gap + a + m, b;
      TrimCore(gap + a, m, "");
      assert gap + a + m + "" == z && gap + (a + m + b) == z + tail;
    }
  }

  function Gap(pretty: bool): (s: string)
    ensures AllSpace(s)
  {
    if pretty then " " else ""
  }

  /** A saved line without the white space around it, when something stands in front of the sign. */
  lemma LineOf(k: string, w: string, pretty: bool) returns (a: string, b: string, z: string)
    requires TrimSpace(k) != ""
    ensures k == a + TrimSpace(k) + b && AllSpace(a) && AllSpace(b) && TrimSpace(z) == TrimSpace(w)
    ensures TrimSpace(k + EqualSign(pretty) + w) == TrimSpace(k) + b + Sign(pretty) + z
    ensures z != "" ==> TrimSpace(w) != "" && z[|z| - 1] == TrimSpace(w)[|TrimSpace(w)| - 1]
  {
    hide TrimSpace, AllSpace, Sign, Gap, EqualSign;
    a, b := TrimSplits(k);
    TrimmedEnd(k);
    var tail;
    z, tail := ValueSide(w, Gap(pretty));
    SignAndGap(pretty);
    Around(a, TrimSpace(k), b, Sign(pretty), Gap(pretty), w, z, tail);
    TrimmedEnd(w);
    CoreOf(a, TrimSpace(k), b, Sign(pretty), z, tail);
  }

  lemma SignAndGap(pretty: bool)
    ensures EqualSign(pretty) == Sign(pretty) + Gap(pretty) == Gap(pretty) + "=" + Gap(pretty)
    ensures Sign(pretty) == Gap(pretty) + "=" && Sign(pretty)[|Sign(pretty)| - 1] == '='
  {
  }

  lemma TrimmedEnd(w: string)
    ensures TrimSpace(w) != "" ==> !IsSpace(TrimSpace(w)[|TrimSpace(w)| - 1]) && !IsSpace(TrimSpace(w)[0])
  {
    var _, _ := TrimSplits(w);
  }

  lemma CoreOf(a: string, m: string, b: string, s: string, z: string, tail: string)
    requires AllSpace(a) && AllSpace(tail) && m != "" && !IsSpace(m[0]) && s != "" && s[|s| - 1] == '='
    requires z != "" ==> !IsSpace(z[|z| - 1])
    ensures TrimSpace(a + (m + b + s + z) + tail) == m + b + s + z
  {
    hide TrimSpace, AllSpace;
    var core := m + b + s + z;
    assert core[0] == m[0];
    assert core[|core| - 1] == if z == "" then s[|s| - 1] else z[|z| - 1];
    TrimCore(a, core, tail);
  }

  lemma Around(a: string, m: string, b: string, s: string, gap: string, w: string, z: string, tail: string)
    requires gap + w == z + tail
    ensures a + m + b + (s + gap) + w == a + (m + b + s + z) + tail
  {
    assert a + m + b + (s + gap) + w == a + m + b + s + (gap + w);
  }

  /** Nothing but white space in front of the sign is no key. */
  lemma BlankKey(k: string, w: string, pretty: bool)
    requires TrimSpace(k) == ""
    ensures TrimSpace(k + EqualSign(pretty) + w) != "" && TrimSpace(k + EqualSign(pretty) + w)[0] == '='
  {
    var a, b := TrimSplits(k);
    var z, tail := ValueSide(w, Gap(pretty));
    hide TrimSpace, EqualSign, Sign;
    SignAndGap(pretty);
    TrimmedEnd(w);
    var core := "=" + z;
    assert k == a + b;
    assert a + b + (Gap(pretty) + "=" + Gap(pretty)) + w == (a + b + Gap(pretty) + "=") + (Gap(pretty) + w);
    assert k + EqualSign(pretty) + w == (a + b + Gap(pretty)) + core + tail;
    TrimCore(a + b + Gap(pretty), core, tail);
  }

  // Keys

  lemma {:induction false} IndexIsFirst(s: string, p: string, j: nat)
    requires j <= |s| && HasPrefix(s[j..], p)
    ensures 0 <= Index(s, p) <= j
  {
    if !HasPrefix(s, p) {
      assert s[1..][j - 1..] == s[j..];
      IndexIsFirst(s[1..], p, j - 1);
    }
  }

  /** The key that is set for what was split off. */
  function KeyOf(key: string, count: nat): string {
    if key == "-" then "#" + Decimal(count) else key
  }

  lemma SplitExact(key: string, z: string, count: nat, e: Entry)
    requires TrimSpace(z) == TrimSpace(QuotedValue(e.value))
    ensures FromSplit(Split(key, z), count) == Gives(e) <==> KeyOf(key, count) == e.key && ValueSurvives(e.value)
  {
    hide TrimSpace, QuotedValue, ReadValue, ValueSurvives, Decimal;
    ValueIgnoresSpace(z);
    ValueIgnoresSpace(QuotedValue(e.value));
    ValueExact(e.value);
  }

  /** What the trimmed line of an entry is read as. */
  function SavedReading(e: Entry, count: nat, pretty: bool): Reading
    requires e.key != ""
  {
    EntryOf(TrimSpace(EntryLine(e, pretty)), count)
  }

  lemma Core(k: string)
    requires k != "" && Trimmed(k)
    ensures TrimSpace(k) == k != ""
  {
    TrimSame(k);
  }

  /** An automatic key: only its number can differ. */
  lemma AutomaticExact(e: Entry, count: nat, pretty: bool)
    requires e.key != "" && e.key[0] == '#'
    ensures SavedReading(e, count, pretty) == Gives(e) <==> KeySurvives(e.key, count) && ValueSurvives(e.value)
  {
    Core("-");
    hide TrimSpace, QuotedValue, ValueSurvives, SplitLine, Decimal, FromSplit, Sign, Trimmed, EqualSign;
    assert KeyName(e.key) == "-";
    var a, b, z := LineOf("-", QuotedValue(e.value), pretty);
    assert "-" + b + Sign(pretty) + z == "-" + Sign(pretty) + z;
    RawKeySplits("-", pretty, z);
    SplitExact("-", z, count, e);
  }

  lemma QuotedLine(k: string, w: string, pretty: bool) returns (z: string)
    requires NeedsQuotes(k) && k[0] != '#'
    ensures TrimSpace(z) == TrimSpace(w)
    ensures var q := QuoteOf(k); TrimSpace(KeyName(k) + EqualSign(pretty) + w) == q + k + q + (Sign(pretty) + z)
  {
    var q, name := QuoteOf(k), KeyName(k);
    QuotedKeyNameIs(k);
    Core(name);
    hide TrimSpace, KeyName, QuoteOf;
    var a, b;
    a, b, z := LineOf(name, w, pretty);
    assert |b| == 0;
    assert name + b == name;
    Reassociate(name, Sign(pretty), z);
  }

  lemma QuotedSplit(k: string, q: string, pretty: bool, z: string)
    requires NeedsQuotes(k) && q == QuoteOf(k)
    ensures var split := SplitLine(q + k + q + (Sign(pretty) + z));
            if Index(k + q, q) == |k| then split == Split(k, z) else split.NoKey? || |split.key| < |k|
  {
    assert k != "" && (q == "\"" ==> '"' !in k);
    hide QuoteOf, NeedsQuotes, SplitLine, KeyQuote;
    QuotesAreSeen(q, k, Sign(pretty) + z);
    ClosingQuote(k, q);
    hide Index, Sign;
    if Index(k + q, q) == |k| {
      QuotedKeySplits(q, k, pretty, z);
    } else {
      ClosesEarly(k, q, q + k + q + (Sign(pretty) + z), Sign(pretty) + z);
    }
  }

  lemma StartsAsEntry(line: string, count: nat)
    requires line != "" && line[0] !in "#;["
    ensures EntryOf(line, count) == FromSplit(SplitLine(line), count)
  {
  }

  lemma ShortKeyDiffers(split: Split, count: nat, e: Entry)
    requires split.NoKey? || |split.key| < |e.key|
    requires e.key != "" && e.key[0] != '#'
    ensures FromSplit(split, count) != Gives(e)
  {
    hide ReadValue, Decimal;
  }

  /** A key with a separator: the quotes chosen for it must not close inside. */
  lemma QuotedExact(e: Entry, count: nat, pretty: bool)
    requires e.key != "" && e.key[0] != '#' && NeedsQuotes(e.key)
    ensures SavedReading(e, count, pretty) == Gives(e) <==> KeySurvives(e.key, count) && ValueSurvives(e.value)
  {
    var k, q := e.key, QuoteOf(e.key);
    hide TrimSpace, SplitLine, Index, EntryOf, FromSplit, ValueSurvives, Decimal, KeyName, QuotedValue, EqualSign, Sign;
    ClosingQuote(k, q);
    var z := QuotedLine(k, QuotedValue(e.value), pretty);
    var line := q + k + q + (Sign(pretty) + z);
    assert line[0] == q[0];
    StartsAsEntry(line, count);
    QuotedSplit(k, q, pretty, z);
    if Index(k + q, q) == |k| {
      SplitExact(k, z, count, e);
      assert k != "-";
    } else {
      ShortKeyDiffers(SplitLine(line), count, e);
    }
  }

  lemma ClosingQuote(k: string, q: string)
    requires NeedsQuotes(k) && q == QuoteOf(k)
    ensures 0 <= Index(k + q, q) <= |k|
    ensures Index(k + q, q) == |k| <==> ('`' in k && '"' in k ==> Index(k + TRIPLE, TRIPLE) == |k|)
  {
    assert (k + q)[|k|..] == q;
    IndexIsFirst(k + q, q, |k|);
    if !('`' in k && '"' in k) {
      KeyQuotesClose(k);
    }
  }

  lemma ClosesEarly(k: string, q: string, line: string, rest: string)
    requires q != "" && line == q + k + q + rest && KeyQuote(line) == q && 0 <= Index(k + q, q) < |k|
    ensures SplitLine(line).NoKey? || |SplitLine(line).key| < |k|
  {
    hide Index, KeyQuote, IndexSeparator, TrimSpace;
    IndexStays(k + q, rest, q);
    Reassociate(q, k + q, rest);
    assert q + k + q == q + (k + q);
    assert line[|q|..] == k + q + rest;
    EarlyKey(q, k + q + rest, |k|);
  }

  lemma EarlyKey(q: string, text: string, n: nat)
    requires 0 <= Index(text, q) < n
    ensures SplitQuoted(q, text).NoKey? || |SplitQuoted(q, text).key| < n
  {
  }

  // A key without a separator

  lemma TrimmedIsCore(k: string)
    ensures Trimmed(k) <==> TrimSpace(k) == k
  {
    var _, _ := TrimSplits(k);
    if Trimmed(k) {
      TrimSame(k);
    }
  }

  lemma BlankExact(e: Entry, count: nat, pretty: bool)
    requires e.key != "" && TrimSpace(e.key) == "" && !NeedsQuotes(e.key) && e.key[0] != '#'
    ensures SavedReading(e, count, pretty) != Gives(e) && !KeySurvives(e.key, count)
  {
    TrimmedIsCore(e.key);
    hide TrimSpace, QuotedValue, Decimal;
    BlankKey(e.key, QuotedValue(e.value), pretty);
    assert KeyName(e.key) == e.key;
  }

  /** Of what stands in front of the sign the reader takes the core. */
  lemma PlainSplit(m: string, b: string, pretty: bool, z: string)
    requires m != "" && Trimmed(m) && AllSpace(b) && !NeedsQuotes(m) && !NeedsQuotes(b) && m[0] != '"' && m[0] != '`'
    ensures SplitLine(m + b + Sign(pretty) + z) == Split(m, z)
  {
    hide TrimSpace, IndexSeparator, Sign, Gap, NeedsQuotes;
    var name := m + b;
    var line, i := name + Sign(pretty) + z, |name| + |Sign(pretty)| - 1;
    NoSeparators(m, b);
    SignIsFound(name, pretty, z);
    SignAndGap(pretty);
    FrontTrims(m, b, Gap(pretty));
    assert line[..i] == name + Gap(pretty);
    assert line[0] == m[0];
    TakesFront(line, i);
  }

  lemma NoSeparators(m: string, b: string)
    requires !NeedsQuotes(m) && !NeedsQuotes(b)
    ensures '=' !in m + b && ':' !in m + b
  {
  }

  lemma FrontTrims(m: string, b: string, gap: string)
    requires Trimmed(m) && AllSpace(b) && AllSpace(gap)
    ensures TrimSpace(m + b + gap) == m
  {
    hide TrimSpace;
    TrimCore("", m, b + gap);
    assert "" + m + (b + gap) == m + b + gap;
  }

  lemma TakesFront(line: string, i: int)
    requires line != "" && line[0] != '"' && line[0] != '`' && IndexSeparator(line) == i > 0
    ensures SplitLine(line) == Split(TrimSpace(line[..i]), line[i + 1..])
  {
    hide TrimSpace, IndexSeparator;
  }

  lemma SameCut(s: string, at: nat, i: nat, n: nat)
    requires i + n <= at <= |s|
    ensures s[i..][..n] == s[..at][i..i + n]
  {
  }

  /** A key the reader takes to be quoted is cut at the quotes, which the written key holds. */
  lemma CutAtQuote(k: string, a: string, m: string, b: string, q: string, after: string)
    requires k == a + m + b && HasPrefix(m, q) && |q| > 0
    ensures SplitQuoted(q, after).NoKey? || SplitQuoted(q, after).key != k
  {
    var at := Index(after, q);
    if at >= 0 && after[..at] == k {
      assert k[|a|..|a| + |q|] == q;
      SameCut(after, at, |a|, |q|);
      IndexIsFirst(after, q, |a|);
      assert false;
    }
  }

  lemma SeenQuote(m: string, b: string, s: string, z: string)
    requires m != "" && (m[0] == '"' || m[0] == '`') && AllSpace(b) && s != "" && (s[0] == ' ' || s[0] == '=')
    ensures var q := KeyQuote(m + b + s + z); q != "" && HasPrefix(m, q)
  {
    var line := m + b + s + z;
    assert line[0] == m[0];
    if KeyQuote(line) == TRIPLE {
      assert line[..3] == TRIPLE;
      assert line[1] == line[..3][1] && line[2] == line[..3][2];
      assert line[|m|] == (b + s)[0] != '"';
      assert m[..3] == line[..3];
    } else {
      assert m[..1] == [m[0]];
    }
  }

  lemma LooksQuoted(e: Entry, count: nat, a: string, m: string, b: string, s: string, z: string)
    requires m != "" && (m[0] == '"' || m[0] == '`') && AllSpace(b) && s != "" && (s[0] == ' ' || s[0] == '=')
    requires e.key == a + m + b && e.key[0] != '#'
    ensures EntryOf(m + b + s + z, count) != Gives(e)
  {
    var line := m + b + s + z;
    SeenQuote(m, b, s, z);
    var q := KeyQuote(line);
    hide KeyQuote, ReadValue, Decimal, HasPrefix, AllSpace, SplitQuoted;
    if |q| <= |line| {
      CutAtQuote(e.key, a, m, b, q, line[|q|..]);
    }
  }

  /** What keeps an entry from looking like a section header. */
  predicate NoHeader(e: Entry)
    requires e.key != ""
  {
    e.key[0] == '[' && !NeedsQuotes(e.key) ==> e.value == "" || QuotedValue(e.value)[|QuotedValue(e.value)| - 1] != ']'
  }

  lemma RawExact(e: Entry, count: nat, pretty: bool)
    requires e.key != "" && e.key[0] != '#' && !NeedsQuotes(e.key)
    ensures SavedReading(e, count, pretty) == Gives(e) <==> KeySurvives(e.key, count) && ValueSurvives(e.value) && NoHeader(e)
  {
    var k, m, w := e.key, TrimSpace(e.key), QuotedValue(e.value);
    TrimmedIsCore(k);
    if m == "" {
      BlankExact(e, count, pretty);
      return;
    }
    assert KeyName(k) == k;
    hide TrimSpace, QuotedValue, ValueSurvives, EntryOf, NoHeader, EqualSign, FromSplit, KeyOf, SplitLine, Decimal;
    var a, b, z := LineOf(k, w, pretty);
    var line := m + b + Sign(pretty) + z;
    assert line[0] == m[0];
    TrimmedEnd(k);
    PartsAreRaw(k, a, m, b);
    if m[0] == '#' || m[0] == ';' {
      IsNoEntry(line, count);
    } else if m[0] == '"' || m[0] == '`' {
      LooksQuoted(e, count, a, m, b, Sign(pretty), z);
    } else {
      EndsLikeHeader(e, m, line, z, pretty);
      if m[0] == '[' && line[|line| - 1] == ']' {
        IsNoEntry(line, count);
      } else {
        PlainSplit(m, b, pretty, z);
        IsSplit(line, count);
        SplitExact(m, z, count, e);
        CoreSurvives(k, m, count);
      }
    }
  }

  lemma CoreSurvives(k: string, m: string, count: nat)
    requires k != "" && k[0] != '#' && !NeedsQuotes(k) && m == TrimSpace(k) != "" && m[0] !in "\"`;"
    ensures KeyOf(m, count) == k <==> KeySurvives(k, count)
  {
    TrimmedIsCore(k);
    hide TrimSpace, Decimal;
    assert ("#" + Decimal(count))[0] == '#';
  }

  lemma PartsAreRaw(k: string, a: string, m: string, b: string)
    requires k == a + m + b && !NeedsQuotes(k)
    ensures !NeedsQuotes(m) && !NeedsQuotes(b)
  {
    assert forall c :: c in m || c in b ==> c in k;
  }

  lemma IsNoEntry(line: string, count: nat)
    requires line != "" && (line[0] == '#' || line[0] == ';' || (line[0] == '[' && line[|line| - 1] == ']'))
    ensures EntryOf(line, count) == NoEntry
  {
  }

  lemma IsSplit(line: string, count: nat)
    requires line != "" && line[0] != '#' && line[0] != ';' && !(line[0] == '[' && line[|line| - 1] == ']')
    ensures EntryOf(line, count) == FromSplit(SplitLine(line), count)
  {
  }

  /** The trimmed line ends like the value, or with the sign. */
  lemma EndsLikeHeader(e: Entry, m: string, line: string, z: string, pretty: bool)
    requires e.key != "" && !NeedsQuotes(e.key) && m == TrimSpace(e.key) != "" && |line| > |z| && line[0] == m[0]
    requires z == "" ==> line[|line| - 1] == '='
    requires z != "" ==> line[|line| - 1] == z[|z| - 1]
    requires TrimSpace(z) == TrimSpace(QuotedValue(e.value))
    requires z != "" ==> TrimSpace(QuotedValue(e.value)) != "" && z[|z| - 1] == TrimSpace(QuotedValue(e.value))[|TrimSpace(QuotedValue(e.value))| - 1]
    ensures Trimmed(e.key) && ValueSurvives(e.value) ==>
              (NoHeader(e) <==> !(m[0] == '[' && line[|line| - 1] == ']'))
  {
    TrimmedIsCore(e.key);
    if ValueSurvives(e.value) {
      SurvivorIsTrimmed(e.value);
      TrimmedIsCore(QuotedValue(e.value));
      TrimmedIsCore("");
    }
    hide TrimSpace, QuotedValue, ValueSurvives;
  }

  /**
   * Exactly the entries that survive are read back from their line: with any other key or value the line is no
   * entry, an error, or another entry.
   */
  lemma EntryReadsBack(e: Entry, count: nat, pretty: bool)
    requires e.key != "" && '\n' !in e.key && '\n' !in e.value
    ensures SavedReading(e, count, pretty) == Gives(e) <==> Survives(e, count)
  {
    hide SavedReading, ValueSurvives, KeySurvives, QuotedValue;
    if e.key[0] == '#' {
      AutomaticExact(e, count, pretty);
    } else if NeedsQuotes(e.key) {
      QuotedExact(e, count, pretty);
    } else {
      RawExact(e, count, pretty);
    }
  }
}
