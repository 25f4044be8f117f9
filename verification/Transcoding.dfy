/**
 * How Stream finds the encoding of its input and turns it into UTF-8: the tables of the byte order mark
 * detection, the prefetch buffer and the read-ahead queue. Section 5.2 of YAML 1.2.
 */
module Transcoding {
  import opened Utf8

  type byte = x: int | 0 <= x < 256

  // Detection

  datatype Charset = utf8 | utf16le | utf16be | utf32le | utf32be

  datatype Intro =
    | Start | UtfBeB1 | Utf32BeB2 | Utf32BeBom3 | Utf32Be | Utf16Be | Utf16BeBom1 | UtfLeBom1 | Utf16LeBom2
    | Utf32LeBom3 | Utf16Le | Utf32Le | Utf8Imp | Utf16LeImp | Utf32LeImp3 | Utf8Bom1 | Utf8Bom2 | Utf8Found

  datatype Kind = K00 | KBB | KBF | KEF | KFE | KFF | Ascii | Other

  const END := -1

  /** IntroCharTypeOf; END stands for the end of the input. */
  function KindOf(c: int): Kind {
    if c == 0 then K00
    else if c == 0xBB then KBB
    else if c == 0xBF then KBF
    else if c == 0xEF then KEF
    else if c == 0xFE then KFE
    else if c == 0xFF then KFF
    else if 0 < c < 0xFF then Ascii
    else Other
  }

  predicate Final(s: Intro) {
    s.Utf32Be? || s.Utf16Be? || s.Utf16Le? || s.Utf32Le? || s.Utf8Found?
  }

  /** s_introTransitions. */
  function Transition(s: Intro, k: Kind): Intro {
    match s
    case Start =>
      (match k
       case K00 => UtfBeB1
       case KEF => Utf8Bom1
       case KFE => Utf16BeBom1
       case KFF => UtfLeBom1
       case Ascii => Utf8Imp
       case _ => Utf8Found)
    case UtfBeB1 => if k == K00 then Utf32BeB2 else if k == Ascii then Utf16Be else Utf8Found
    case Utf32BeB2 => if k == K00 then Utf32Be else if k == KFE then Utf32BeBom3 else Utf8Found
    case Utf32BeBom3 => if k == KFF then Utf32Be else Utf8Found
    case Utf16BeBom1 => if k == KFF then Utf16Be else Utf8Found
    case UtfLeBom1 => if k == KFE then Utf16LeBom2 else Utf8Found
    case Utf16LeBom2 => if k == K00 then Utf32LeBom3 else Utf16Le
    case Utf32LeBom3 => if k == K00 then Utf32Le else Utf16Le
    case Utf8Imp => if k == K00 then Utf16LeImp else Utf8Found
    case Utf16LeImp => if k == K00 then Utf32LeImp3 else Utf16Le
    case Utf32LeImp3 => if k == K00 then Utf32Le else Utf16Le
    case Utf8Bom1 => if k == KBB then Utf8Bom2 else Utf8Found
    case _ => if Final(s) then s else Utf8Found
  }

  /** s_introUngetCount. */
  function Ungets(s: Intro, k: Kind): nat {
    match s
    case Start => if k == KBB || k == KBF || k == Other then 1 else 0
    case UtfBeB1 => if k == K00 then 0 else 2
    case Utf32BeB2 => if k == KFE then 0 else 3
    case Utf32BeBom3 => if k == KFF then 0 else 4
    case Utf16BeBom1 => if k == KFF then 0 else 2
    case UtfLeBom1 => if k == KFE then 0 else 2
    case Utf16LeBom2 => if k == K00 then 0 else 1
    case Utf32LeBom3 => if k == K00 then 0 else 2
    case Utf8Imp => if k == K00 then 0 else 2
    case Utf16LeImp => if k == K00 then 0 else 3
    case Utf32LeImp3 => 4
    case Utf8Bom1 => if k == KBB then 0 else 2
    case Utf8Bom2 => if k == KBF then 0 else 3
    case _ => 1
  }

  function CharsetOf(s: Intro): Charset {
    match s
    case Utf16Le => utf16le
    case Utf16Be => utf16be
    case Utf32Le => utf32le
    case Utf32Be => utf32be
    case _ => utf8
  }

  function ByteAt(b: seq<byte>, i: nat): int {
    if i < |b| then b[i] else END
  }

  /** The encoding by the first bytes, and the length of the byte order mark. */
  function Detected(b: seq<byte>): (Charset, nat) {
    var b0, b1, b2, b3 := ByteAt(b, 0), ByteAt(b, 1), ByteAt(b, 2), ByteAt(b, 3);
    if b0 == 0xEF && b1 == 0xBB && b2 == 0xBF then (utf8, 3)
    else if b0 == 0xFE && b1 == 0xFF then (utf16be, 2)
    else if b0 == 0xFF && b1 == 0xFE && b2 == 0 && b3 == 0 then (utf32le, 4)
    else if b0 == 0xFF && b1 == 0xFE then (utf16le, 2)
    else if b0 == 0 && b1 == 0 && b2 == 0xFE && b3 == 0xFF then (utf32be, 4)
    else if b0 == 0 && b1 == 0 && b2 == 0 then (utf32be, 0)
    else if b0 == 0 && KindOf(b1) == Ascii then (utf16be, 0)
    else if KindOf(b0) == Ascii && b1 == 0 && b2 == 0 && b3 == 0 then (utf32le, 0)
    else if KindOf(b0) == Ascii && b1 == 0 then (utf16le, 0)
    else (utf8, 0)
  }

  /** The kinds of bytes that lead to a state that is not final. */
  function Path(s: Intro): seq<Kind> {
    match s
    case UtfBeB1 => [K00]
    case Utf32BeB2 => [K00, K00]
    case Utf32BeBom3 => [K00, K00, KFE]
    case Utf16BeBom1 => [KFE]
    case UtfLeBom1 => [KFF]
    case Utf16LeBom2 => [KFF, KFE]
    case Utf32LeBom3 => [KFF, KFE, K00]
    case Utf8Imp => [Ascii]
    case Utf16LeImp => [Ascii, K00]
    case Utf32LeImp3 => [Ascii, K00, K00]
    case Utf8Bom1 => [KEF]
    case Utf8Bom2 => [KEF, KBB]
    case _ => []
  }

  predicate Followed(b: seq<byte>, s: Intro) {
    |Path(s)| <= |b| && forall i :: 0 <= i < |Path(s)| ==> KindOf(b[i]) == Path(s)[i]
  }

  lemma StepsAlongPath(b: seq<byte>, s: Intro)
    requires !Final(s) && Followed(b, s)
    ensures var k := KindOf(ByteAt(b, |Path(s)|));
            && Ungets(s, k) <= |Path(s)| + 1 <= 4
            && (Ungets(s, k) == 0 ==> |Path(s)| < |b|)
            && (!Final(Transition(s, k)) ==>
                  Ungets(s, k) == 0 && |Path(Transition(s, k))| == |Path(s)| + 1 && Followed(b, Transition(s, k)))
  {
  }

  lemma EndsAsDetected(b: seq<byte>, s: Intro)
    requires !Final(s) && Followed(b, s) && Final(Transition(s, KindOf(ByteAt(b, |Path(s)|))))
    ensures var k := KindOf(ByteAt(b, |Path(s)|));
            Detected(b) == (CharsetOf(Transition(s, k)), |Path(s)| + 1 - Ungets(s, k))
  {
  }

  /** The loop of Stream's constructor; what was read too far is put back. */
  method DetectCharset(b: seq<byte>) returns (charset: Charset, start: nat)
    ensures (charset, start) == Detected(b) && start <= |b|
  {
    var intro := new int[4];
    var nIntroUsed, state := 0, Start;
    start := 0;
    while !Final(state)
      invariant start == nIntroUsed <= 4
      invariant !Final(state) ==> Followed(b, state) && start == |Path(state)|
      invariant !Final(state) ==> forall i :: 0 <= i < nIntroUsed ==> intro[i] != END
      invariant Final(state) ==> (CharsetOf(state), start) == Detected(b) && start <= |b|
      decreases if Final(state) then 0 else 5 - nIntroUsed
    {
      StepsAlongPath(b, state);
      var c := ByteAt(b, start);
      if start < |b| {
        start := start + 1;
      }
      intro[nIntroUsed] := c;
      nIntroUsed := nIntroUsed + 1;
      var kind := KindOf(c);
      var nUngets := Ungets(state, kind);
      ghost var kept := nIntroUsed - nUngets;
      if Final(Transition(state, kind)) {
        EndsAsDetected(b, state);
      }
      while nUngets > 0
        invariant nUngets <= nIntroUsed && nIntroUsed - nUngets == kept
        invariant start == if nIntroUsed == |Path(state)| + 1 && c == END then nIntroUsed - 1 else nIntroUsed
        invariant forall i :: 0 <= i < |Path(state)| ==> intro[i] != END
        invariant intro[|Path(state)|] == c
        decreases nUngets
      {
        nIntroUsed := nIntroUsed - 1;
        if intro[nIntroUsed] != END {
          start := start - 1;
        }
        nUngets := nUngets - 1;
      }
      state := Transition(state, kind);
    }
    charset := CharsetOf(state);
  }

  // Transcoding

  /** Utf8Adjust: the bits of c above `shift`, under a header of `lead` one bits. */
  function Utf8Adjust(c: nat, lead: nat, shift: nat): (r: int)
    requires lead <= 4 && (shift == 0 || shift == 6 || shift == 12 || shift == 18)
    ensures 0 <= r < 256
  {
    var bits := c / (if shift == 0 then 1 else if shift == 6 then 64 else if shift == 12 then 4096 else 262144);
    match lead
    case 0 => bits % 128
    case 1 => 0x80 + bits % 64
    case 2 => 0xC0 + bits % 32
    case 3 => 0xE0 + bits % 16
    case _ => 0xF0 + bits % 8
  }

  const EOF_CODE_POINT := 4

  /** QueueUnicodeCodepoint: the character that marks the end is never queued. */
  function Queued(codePoint: nat): string {
    var c := if codePoint == EOF_CODE_POINT then REPLACEMENT_CHARACTER else codePoint;
    if c < 0x80 then [Byte(Utf8Adjust(c, 0, 0))]
    else if c < 0x800 then [Byte(Utf8Adjust(c, 2, 6)), Byte(Utf8Adjust(c, 1, 0))]
    else if c < 0x10000 then [Byte(Utf8Adjust(c, 3, 12)), Byte(Utf8Adjust(c, 1, 6)), Byte(Utf8Adjust(c, 1, 0))]
    else [Byte(Utf8Adjust(c, 4, 18)), Byte(Utf8Adjust(c, 1, 12)), Byte(Utf8Adjust(c, 1, 6)), Byte(Utf8Adjust(c, 1, 0))]
  }

  lemma QueuedIsEncoded(c: int)
    requires 0 <= c <= 0x10FFFF && c != EOF_CODE_POINT
    ensures Queued(c) == Encode(c)
  {
    assert c / 262144 % 8 == c / 262144;
    assert c < 0x10000 ==> c / 4096 % 16 == c / 4096;
    assert c < 0x800 ==> c / 64 % 32 == c / 64;
    assert c < 0x80 ==> c % 128 == c;
  }

  function Wide(high: nat, low: nat): nat {
    high * 256 + low
  }

  function Unit(b: seq<byte>, big: bool): nat
    requires |b| >= 2
  {
    if big then Wide(b[0], b[1]) else Wide(b[1], b[0])
  }

  predicate IsHigh(u: nat) {
    0xD800 <= u < 0xDC00
  }

  predicate IsLow(u: nat) {
    0xDC00 <= u < 0xE000
  }

  /** The UTF-8 read from UTF-16; after an unpaired high surrogate it is that surrogate that is queued. */
  function From16(b: seq<byte>, big: bool): string
    decreases |b|, 1
  {
    if |b| < 2 then ""
    else
      var u := Unit(b, big);
      if IsLow(u) then Queued(REPLACEMENT_CHARACTER) + From16(b[2..], big)
      else if IsHigh(u) then From16High(b[2..], big, u)
      else Queued(u) + From16(b[2..], big)
  }

  function From16High(b: seq<byte>, big: bool, high: nat): string
    decreases |b|, 0
  {
    if |b| < 2 then Queued(REPLACEMENT_CHARACTER)
    else
      var low := Unit(b, big);
      if IsLow(low) then Queued(high % 1024 * 1024 + low % 1024 + 0x10000) + From16(b[2..], big)
      else if IsHigh(low) then Queued(REPLACEMENT_CHARACTER) + From16High(b[2..], big, low)
      else Queued(REPLACEMENT_CHARACTER) + Queued(high) + From16(b[2..], big)
  }

  function Word(b: seq<byte>, big: bool): nat
    requires |b| >= 4
  {
    if big then Wide(Wide(Wide(b[0], b[1]), b[2]), b[3]) else Wide(Wide(Wide(b[3], b[2]), b[1]), b[0])
  }

  function From32(b: seq<byte>, big: bool): string {
    if |b| < 4 then "" else Queued(Word(b, big)) + From32(b[4..], big)
  }

  function From8(b: seq<byte>): string {
    if b == [] then "" else [Byte(b[0])] + From8(b[1..])
  }

  function Transcoded(charset: Charset, b: seq<byte>): string {
    match charset
    case utf8 => From8(b)
    case utf16le => From16(b, false)
    case utf16be => From16(b, true)
    case utf32le => From32(b, false)
    case utf32be => From32(b, true)
  }

  const PREFETCH_SIZE := 2048

  /** The part of Stream between the input and the characters read ahead. */
  class Decoder {
    const input: seq<byte>
    const charset: Charset
    /** How much of the input has gone to the prefetch buffer. */
    var fetched: nat
    const prefetched: array<byte>
    var available: nat
    var used: nat
    var good: bool
    var readahead: string

    ghost predicate Valid()
      reads this, prefetched
    {
      && prefetched.Length == PREFETCH_SIZE && fetched <= |input| && used <= available <= PREFETCH_SIZE
      && (!good ==> Remaining() == [])
    }

    ghost function Remaining(): seq<byte>
      requires prefetched.Length == PREFETCH_SIZE && fetched <= |input| && used <= available <= PREFETCH_SIZE
      reads this, prefetched
    {
      prefetched[used..available] + input[fetched..]
    }

    constructor (b: seq<byte>)
      ensures Valid() && fresh(prefetched) && good && readahead == ""
      ensures charset == Detected(b).0 && Detected(b).1 <= |b| && Remaining() == b[Detected(b).1..]
    {
      var found, start := DetectCharset(b);
      charset, input, fetched := found, b, start;
      prefetched := new byte[PREFETCH_SIZE];
      available, used, good, readahead := 0, 0, true, "";
    }

    /** The next byte, from the buffer or through it; at the end of the input the stream is good no more. */
    method GetNextByte() returns (b: byte)
      requires Valid()
      modifies this`fetched, this`available, this`used, this`good, prefetched
      ensures Valid() && (old(Remaining()) == [] ==> !good && b == 0 && Remaining() == [])
      ensures old(Remaining()) != [] ==> good == old(good) && [b] + Remaining() == old(Remaining())
    {
      if used >= available {
        Fetch();
        if available == 0 {
          good := false;
          return 0;
        }
      }
      b := prefetched[used];
      used := used + 1;
    }

    /** sgetn into the empty buffer. */
    method Fetch()
      requires Valid() && used == available
      modifies this`fetched, this`available, this`used, prefetched
      ensures Valid() && used == 0 && Remaining() == old(Remaining()) && (available == 0 <==> Remaining() == [])
    {
      ghost var remaining := Remaining();
      assert remaining == [] + input[fetched..] == input[fetched..];
      var n := if |input| - fetched < PREFETCH_SIZE then |input| - fetched else PREFETCH_SIZE;
      forall i | 0 <= i < n {
        prefetched[i] := input[fetched + i];
      }
      assert prefetched[..n] == input[fetched..fetched + n];
      assert input[fetched..] == input[fetched..fetched + n] + input[fetched + n..];
      fetched, available, used := fetched + n, n, 0;
    }

    method StreamInUtf8()
      requires Valid() && good
      modifies this, prefetched
      ensures Valid() && |Remaining()| <= |old(Remaining())| && (good ==> |Remaining()| < |old(Remaining())|)
      ensures readahead + From8(Remaining()) == old(readahead + From8(Remaining()))
    {
      var b := GetNextByte();
      if good {
        ghost var r := Remaining();
        assert ([b] + r)[1..] == r;
        readahead := readahead + [Byte(b)];
      }
    }

    /** Two bytes, if the input holds them. */
    method GetPair() returns (b0: byte, b1: byte)
      requires Valid()
      modifies this`fetched, this`available, this`used, this`good, prefetched
      ensures Valid() && good == (old(good) && |old(Remaining())| >= 2)
      ensures if good then old(Remaining()) == [b0, b1] + Remaining() else Remaining() == []
    {
      ghost var r := Remaining();
      b0 := GetNextByte();
      assert good ==> r == [b0] + Remaining();
      b1 := GetNextByte();
      assert good ==> r == [b0, b1] + Remaining();
    }

    method StreamInUtf32()
      requires Valid() && good && (charset == utf32be || charset == utf32le)
      modifies this, prefetched
      ensures Valid() && |Remaining()| <= |old(Remaining())| && (good ==> |Remaining()| < |old(Remaining())|)
      ensures readahead + From32(Remaining(), charset == utf32be) == old(readahead + From32(Remaining(), charset == utf32be))
    {
      hide Wide, Queued, From32;
      ghost var r := Remaining();
      var big := charset == utf32be;
      var b0, b1 := GetPair();
      var b2, b3 := GetPair();
      if !good {
        ShortFrom32(r, big);
        ShortFrom32([], big);
        return;
      }
      assert r == [b0, b1, b2, b3] + Remaining();
      WordInFront(b0, b1, b2, b3, Remaining(), big);
      var c := if big then Wide(Wide(Wide(b0, b1), b2), b3) else Wide(Wide(Wide(b3, b2), b1), b0);
      readahead := readahead + Queued(c);
    }

    /** Two bytes as one UTF-16 unit; false when the input ends before. */
    method GetUnit(big: bool) returns (ok: bool, u: nat)
      requires Valid() && good
      modifies this`fetched, this`available, this`used, this`good, prefetched
      ensures Valid() && ok == good == (|old(Remaining())| >= 2)
      ensures ok ==> u == Unit(old(Remaining()), big) && Remaining() == old(Remaining())[2..]
      ensures !ok ==> Remaining() == []
    {
      var b0, b1 := GetPair();
      ok := good;
      u := if big then Wide(b0, b1) else Wide(b1, b0);
    }

    method StreamInUtf16()
      requires Valid() && good && (charset == utf16be || charset == utf16le)
      modifies this, prefetched
      ensures Valid() && |Remaining()| <= |old(Remaining())| && (good ==> |Remaining()| < |old(Remaining())|)
      ensures readahead + From16(Remaining(), charset == utf16be) == old(readahead + From16(Remaining(), charset == utf16be))
    {
      hide Queued, Unit;
      var big := charset == utf16be;
      var ok, c := GetUnit(big);
      if !ok {
        return;
      }
      if IsLow(c) {
        readahead := readahead + Queued(REPLACEMENT_CHARACTER);
        return;
      }
      if IsHigh(c) {
        var paired;
        paired, c := ReadTrailingSurrogate(c);
        if !paired {
          return;
        }
      }
      readahead := readahead + Queued(c);
    }

    /** The inner loop of StreamInUtf16: false when it has queued something itself. */
    method ReadTrailingSurrogate(high: nat) returns (paired: bool, c: nat)
      requires Valid() && good && (charset == utf16be || charset == utf16le) && IsHigh(high)
      modifies this, prefetched
      ensures Valid() && |Remaining()| <= |old(Remaining())|
      ensures readahead + (if paired then Queued(c) else "") + From16(Remaining(), charset == utf16be) ==
              old(readahead + From16High(Remaining(), charset == utf16be, high))
    {
      hide Queued, From16, From16High, Unit;
      var big := charset == utf16be;
      c := high;
      ghost var target := readahead + From16High(Remaining(), big, high);
      while true
        invariant Valid() && good && |Remaining()| <= |old(Remaining())|
        invariant readahead + From16High(Remaining(), big, c) == target
        decreases |Remaining()|
      {
        ghost var before := readahead;
        AfterHigh(Remaining(), big, c);
        var ok, low := GetUnit(big);
        Regroup(before, Queued(REPLACEMENT_CHARACTER), Queued(c), From16(Remaining(), big));
        if !ok {
          readahead := readahead + Queued(REPLACEMENT_CHARACTER);
          EmptyFrom16(big);
          return false, c;
        }
        if !IsLow(low) {
          readahead := readahead + Queued(REPLACEMENT_CHARACTER);
          if low < 0xD800 || low >= 0xE000 {
            readahead := readahead + Queued(c);
            return false, c;
          }
          Regroup(before, Queued(REPLACEMENT_CHARACTER), "", From16High(Remaining(), big, low));
          c := low;
          continue;
        }
        c := c % 1024 * 1024 + low % 1024 + 0x10000;
        return true, c;
      }
    }

    /** _ReadAheadTo for all positions: until the input ends, whatever the prefetched pieces are. */
    method ReadAhead()
      requires Valid() && good
      modifies this, prefetched
      ensures Valid() && !good && readahead == old(readahead) + Transcoded(charset, old(Remaining()))
    {
      ghost var target := readahead + Transcoded(charset, Remaining());
      while good
        invariant Valid() && readahead + Transcoded(charset, Remaining()) == target
        decreases |Remaining()|, if good then 1 else 0
      {
        match charset {
          case utf8 => StreamInUtf8();
          case utf16le => StreamInUtf16();
          case utf16be => StreamInUtf16();
          case utf32le => StreamInUtf32();
          case utf32be => StreamInUtf32();
        }
      }
    }
  }

  lemma ShortFrom32(r: seq<byte>, big: bool)
    requires |r| < 4
    ensures From32(r, big) == ""
  {
  }

  lemma WordInFront(b0: byte, b1: byte, b2: byte, b3: byte, rest: seq<byte>, big: bool)
    ensures var c := if big then Wide(Wide(Wide(b0, b1), b2), b3) else Wide(Wide(Wide(b3, b2), b1), b0);
            From32([b0, b1, b2, b3] + rest, big) == Queued(c) + From32(rest, big)
  {
    hide Wide, Queued;
    assert ([b0, b1, b2, b3] + rest)[4..] == rest;
  }

  lemma EmptyFrom16(big: bool)
    ensures From16([], big) == ""
  {
  }

  lemma Regroup(a: string, b: string, c: string, d: string)
    ensures a + (b + c + d) == a + b + c + d && a + (b + d) == a + b + d && a + b + "" + d == a + b + d
    ensures a + b + c + "" + d == a + b + c + d && a + b + "" + "" == a + b && a + b + c + "" == a + b + c
    ensures a + c + d == a + (c + d)
  {
  }

  lemma AfterHigh(r: seq<byte>, big: bool, high: nat)
    ensures From16High(r, big, high) ==
            if |r| < 2 then Queued(REPLACEMENT_CHARACTER)
            else if IsLow(Unit(r, big)) then Queued(high % 1024 * 1024 + Unit(r, big) % 1024 + 0x10000) + From16(r[2..], big)
            else if IsHigh(Unit(r, big)) then Queued(REPLACEMENT_CHARACTER) + From16High(r[2..], big, Unit(r, big))
            else Queued(REPLACEMENT_CHARACTER) + Queued(high) + From16(r[2..], big)
  {
    hide Queued, From16, Unit;
  }

  // Texts in the five encodings

  function ByteOrderMark(charset: Charset): seq<byte> {
    match charset
    case utf8 => [0xEF, 0xBB, 0xBF]
    case utf16le => [0xFF, 0xFE]
    case utf16be => [0xFE, 0xFF]
    case utf32le => [0xFF, 0xFE, 0, 0]
    case utf32be => [0, 0, 0xFE, 0xFF]
  }

  function UnitBytes(u: nat, big: bool): seq<byte>
    requires u < 0x10000
  {
    if big then [u / 256, u % 256] else [u % 256, u / 256]
  }

  function In16(c: Scalar, big: bool): seq<byte> {
    if c < 0x10000 then UnitBytes(c, big)
    else UnitBytes(0xD800 + (c - 0x10000) / 1024, big) + UnitBytes(0xDC00 + (c - 0x10000) % 1024, big)
  }

  function In32(c: Scalar, big: bool): seq<byte> {
    if big then [0, c / 65536, c / 256 % 256, c % 256] else [c % 256, c / 256 % 256, c / 65536, 0]
  }

  function Codes(w: string): seq<byte>
    requires Bytes(w)
  {
    if w == "" then [] else [w[0] as int] + Codes(w[1..])
  }

  lemma EncodedBytes(c: Scalar)
    ensures Bytes(Encode(c))
  {
  }

  function In8(c: Scalar): seq<byte> {
    EncodedBytes(c);
    Codes(Encode(c))
  }

  function Written(charset: Charset, c: Scalar): seq<byte> {
    match charset
    case utf8 => In8(c)
    case utf16le => In16(c, false)
    case utf16be => In16(c, true)
    case utf32le => In32(c, false)
    case utf32be => In32(c, true)
  }

  function WrittenAll(charset: Charset, codePoints: seq<Scalar>): seq<byte> {
    if codePoints == [] then [] else Written(charset, codePoints[0]) + WrittenAll(charset, codePoints[1..])
  }

  lemma UnitReads(u: nat, big: bool, rest: seq<byte>)
    requires u < 0x10000
    ensures |UnitBytes(u, big) + rest| >= 2 && Unit(UnitBytes(u, big) + rest, big) == u && (UnitBytes(u, big) + rest)[2..] == rest
  {
  }

  lemma SurrogatesJoin(c: int)
    requires 0x10000 <= c <= 0x10FFFF
    ensures var high, low := 0xD800 + (c - 0x10000) / 1024, 0xDC00 + (c - 0x10000) % 1024;
            IsHigh(high) && IsLow(low) && high % 1024 * 1024 + low % 1024 + 0x10000 == c
  {
    var d := c - 0x10000;
    assert (0xD800 + d / 1024) % 1024 == d / 1024 && (0xDC00 + d % 1024) % 1024 == d % 1024;
  }

  lemma Reads16(c: Scalar, big: bool, rest: seq<byte>)
    requires c != EOF_CODE_POINT
    ensures From16(In16(c, big) + rest, big) == Encode(c) + From16(rest, big)
  {
    hide Encode, Queued, Unit, UnitBytes;
    QueuedIsEncoded(c);
    if c < 0x10000 {
      UnitReads(c, big, rest);
    } else {
      var high, low := 0xD800 + (c - 0x10000) / 1024, 0xDC00 + (c - 0x10000) % 1024;
      SurrogatesJoin(c);
      var second := UnitBytes(low, big) + rest;
      UnitReads(high, big, second);
      UnitReads(low, big, rest);
      assert UnitBytes(high, big) + UnitBytes(low, big) + rest == UnitBytes(high, big) + second;
      AfterHigh(second, big, high);
      hide From16High;
    }
  }

  lemma WordReads(c: Scalar, big: bool, rest: seq<byte>)
    ensures |In32(c, big) + rest| >= 4 && Word(In32(c, big) + rest, big) == c && (In32(c, big) + rest)[4..] == rest
  {
    assert c / 65536 == c / 256 / 256;
  }

  lemma Reads32(c: Scalar, big: bool, rest: seq<byte>)
    requires c != EOF_CODE_POINT
    ensures From32(In32(c, big) + rest, big) == Encode(c) + From32(rest, big)
  {
    hide Encode, Queued, Word, In32;
    QueuedIsEncoded(c);
    WordReads(c, big, rest);
  }

  lemma {:induction false} Reads8(w: seq<byte>, rest: seq<byte>)
    ensures From8(w + rest) == From8(w) + From8(rest)
  {
    if w == [] {
      assert w + rest == rest;
    } else {
      assert (w + rest)[1..] == w[1..] + rest;
      Reads8(w[1..], rest);
    }
  }

  lemma {:induction false} From8OfCodes(w: string)
    requires Bytes(w)
    ensures From8(Codes(w)) == w
  {
    if w != "" {
      From8OfCodes(w[1..]);
      assert ([w[0] as int] + Codes(w[1..]))[1..] == Codes(w[1..]);
    }
  }

  lemma ReadsOne(charset: Charset, c: Scalar, rest: seq<byte>)
    requires c != EOF_CODE_POINT
    ensures Transcoded(charset, Written(charset, c) + rest) == Encode(c) + Transcoded(charset, rest)
  {
    hide Encode, From8, From16, From32, Codes, In16, In32;
    match charset
    case utf8 =>
      Reads8(In8(c), rest);
      EncodedBytes(c);
      From8OfCodes(Encode(c));
    case utf16le => Reads16(c, false, rest);
    case utf16be => Reads16(c, true, rest);
    case utf32le => Reads32(c, false, rest);
    case utf32be => Reads32(c, true, rest);
  }

  /** Whatever the encoding, a text is read as its UTF-8. */
  lemma {:induction false} TextReads(charset: Charset, codePoints: seq<Scalar>)
    requires EOF_CODE_POINT !in codePoints
    ensures Transcoded(charset, WrittenAll(charset, codePoints)) == EncodeAll(codePoints)
  {
    if codePoints != [] {
      hide Written, Encode, Transcoded;
      ReadsOne(charset, codePoints[0], WrittenAll(charset, codePoints[1..]));
      TextReads(charset, codePoints[1..]);
    }
  }

  /** The first two bytes of little-endian UTF-16 are zero exactly if the text begins with U+0000. */
  lemma FirstUnit(codePoints: seq<Scalar>)
    requires codePoints != []
    ensures var w := WrittenAll(utf16le, codePoints); |w| >= 2 && (w[0] == 0 && w[1] == 0 <==> codePoints[0] == 0)
  {
    var w := Written(utf16le, codePoints[0]);
    var c: int := codePoints[0];
    var u := if c < 0x10000 then c else 0xD800 + (c - 0x10000) / 1024;
    assert |w| >= 2 && w[0] == u % 256 && w[1] == u / 256;
    assert WrittenAll(utf16le, codePoints)[0] == w[0] && WrittenAll(utf16le, codePoints)[1] == w[1];
  }

  lemma FirstBytes(charset: Charset, codePoints: seq<Scalar>)
    ensures var b := ByteOrderMark(charset) + WrittenAll(charset, codePoints);
            && (forall i :: 0 <= i < |ByteOrderMark(charset)| ==> ByteAt(b, i) == ByteOrderMark(charset)[i])
            && b[|ByteOrderMark(charset)|..] == WrittenAll(charset, codePoints)
            && (charset == utf16le ==> (ByteAt(b, 2) == 0 && ByteAt(b, 3) == 0 <==> codePoints != [] && codePoints[0] == 0))
  {
    if charset == utf16le && codePoints != [] {
      FirstUnit(codePoints);
    }
  }

  /**
   * A byte order mark names its encoding, and only little-endian UTF-16 that begins with U+0000 is mistaken,
   * for UTF-32.
   */
  lemma MarkIsDetected(charset: Charset, codePoints: seq<Scalar>)
    ensures Detected(ByteOrderMark(charset) + WrittenAll(charset, codePoints)) == (charset, |ByteOrderMark(charset)|)
            <==> !(charset == utf16le && codePoints != [] && codePoints[0] == 0)
  {
    hide WrittenAll;
    FirstBytes(charset, codePoints);
    if charset == utf16le {
      assert ByteOrderMark(charset)[0] == 0xFF && ByteOrderMark(charset)[1] == 0xFE;
    }
  }

  function Zeros(k: nat): string {
    if k == 0 then "" else "\0" + Zeros(k - 1)
  }

  /** Only U+0000 is queued as a text that begins with it. */
  lemma QueuedZero(codePoint: nat)
    requires codePoint < 0x1_0000_0000
    ensures Queued(codePoint) != "" && (Queued(codePoint)[0] == '\0' <==> codePoint == 0) && Queued(0) == "\0"
  {
  }

  /** Where little-endian UTF-16 has four zero bytes, there are two characters U+0000. */
  lemma TwoZeros(x: seq<Scalar>)
    requires var w := WrittenAll(utf16le, x); |w| >= 4 && Word(w, false) == 0
    ensures |x| >= 2 && x[0] == 0 && x[1] == 0
    ensures WrittenAll(utf16le, x)[4..] == WrittenAll(utf16le, x[2..]) && EncodeAll(x) == "\0\0" + EncodeAll(x[2..])
  {
    hide WrittenAll, EncodeAll;
    var w := WrittenAll(utf16le, x);
    assert w[0] == 0 && w[1] == 0 && w[2] == 0 && w[3] == 0;
    ZeroUnit(x);
    assert w[2..][0] == 0 && w[2..][1] == 0;
    ZeroUnit(x[1..]);
    assert x[1..][1..] == x[2..] && x[1..][0] == x[1] && w[4..] == w[2..][2..];
    JoinZeros(EncodeAll(x[2..]));
  }

  lemma JoinZeros(rest: string)
    ensures "\0" + ("\0" + rest) == "\0\0" + rest
  {
  }

  lemma ZeroUnit(x: seq<Scalar>)
    requires var w := WrittenAll(utf16le, x); |w| >= 2 && w[0] == 0 && w[1] == 0
    ensures x != [] && x[0] == 0
    ensures WrittenAll(utf16le, x)[2..] == WrittenAll(utf16le, x[1..]) && EncodeAll(x) == "\0" + EncodeAll(x[1..])
  {
    FirstUnit(x);
    assert Written(utf16le, x[0]) == [0, 0];
    assert ([0, 0] + WrittenAll(utf16le, x[1..]))[2..] == WrittenAll(utf16le, x[1..]);
  }

  /** UTF-16 taken for UTF-32 is never read as a text that has at least one U+0000 more. */
  lemma {:induction false} NeverWhole(x: seq<Scalar>, k: nat)
    requires k >= 1
    ensures From32(WrittenAll(utf16le, x), false) != Zeros(k) + EncodeAll(x)
  {
    hide Queued, Word, EncodeAll;
    var w := WrittenAll(utf16le, x);
    hide WrittenAll;
    assert (Zeros(k) + EncodeAll(x))[0] == '\0';
    if |w| >= 4 {
      WordFits(w);
      QueuedZero(Word(w, false));
      if Word(w, false) == 0 {
        TwoZeros(x);
        NeverWhole(x[2..], k + 1);
        FewZeros();
        OneZeroRead(k, 2, From32(WrittenAll(utf16le, x[2..]), false), EncodeAll(x[2..]));
      }
    }
  }

  lemma WordFits(w: seq<byte>)
    requires |w| >= 4
    ensures Word(w, false) < 0x1_0000_0000
  {
  }

  lemma {:induction false} ZerosJoin(k: nat, n: nat, rest: string)
    ensures Zeros(k) + (Zeros(n) + rest) == Zeros(k + n) + rest
  {
    if k == 0 {
      assert "" + (Zeros(n) + rest) == Zeros(n) + rest;
    } else {
      ZerosJoin(k - 1, n, rest);
      assert "\0" + Zeros(k - 1) + (Zeros(n) + rest) == "\0" + (Zeros(k - 1) + (Zeros(n) + rest));
      assert "\0" + Zeros(k - 1 + n) + rest == "\0" + (Zeros(k - 1 + n) + rest);
    }
  }

  /** After n more zeros, of which one was read. */
  lemma OneZeroRead(k: nat, n: nat, read: string, rest: string)
    requires k >= 1 && n >= 1
    ensures read != Zeros(k + n - 1) + rest <==> "\0" + read != Zeros(k) + (Zeros(n) + rest)
  {
    ZerosJoin(k, n, rest);
    assert Zeros(k + n) == "\0" + Zeros(k + n - 1);
    assert "\0" + Zeros(k + n - 1) + rest == "\0" + (Zeros(k + n - 1) + rest);
    assert ("\0" + read)[1..] == read && ("\0" + (Zeros(k + n - 1) + rest))[1..] == Zeros(k + n - 1) + rest;
  }

  lemma FewZeros()
    ensures Zeros(1) == "\0" && Zeros(2) == "\0\0" && Zeros(4) == "\0\0\0\0"
  {
    assert Zeros(3) == "\0\0\0";
  }

  lemma NotZero16(b: seq<byte>)
    requires |b| >= 2 && !(b[0] == 0 && b[1] == 0)
    ensures From16(b, false) != "" && From16(b, false)[0] != '\0'
  {
    hide Queued;
    var u := Unit(b, false);
    QueuedZero(u);
    QueuedZero(REPLACEMENT_CHARACTER);
    if IsHigh(u) && |b| >= 4 {
      var low := Unit(b[2..], false);
      if IsLow(low) {
        QueuedZero(u % 1024 * 1024 + low % 1024 + 0x10000);
      }
    }
  }

  lemma CodesFrom(w: string, n: nat)
    requires Bytes(w) && n <= |w|
    ensures Bytes(w[n..]) && |Codes(w)| == |w| && Codes(w)[n..] == Codes(w[n..])
    ensures forall i :: 0 <= i < |w| ==> Codes(w)[i] == w[i] as int
    decreases |w|
  {
    if w != "" {
      CodesFrom(w[1..], if n > 0 then n - 1 else 0);
      if n > 0 {
        assert w[1..][n - 1..] == w[n..];
      }
      assert Codes(w) == [w[0] as int] + Codes(w[1..]);
    }
  }

  /** UTF-8 taken for UTF-16 is never read as a text that has at least one U+0000 more. */
  lemma {:induction false} NeverWhole16(w: string, k: nat)
    requires Bytes(w) && k >= 1
    ensures From16(Codes(w), false) != Zeros(k) + w
    decreases |w|
  {
    hide Codes, Bytes, Queued, From16High;
    CodesFrom(w, 0);
    assert (Zeros(k) + w)[0] == '\0';
    if |w| >= 2 {
      CodesFrom(w, 2);
      if w[0] == '\0' && w[1] == '\0' {
        NeverWhole16(w[2..], k + 1);
        QueuedZero(0);
        FewZeros();
        OneZeroRead(k, 2, From16(Codes(w[2..]), false), w[2..]);
        assert w == Zeros(2) + w[2..];
      } else {
        NotZero16(Codes(w));
      }
    }
  }

  lemma {:induction false} NeverWhole32(w: string, k: nat)
    requires Bytes(w) && k >= 1
    ensures From32(Codes(w), false) != Zeros(k) + w
    decreases |w|
  {
    hide Codes, Bytes, Queued;
    CodesFrom(w, 0);
    assert (Zeros(k) + w)[0] == '\0';
    if |w| >= 4 {
      CodesFrom(w, 4);
      WordFits(Codes(w));
      QueuedZero(Word(Codes(w), false));
      if Word(Codes(w), false) == 0 {
        assert w[0] == '\0' && w[1] == '\0' && w[2] == '\0' && w[3] == '\0';
        NeverWhole32(w[4..], k + 3);
        FewZeros();
        OneZeroRead(k, 4, From32(Codes(w[4..]), false), w[4..]);
        assert w == Zeros(4) + w[4..];
      }
    }
  }

  /** UTF-8 without a byte order mark, beginning with an ASCII character: only a U+0000 behind it misleads. */
  lemma AsciiIsDetected(w: string)
    requires Bytes(w) && w != "" && 0 < w[0] as int < 0x80
    ensures Transcoded(Detected(Codes(w)).0, Codes(w)[Detected(Codes(w)).1..]) == w <==> !(|w| >= 2 && w[1] == '\0')
    ensures Detected(Codes(w)).1 == 0
  {
    hide Codes, From8, From16, From32, Bytes;
    CodesFrom(w, 0);
    var b := Codes(w);
    assert ByteAt(b, 0) == w[0] as int && (|w| >= 2 ==> ByteAt(b, 1) == w[1] as int);
    assert b[0..] == b;
    if |w| >= 2 && w[1] == '\0' {
      if |w| >= 4 && w[2] == '\0' && w[3] == '\0' {
        assert Detected(b) == (utf32le, 0);
        TakenFor32(w);
      } else {
        assert Detected(b) == (utf16le, 0);
        TakenFor16(w);
      }
    } else {
      assert Detected(b) == (utf8, 0);
      From8OfCodes(w);
    }
  }

  lemma TakenFor16(w: string)
    requires Bytes(w) && |w| >= 2 && 0 < w[0] as int < 0x80 && w[1] == '\0'
    ensures From16(Codes(w), false) != w
  {
    hide Codes, Bytes, From16High, Queued;
    CodesFrom(w, 2);
    NeverWhole16(w[2..], 1);
    FewZeros();
    var u := Unit(Codes(w), false);
    assert u == w[0] as int;
    OneCharacter(u, From16(Codes(w[2..]), false), Zeros(1) + w[2..]);
    assert w == [Byte(u)] + (Zeros(1) + w[2..]);
  }

  lemma TakenFor32(w: string)
    requires Bytes(w) && |w| >= 4 && 0 < w[0] as int < 0x80 && w[1] == '\0' && w[2] == '\0' && w[3] == '\0'
    ensures From32(Codes(w), false) != w
  {
    hide Codes, Bytes, Queued;
    CodesFrom(w, 4);
    NeverWhole32(w[4..], 3);
    var c := Word(Codes(w), false);
    assert c == w[0] as int && Zeros(3) == "\0\0\0";
    OneCharacter(c, From32(Codes(w[4..]), false), Zeros(3) + w[4..]);
    assert w == [Byte(c)] + (Zeros(3) + w[4..]);
  }

  /** The end marker is replaced; any other ASCII character arrives, and then the rest differs. */
  lemma OneCharacter(c: nat, read: string, rest: string)
    requires c < 0x80 && read != rest
    ensures Queued(c) + read != [Byte(c)] + rest
  {
    if c == EOF_CODE_POINT {
      assert Queued(c)[0] != Byte(c);
      assert (Queued(c) + read)[0] == Queued(c)[0];
    } else {
      assert Queued(c) == [Byte(c)];
      assert ([Byte(c)] + read)[1..] == read && ([Byte(c)] + rest)[1..] == rest;
    }
  }

  /** What a Stream makes of its whole input. */
  method Decode(b: seq<byte>) returns (text: string)
    ensures Detected(b).1 <= |b| && text == Transcoded(Detected(b).0, b[Detected(b).1..])
  {
    hide Detected, Transcoded;
    var decoder := new Decoder(b);
    decoder.ReadAhead();
    text := decoder.readahead;
    assert "" + Transcoded(Detected(b).0, b[Detected(b).1..]) == Transcoded(Detected(b).0, b[Detected(b).1..]);
  }

  lemma MistakenText(codePoints: seq<Scalar>)
    requires codePoints != [] && codePoints[0] == 0
    ensures var b := ByteOrderMark(utf16le) + WrittenAll(utf16le, codePoints);
            Detected(b) == (utf32le, 4) && Transcoded(utf32le, b[4..]) != EncodeAll(codePoints)
  {
    var w := WrittenAll(utf16le, codePoints);
    var b := ByteOrderMark(utf16le) + w;
    FirstBytes(utf16le, codePoints);
    assert Written(utf16le, codePoints[0]) == [0, 0];
    ZeroUnit(codePoints);
    assert b[4..] == w[2..];
    NeverWhole(codePoints[1..], 1);
    assert Zeros(1) == "\0" + Zeros(0) == "\0";
    hide WrittenAll, EncodeAll, From32;
  }

  /**
   * The same text in any of the five encodings, behind its byte order mark, gives the same characters, unless it
   * is little-endian UTF-16 that begins with U+0000.
   */
  method ReadText(charset: Charset, codePoints: seq<Scalar>) returns (text: string)
    requires EOF_CODE_POINT !in codePoints
    ensures text == EncodeAll(codePoints) <==> !(charset == utf16le && codePoints != [] && codePoints[0] == 0)
  {
    hide Detected, Transcoded, EncodeAll;
    var b := ByteOrderMark(charset) + WrittenAll(charset, codePoints);
    FirstBytes(charset, codePoints);
    MarkIsDetected(charset, codePoints);
    TextReads(charset, codePoints);
    if charset == utf16le && codePoints != [] && codePoints[0] == 0 {
      MistakenText(codePoints);
    }
    hide WrittenAll;
    text := Decode(b);
  }

  // Texts without a mark

  /** The first two characters of a text that begins with an ASCII character. */
  lemma UnmarkedBytes(charset: Charset, codePoints: seq<Scalar>)
    requires codePoints != [] && 0 < codePoints[0] < 0x80
    ensures var b := WrittenAll(charset, codePoints); var c: int := codePoints[0];
            var zero := |codePoints| >= 2 && codePoints[1] == 0;
            match charset
            case utf8 => ByteAt(b, 0) == c && (ByteAt(b, 1) == 0 <==> zero)
            case utf16le => ByteAt(b, 0) == c && ByteAt(b, 1) == 0 && (ByteAt(b, 2) == 0 && ByteAt(b, 3) == 0 <==> zero)
            case utf16be => ByteAt(b, 0) == 0 && ByteAt(b, 1) == c
            case utf32le => ByteAt(b, 0) == c && ByteAt(b, 1) == 0 && ByteAt(b, 2) == 0 && ByteAt(b, 3) == 0
            case utf32be => ByteAt(b, 0) == 0 && ByteAt(b, 1) == 0 && ByteAt(b, 2) == 0 && ByteAt(b, 3) == c
  {
    var b, more := WrittenAll(charset, codePoints), WrittenAll(charset, codePoints[1..]);
    assert b == Written(charset, codePoints[0]) + more;
    OneWritten(charset, codePoints[0]);
    if |codePoints| >= 2 {
      if charset == utf8 {
        FirstOf8(codePoints[1..]);
      } else if charset == utf16le {
        FirstUnit(codePoints[1..]);
      }
    } else {
      assert more == [];
    }
    hide WrittenAll, Written;
  }

  lemma OneWritten(charset: Charset, c: Scalar)
    requires 0 < c < 0x80
    ensures Written(charset, c) ==
            match charset
            case utf8 => [c]
            case utf16le => [c, 0]
            case utf16be => [0, c]
            case utf32le => [c, 0, 0, 0]
            case utf32be => [0, 0, 0, c]
  {
    assert Encode(c) == [Byte(c)] && Codes([Byte(c)]) == [c] + Codes([Byte(c)][1..]) && [Byte(c)][1..] == [];
  }

  lemma FirstOf8(codePoints: seq<Scalar>)
    requires codePoints != []
    ensures var b := WrittenAll(utf8, codePoints); b != [] && (b[0] == 0 <==> codePoints[0] == 0)
  {
    var w := Encode(codePoints[0]);
    EncodedBytes(codePoints[0]);
    assert In8(codePoints[0])[0] == w[0] as int;
  }

  /**
   * Without a byte order mark the encoding of a text that begins with an ASCII character is found by the zeros around
   * it; in UTF-8 and little-endian UTF-16 a U+0000 behind it misleads.
   */
  lemma UnmarkedIsDetected(charset: Charset, codePoints: seq<Scalar>)
    requires codePoints != [] && 0 < codePoints[0] < 0x80
    ensures Detected(WrittenAll(charset, codePoints)) == (charset, 0) <==>
            !((charset == utf8 || charset == utf16le) && |codePoints| >= 2 && codePoints[1] == 0)
  {
    UnmarkedBytes(charset, codePoints);
    hide WrittenAll;
  }

  lemma {:induction false} CodesOfAll(codePoints: seq<Scalar>)
    ensures Bytes(EncodeAll(codePoints)) && Codes(EncodeAll(codePoints)) == WrittenAll(utf8, codePoints)
  {
    if codePoints != [] {
      EncodedBytes(codePoints[0]);
      CodesOfAll(codePoints[1..]);
      CodesJoin(Encode(codePoints[0]), EncodeAll(codePoints[1..]));
    }
  }

  lemma {:induction false} CodesJoin(a: string, b: string)
    requires Bytes(a) && Bytes(b)
    ensures Bytes(a + b) && Codes(a + b) == Codes(a) + Codes(b)
  {
    if a == "" {
      assert a + b == b;
    } else {
      assert (a + b)[1..] == a[1..] + b;
      CodesJoin(a[1..], b);
      hide Bytes;
    }
  }

  lemma ZeroWritten()
    ensures Written(utf16le, 0) == [0, 0]
  {
  }

  lemma WrittenFirst(charset: Charset, codePoints: seq<Scalar>)
    requires codePoints != []
    ensures WrittenAll(charset, codePoints) == Written(charset, codePoints[0]) + WrittenAll(charset, codePoints[1..])
  {
    hide Written;
  }

  lemma FirstTwo(codePoints: seq<Scalar>)
    requires |codePoints| >= 2 && 0 < codePoints[0] < 0x80 && codePoints[1] == 0
    ensures WrittenAll(utf16le, codePoints) == [codePoints[0], 0, 0, 0] + WrittenAll(utf16le, codePoints[2..])
  {
    hide WrittenAll, Written;
    var c, more := codePoints[0], WrittenAll(utf16le, codePoints[2..]);
    OneWritten(utf16le, c);
    ZeroWritten();
    assert codePoints[1..][1..] == codePoints[2..];
    WrittenFirst(utf16le, codePoints);
    WrittenFirst(utf16le, codePoints[1..]);
    TwoPairs(c, more);
  }

  lemma TwoPairs(c: byte, more: seq<byte>)
    ensures [c, 0] + ([0, 0] + more) == [c, 0, 0, 0] + more
  {
  }

  lemma WordOfOne(c: byte, more: seq<byte>)
    ensures var b := [c, 0, 0, 0] + more; Word(b, false) == c && b[4..] == more
  {
  }

  lemma FirstTwoRead(codePoints: seq<Scalar>)
    requires |codePoints| >= 2 && 0 < codePoints[0] < 0x80 && codePoints[1] == 0
    ensures EncodeAll(codePoints) == [Byte(codePoints[0])] + ("\0" + EncodeAll(codePoints[2..]))
  {
    assert codePoints[1..][1..] == codePoints[2..];
    assert Encode(0) == "\0" && Encode(codePoints[0]) == [Byte(codePoints[0])];
    hide Encode;
    assert EncodeAll(codePoints[1..]) == "\0" + EncodeAll(codePoints[2..]);
  }

  lemma UnmarkedIs32(b: seq<byte>)
    requires 0 < ByteAt(b, 0) < 0x80 && ByteAt(b, 1) == 0 && ByteAt(b, 2) == 0 && ByteAt(b, 3) == 0
    ensures Detected(b) == (utf32le, 0)
  {
  }

  lemma MistakenUnmarked(codePoints: seq<Scalar>)
    requires |codePoints| >= 2 && 0 < codePoints[0] < 0x80 && codePoints[1] == 0
    ensures var b := WrittenAll(utf16le, codePoints); Detected(b) == (utf32le, 0) && From32(b, false) != EncodeAll(codePoints)
  {
    hide WrittenAll, EncodeAll, Queued, Word;
    UnmarkedBytes(utf16le, codePoints);
    UnmarkedIs32(WrittenAll(utf16le, codePoints));
    hide Detected;
    FirstTwo(codePoints);
    FirstTwoRead(codePoints);
    var c, more := codePoints[0], codePoints[2..];
    var b := WrittenAll(utf16le, codePoints);
    WordOfOne(c, WrittenAll(utf16le, more));
    NeverWhole(more, 1);
    assert Zeros(1) == "\0" + Zeros(0) == "\0";
    OneCharacter(c, From32(b[4..], false), "\0" + EncodeAll(more));
  }

  /** A text without a mark arrives exactly if its encoding is found. */
  method ReadUnmarked(charset: Charset, codePoints: seq<Scalar>) returns (text: string)
    requires EOF_CODE_POINT !in codePoints && codePoints != [] && 0 < codePoints[0] < 0x80
    ensures text == EncodeAll(codePoints) <==>
            !((charset == utf8 || charset == utf16le) && |codePoints| >= 2 && codePoints[1] == 0)
  {
    hide Detected, Transcoded, EncodeAll, WrittenAll, Codes;
    var b := WrittenAll(charset, codePoints);
    UnmarkedIsDetected(charset, codePoints);
    assert b[0..] == b;
    text := Decode(b);
    if Detected(b) == (charset, 0) {
      TextReads(charset, codePoints);
    } else if charset == utf8 {
      CodesOfAll(codePoints);
      UnmarkedText(codePoints);
      AsciiIsDetected(EncodeAll(codePoints));
    } else {
      MistakenUnmarked(codePoints);
      As32(b);
    }
  }

  lemma As32(b: seq<byte>)
    ensures Transcoded(utf32le, b) == From32(b, false)
  {
  }

  lemma UnmarkedText(codePoints: seq<Scalar>)
    requires |codePoints| >= 2 && 0 < codePoints[0] < 0x80 && codePoints[1] == 0
    ensures var w := EncodeAll(codePoints); |w| >= 2 && w[0] as int == codePoints[0] && w[1] == '\0'
  {
    FirstTwoRead(codePoints);
    hide EncodeAll;
  }
}
