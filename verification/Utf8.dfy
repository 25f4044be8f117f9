/**
 * Code points to bytes and back, as emitterutils.cpp does it. A byte is a char below 256. Well-formed
 * UTF-8 is defined on its own, by the table in section 4 of RFC 3629.
 */
module Utf8 {
  const REPLACEMENT_CHARACTER := 0xFFFD

  ghost predicate Bytes(s: string) {
    forall k :: 0 <= k < |s| ==> s[k] as int < 256
  }

  function Byte(n: int): char
    requires 0 <= n < 256
  {
    n as char
  }

  // Decoding

  /** The length the lead byte announces, -1 for a byte that cannot lead. */
  function Utf8BytesIndicated(c: char): int {
    var b := c as int;
    if b < 0x80 then 1 else if b < 0xC0 then -1 else if b < 0xE0 then 2 else if b < 0xF0 then 3 else 4
  }

  predicate IsTrailingByte(c: char) {
    0x80 <= c as int < 0xC0
  }

  predicate IsNonCharacter(codePoint: int) {
    codePoint % 0x10000 >= 0xFFFE || 0xFDD0 <= codePoint <= 0xFDEF
  }

  predicate IsScalarValue(codePoint: int) {
    0 <= codePoint <= 0x10FFFF && !(0xD800 <= codePoint <= 0xDFFF)
  }

  predicate IsCharacter(codePoint: int) {
    IsScalarValue(codePoint) && !IsNonCharacter(codePoint)
  }

  type Character = c: int |
    0 <= c <= 0x10FFFF && !(0xD800 <= c <= 0xDFFF) && !(0xFDD0 <= c <= 0xFDEF) && c % 0x10000 < 0xFFFE

  type Scalar = c: int | 0 <= c <= 0x10FFFF && !(0xD800 <= c <= 0xDFFF)

  function Checked(codePoint: int): int {
    if codePoint > 0x10FFFF || 0xD800 <= codePoint <= 0xDFFF || IsNonCharacter(codePoint) then REPLACEMENT_CHARACTER
    else codePoint
  }

  /** The bits of the lead byte that belong to the code point. */
  function LeadBits(c: char, nBytes: int): int {
    c as int % (if nBytes == 2 then 32 else if nBytes == 3 then 16 else 8)
  }

  /** n trailing bytes from i on, and where they end; a byte that does not trail ends them early. */
  function Gather(s: string, i: nat, n: nat, codePoint: int): (int, nat)
    requires i <= |s|
    decreases n
  {
    if n == 0 then (codePoint, i)
    else if i == |s| || !IsTrailingByte(s[i]) then (REPLACEMENT_CHARACTER, i)
    else Gather(s, i + 1, n - 1, codePoint * 64 + s[i] as int % 64)
  }

  /** The code point at i and where the next one starts. */
  function Decode(s: string, i: nat): (int, nat)
    requires i < |s|
  {
    var n := Utf8BytesIndicated(s[i]);
    if n < 1 then (REPLACEMENT_CHARACTER, i + 1)
    else if n == 1 then (s[i] as int, i + 1)
    else
      var (codePoint, j) := Gather(s, i + 1, n - 1, LeadBits(s[i], n));
      (Checked(codePoint), j)
  }

  lemma {:induction false} GatherBounds(s: string, i: nat, n: nat, codePoint: int)
    requires i <= |s| && codePoint >= 0
    ensures i <= Gather(s, i, n, codePoint).1 <= |s| && Gather(s, i, n, codePoint).0 >= 0
    decreases n
  {
    if n > 0 && i < |s| && IsTrailingByte(s[i]) {
      GatherBounds(s, i + 1, n - 1, codePoint * 64 + s[i] as int % 64);
    }
  }

  /** Decoding always advances, stays inside, and never yields a surrogate or a noncharacter. */
  lemma DecodeBounds(s: string, i: nat)
    requires i < |s|
    ensures i < Decode(s, i).1 <= |s| && IsCharacter(Decode(s, i).0)
  {
    var n := Utf8BytesIndicated(s[i]);
    if n > 1 {
      GatherBounds(s, i + 1, n - 1, LeadBits(s[i], n));
    }
  }

  /** GetNextCodePointAndAdvance; false at the end of the string. */
  method GetNextCodePointAndAdvance(s: string, first: nat) returns (more: bool, codePoint: int, next: nat)
    requires first <= |s|
    ensures more <==> first < |s|
    ensures more ==> (codePoint, next) == Decode(s, first) && first < next <= |s|
    ensures !more ==> next == first
  {
    next, codePoint := first, 0;
    if first == |s| {
      return false, codePoint, next;
    }
    DecodeBounds(s, first);
    var nBytes := Utf8BytesIndicated(s[first]);
    next := first + 1;
    if nBytes < 1 {
      return true, REPLACEMENT_CHARACTER, next;
    }
    if nBytes == 1 {
      return true, s[first] as int, next;
    }
    codePoint := LeadBits(s[first], nBytes);
    nBytes := nBytes - 1;
    ghost var target := Gather(s, next, nBytes, codePoint);
    while nBytes > 0
      invariant 0 <= nBytes && first < next <= |s|
      invariant Gather(s, next, nBytes, codePoint) == target
    {
      if next == |s| || !IsTrailingByte(s[next]) {
        codePoint := REPLACEMENT_CHARACTER;
        break;
      }
      codePoint := codePoint * 64 + s[next] as int % 64;
      next := next + 1;
      nBytes := nBytes - 1;
    }
    if codePoint > 0x10FFFF {
      codePoint := REPLACEMENT_CHARACTER;
    } else if 0xD800 <= codePoint <= 0xDFFF {
      codePoint := REPLACEMENT_CHARACTER;
    } else if codePoint % 0x10000 >= 0xFFFE {
      codePoint := REPLACEMENT_CHARACTER;
    } else if 0xFDD0 <= codePoint <= 0xFDEF {
      codePoint := REPLACEMENT_CHARACTER;
    }
    more := true;
  }

  // Encoding

  function Encode(codePoint: int): string
    requires 0 <= codePoint <= 0x10FFFF
  {
    if codePoint <= 0x7F then [Byte(codePoint)]
    else if codePoint <= 0x7FF then [Byte(0xC0 + codePoint / 64), Byte(0x80 + codePoint % 64)]
    else if codePoint <= 0xFFFF then
      [Byte(0xE0 + codePoint / 4096), Byte(0x80 + codePoint / 64 % 64), Byte(0x80 + codePoint % 64)]
    else
      [Byte(0xF0 + codePoint / 262144), Byte(0x80 + codePoint / 4096 % 64), Byte(0x80 + codePoint / 64 % 64),
       Byte(0x80 + codePoint % 64)]
  }

  /** WriteCodePoint. */
  function Written(codePoint: int): string {
    Encode(if codePoint < 0 || codePoint > 0x10FFFF then REPLACEMENT_CHARACTER else codePoint)
  }

  predicate HasAt(s: string, i: nat, w: string) {
    i + |w| <= |s| && s[i..i + |w|] == w
  }

  lemma TwoBytes(c: int)
    requires 0x80 <= c <= 0x7FF
    ensures 0xC0 <= 0xC0 + c / 64 < 0xE0 && (0xC0 + c / 64) % 32 == c / 64 && (0x80 + c % 64) % 64 == c % 64
    ensures c / 64 * 64 + c % 64 == c
  {
  }

  lemma DecodeTwo(s: string, i: nat, c: int)
    requires 0x80 <= c <= 0x7FF && HasAt(s, i, Encode(c))
    ensures Gather(s, i + 1, 1, LeadBits(s[i], 2)) == (c, i + 2) && Utf8BytesIndicated(s[i]) == 2
  {
    TwoBytes(c);
    assert s[i] == s[i..i + 2][0] == Byte(0xC0 + c / 64);
    assert s[i + 1] == s[i..i + 2][1] == Byte(0x80 + c % 64);
  }

  lemma ThreeBytes(c: int)
    requires 0x800 <= c <= 0xFFFF
    ensures 0xE0 <= 0xE0 + c / 4096 < 0xF0 && (0xE0 + c / 4096) % 16 == c / 4096
    ensures (0x80 + c / 64 % 64) % 64 == c / 64 % 64 && (0x80 + c % 64) % 64 == c % 64
    ensures c / 4096 * 64 + c / 64 % 64 == c / 64 && c / 64 * 64 + c % 64 == c
  {
    assert c / 4096 == c / 64 / 64;
  }

  lemma GatherOne(s: string, i: nat, n: nat, codePoint: int, low: int)
    requires i < |s| && 0 <= low < 64 && s[i] == Byte(0x80 + low)
    ensures Gather(s, i, n + 1, codePoint) == Gather(s, i + 1, n, codePoint * 64 + low)
  {
    assert (0x80 + low) % 64 == low;
  }

  lemma DecodeThree(s: string, i: nat, c: int)
    requires 0x800 <= c <= 0xFFFF && HasAt(s, i, Encode(c))
    ensures Gather(s, i + 1, 2, LeadBits(s[i], 3)) == (c, i + 3) && Utf8BytesIndicated(s[i]) == 3
  {
    ThreeBytes(c);
    var b := s[i..i + 3];
    assert s[i] == b[0] && s[i + 1] == b[1] && s[i + 2] == b[2];
    GatherOne(s, i + 1, 1, c / 4096, c / 64 % 64);
    GatherOne(s, i + 2, 0, c / 64, c % 64);
    hide Gather;
    GatherNone(s, i + 3, c);
  }

  lemma GatherNone(s: string, i: nat, codePoint: int)
    requires i <= |s|
    ensures Gather(s, i, 0, codePoint) == (codePoint, i)
  {
  }

  lemma FourBytes(c: int)
    requires 0x10000 <= c <= 0x10FFFF
    ensures 0xF0 <= 0xF0 + c / 262144 < 0xF8 && (0xF0 + c / 262144) % 8 == c / 262144
    ensures c / 262144 * 64 + c / 4096 % 64 == c / 4096 && c / 4096 * 64 + c / 64 % 64 == c / 64 && c / 64 * 64 + c % 64 == c
  {
    assert c / 4096 == c / 64 / 64 && c / 262144 == c / 4096 / 64;
  }

  lemma DecodeFour(s: string, i: nat, c: int)
    requires 0x10000 <= c <= 0x10FFFF && HasAt(s, i, Encode(c))
    ensures Gather(s, i + 1, 3, LeadBits(s[i], 4)) == (c, i + 4) && Utf8BytesIndicated(s[i]) == 4
  {
    FourBytes(c);
    var b := s[i..i + 4];
    assert s[i] == b[0] && s[i + 1] == b[1] && s[i + 2] == b[2] && s[i + 3] == b[3];
    GatherOne(s, i + 1, 2, c / 262144, c / 4096 % 64);
    GatherOne(s, i + 2, 1, c / 4096, c / 64 % 64);
    GatherOne(s, i + 3, 0, c / 64, c % 64);
    hide Gather;
    GatherNone(s, i + 4, c);
  }

  /** Decoding undoes encoding, for every scalar value that is a character. */
  lemma DecodeEncoded(s: string, i: nat, c: int)
    requires IsCharacter(c) && HasAt(s, i, Encode(c))
    ensures i < |s| && Decode(s, i) == (c, i + |Encode(c)|)
  {
    if c <= 0x7F {
      assert s[i] == Encode(c)[0];
    } else {
      hide Gather;
      if c <= 0x7FF {
        DecodeTwo(s, i, c);
      } else if c <= 0xFFFF {
        DecodeThree(s, i, c);
      } else {
        DecodeFour(s, i, c);
      }
    }
  }

  function EncodeAll(codePoints: seq<Scalar>): string {
    if codePoints == [] then "" else Encode(codePoints[0]) + EncodeAll(codePoints[1..])
  }

  /** All code points from i on. */
  function CodePoints(s: string, i: nat): seq<Character>
    requires i <= |s|
    decreases |s| - i
  {
    if i == |s| then []
    else
      DecodeBounds(s, i);
      [Decode(s, i).0] + CodePoints(s, Decode(s, i).1)
  }

  lemma SplitAt(s: string, i: nat, w: string, rest: string)
    requires i <= |s| && s[i..] == w + rest
    ensures HasAt(s, i, w) && s[i + |w|..] == rest
  {
    assert s[i..i + |w|] == s[i..][..|w|];
    assert s[i + |w|..] == s[i..][|w|..];
  }

  lemma EncodeNotEmpty(c: int)
    requires 0 <= c <= 0x10FFFF
    ensures |Encode(c)| > 0
  {
  }

  /** Decoding what was encoded gives the code points back. */
  lemma {:induction false} CodePointsOfEncoded(s: string, i: nat, codePoints: seq<Character>)
    requires i <= |s|
    requires s[i..] == EncodeAll(codePoints)
    ensures CodePoints(s, i) == codePoints
    decreases |codePoints|
  {
    hide Encode, Decode;
    if codePoints != [] {
      var w := Encode(codePoints[0]);
      EncodeNotEmpty(codePoints[0]);
      SplitAt(s, i, w, EncodeAll(codePoints[1..]));
      DecodeEncoded(s, i, codePoints[0]);
      CodePointsOfEncoded(s, i + |w|, codePoints[1..]);
    }
  }

  // Well-formed UTF-8

  predicate In(c: char, low: int, high: int) {
    low <= c as int <= high
  }

  /** UTF8-1 to UTF8-4 of section 4 of RFC 3629: the length of the well-formed sequence at i, or 0. */
  function WellFormedAt(s: string, i: nat): (n: nat)
    requires i < |s|
    ensures i + n <= |s|
  {
    if In(s[i], 0, 0x7F) then 1
    else if i + 1 >= |s| then 0
    else if In(s[i], 0xC2, 0xDF) then if IsTrailingByte(s[i + 1]) then 2 else 0
    else if i + 2 >= |s| || !IsTrailingByte(s[i + 2]) then 0
    else if In(s[i], 0xE0, 0xEF) then
      if In(s[i + 1], if s[i] as int == 0xE0 then 0xA0 else 0x80, if s[i] as int == 0xED then 0x9F else 0xBF) then 3 else 0
    else if i + 3 >= |s| || !IsTrailingByte(s[i + 3]) then 0
    else if In(s[i], 0xF0, 0xF4) then
      if In(s[i + 1], if s[i] as int == 0xF0 then 0x90 else 0x80, if s[i] as int == 0xF4 then 0x8F else 0xBF) then 4 else 0
    else 0
  }

  predicate WellFormed(s: string, i: nat)
    requires i <= |s|
    decreases |s| - i
  {
    i == |s| || (WellFormedAt(s, i) > 0 && WellFormed(s, i + WellFormedAt(s, i)))
  }

  /** The code point of a well-formed sequence, by the table in section 3 of RFC 3629. */
  function ValueAt(s: string, i: nat): int
    requires i < |s| && WellFormedAt(s, i) > 0
  {
    var n := WellFormedAt(s, i);
    if n == 1 then s[i] as int
    else if n == 2 then (s[i] as int - 0xC0) * 64 + (s[i + 1] as int - 0x80)
    else if n == 3 then (s[i] as int - 0xE0) * 4096 + (s[i + 1] as int - 0x80) * 64 + (s[i + 2] as int - 0x80)
    else (s[i] as int - 0xF0) * 262144 + (s[i + 1] as int - 0x80) * 4096 + (s[i + 2] as int - 0x80) * 64 + (s[i + 3] as int - 0x80)
  }

  /** No noncharacter is encoded in s. */
  predicate NoNonCharacters(s: string, i: nat)
    requires i <= |s| && WellFormed(s, i)
    decreases |s| - i
  {
    i == |s| || (!IsNonCharacter(ValueAt(s, i)) && NoNonCharacters(s, i + WellFormedAt(s, i)))
  }

  /** What the table allows, as numbers: the bytes give back the digits they carry. */
  lemma ValueOfTwo(lead: int, a: int)
    requires 2 <= lead < 32 && 0 <= a < 64
    ensures var v := lead * 64 + a; 0x80 <= v <= 0x7FF && v / 64 == lead && v % 64 == a
  {
  }

  lemma ValueOfThree(lead: int, a: int, b: int)
    requires 0 <= lead < 16 && 0 <= a < 64 && 0 <= b < 64 && (lead == 0 ==> a >= 0x20) && (lead == 13 ==> a < 0x20)
    ensures var v := lead * 4096 + a * 64 + b;
            0x800 <= v <= 0xFFFF && !(0xD800 <= v <= 0xDFFF) && v / 4096 == lead && v / 64 % 64 == a && v % 64 == b
  {
    var v := lead * 4096 + a * 64 + b;
    assert v / 64 == lead * 64 + a;
  }

  lemma ValueOfFour(lead: int, a: int, b: int, c: int)
    requires 0 <= lead < 5 && 0 <= a < 64 && 0 <= b < 64 && 0 <= c < 64 && (lead == 0 ==> a >= 0x10) && (lead == 4 ==> a < 0x10)
    ensures var v := lead * 262144 + a * 4096 + b * 64 + c;
            0x10000 <= v <= 0x10FFFF && v / 262144 == lead && v / 4096 % 64 == a && v / 64 % 64 == b && v % 64 == c
  {
    var v := lead * 262144 + a * 4096 + b * 64 + c;
    assert v / 64 == lead * 4096 + a * 64 + b;
    assert v / 4096 == lead * 64 + a;
  }

  ghost predicate EncodedAt(s: string, i: nat, n: nat, v: int) {
    IsScalarValue(v) && HasAt(s, i, Encode(v)) && |Encode(v)| == n
  }

  lemma TwoAreEncoded(s: string, i: nat)
    requires i < |s| && WellFormedAt(s, i) == 2
    ensures EncodedAt(s, i, 2, ValueAt(s, i))
  {
    ValueOfTwo(s[i] as int - 0xC0, s[i + 1] as int - 0x80);
    assert s[i..i + 2] == [s[i], s[i + 1]] == Encode(ValueAt(s, i));
  }

  lemma ThreeAreEncoded(s: string, i: nat)
    requires i < |s| && WellFormedAt(s, i) == 3
    ensures EncodedAt(s, i, 3, ValueAt(s, i))
  {
    ValueOfThree(s[i] as int - 0xE0, s[i + 1] as int - 0x80, s[i + 2] as int - 0x80);
    assert s[i..i + 3] == [s[i], s[i + 1], s[i + 2]] == Encode(ValueAt(s, i));
  }

  lemma FourAreEncoded(s: string, i: nat)
    requires i < |s| && WellFormedAt(s, i) == 4
    ensures EncodedAt(s, i, 4, ValueAt(s, i))
  {
    ValueOfFour(s[i] as int - 0xF0, s[i + 1] as int - 0x80, s[i + 2] as int - 0x80, s[i + 3] as int - 0x80);
    assert s[i..i + 4] == [s[i], s[i + 1], s[i + 2], s[i + 3]] == Encode(ValueAt(s, i));
  }

  /** A well-formed sequence is the encoding of its code point. */
  lemma WellFormedIsEncoded(s: string, i: nat)
    requires i < |s| && WellFormedAt(s, i) > 0
    ensures EncodedAt(s, i, WellFormedAt(s, i), ValueAt(s, i))
  {
    var n := WellFormedAt(s, i);
    if n == 1 {
      assert s[i..i + 1] == [s[i]];
    } else if n == 2 {
      TwoAreEncoded(s, i);
    } else if n == 3 {
      ThreeAreEncoded(s, i);
    } else {
      FourAreEncoded(s, i);
    }
  }

  /** The encoding of a scalar value is well-formed. */
  lemma EncodedIsWellFormed(s: string, i: nat, c: int)
    requires IsScalarValue(c) && HasAt(s, i, Encode(c))
    ensures i < |s| && WellFormedAt(s, i) == |Encode(c)|
  {
    var w := s[i..i + |Encode(c)|];
    assert forall k :: 0 <= k < |w| ==> w[k] == s[i + k];
  }

  /** Decoding and encoding again: the loop every writer is built on. */
  function Recode(s: string): string {
    EncodeAll(CodePoints(s, 0))
  }

  lemma {:induction false} EncodedAllIsWellFormed(s: string, i: nat, codePoints: seq<Scalar>)
    requires i <= |s|
    requires s[i..] == EncodeAll(codePoints)
    ensures WellFormed(s, i)
    decreases |codePoints|
  {
    hide Encode, WellFormedAt;
    if codePoints != [] {
      var w := Encode(codePoints[0]);
      EncodeNotEmpty(codePoints[0]);
      SplitAt(s, i, w, EncodeAll(codePoints[1..]));
      EncodedIsWellFormed(s, i, codePoints[0]);
      EncodedAllIsWellFormed(s, i + |w|, codePoints[1..]);
    }
  }

  lemma OneMoreCodePoint(s: string, i: nat, c: Character)
    requires i < |s| && Decode(s, i) == (c, i + |Encode(c)|) && HasAt(s, i, Encode(c))
    requires EncodeAll(CodePoints(s, i + |Encode(c)|)) == s[i + |Encode(c)|..]
    ensures EncodeAll(CodePoints(s, i)) == s[i..]
  {
    hide Encode, Decode;
    var n := |Encode(c)|;
    var rest := CodePoints(s, i + n);
    assert CodePoints(s, i) == [c] + rest;
    assert ([c] + rest)[1..] == rest;
    assert s[i..] == s[i..i + n] + s[i + n..];
  }

  lemma {:induction false} WellFormedRecodes(s: string, i: nat)
    requires i <= |s| && WellFormed(s, i) && NoNonCharacters(s, i)
    ensures EncodeAll(CodePoints(s, i)) == s[i..]
    decreases |s| - i
  {
    if i < |s| {
      var c := ValueAt(s, i);
      WellFormedIsEncoded(s, i);
      DecodeEncoded(s, i, c);
      WellFormedRecodes(s, i + WellFormedAt(s, i));
      hide Encode, WellFormedAt, ValueAt, Decode, EncodeAll, CodePoints;
      OneMoreCodePoint(s, i, c);
    }
  }

  /**
   * Whatever bytes go in, well-formed UTF-8 comes out; well-formed UTF-8 without noncharacters comes out
   * unchanged; and recoding twice is recoding once.
   */
  lemma RecodeNormalizes(s: string)
    ensures WellFormed(Recode(s), 0)
    ensures WellFormed(s, 0) && NoNonCharacters(s, 0) ==> Recode(s) == s
    ensures CodePoints(Recode(s), 0) == CodePoints(s, 0) && Recode(Recode(s)) == Recode(s)
  {
    var r := Recode(s);
    assert r[0..] == r;
    EncodedAllIsWellFormed(r, 0, CodePoints(s, 0));
    CodePointsOfEncoded(r, 0, CodePoints(s, 0));
    if WellFormed(s, 0) && NoNonCharacters(s, 0) {
      WellFormedRecodes(s, 0);
      assert s[0..] == s;
    }
  }
}
