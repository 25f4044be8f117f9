/**
 * Base64 as binary.cpp writes and reads it, through buffers allocated beforehand; section 4 of RFC 4648.
 * A byte is a number below 256.
 */
module Base64 {
  type byte = x: int | 0 <= x < 256

  const PAD := '='

  /** The table `encoding`. */
  function Letter(d: int): char
    requires 0 <= d < 64
  {
    if d < 26 then ('A' as int + d) as char
    else if d < 52 then ('a' as int + d - 26) as char
    else if d < 62 then ('0' as int + d - 52) as char
    else if d == 62 then '+'
    else '/'
  }

  // Encoding

  function Quad(a: byte, b: byte, c: byte): string {
    [Letter(a / 4), Letter(a % 4 * 16 + b / 16), Letter(b % 16 * 4 + c / 64), Letter(c % 64)]
  }

  function Chunks(data: seq<byte>, n: nat): string
    requires 3 * n <= |data|
  {
    if n == 0 then "" else Chunks(data, n - 1) + Quad(data[3 * n - 3], data[3 * n - 2], data[3 * n - 1])
  }

  function Tail(data: seq<byte>): string {
    var n := |data|;
    if n % 3 == 1 then [Letter(data[n - 1] / 4), Letter(data[n - 1] % 4 * 16), PAD, PAD]
    else if n % 3 == 2 then
      [Letter(data[n - 2] / 4), Letter(data[n - 2] % 4 * 16 + data[n - 1] / 16), Letter(data[n - 1] % 16 * 4), PAD]
    else ""
  }

  function Encoded(data: seq<byte>): string {
    Chunks(data, |data| / 3) + Tail(data)
  }

  lemma {:induction false} ChunksLength(data: seq<byte>, n: nat)
    requires 3 * n <= |data|
    ensures |Chunks(data, n)| == 4 * n
  {
    hide Letter;
    if n > 0 {
      ChunksLength(data, n - 1);
    }
  }

  /** Four characters for every three bytes begun. */
  lemma EncodedLength(data: seq<byte>)
    ensures |Encoded(data)| == 4 * ((|data| + 2) / 3)
  {
    hide Letter;
    ChunksLength(data, |data| / 3);
  }

  /** EncodeBase64: no write leaves the buffer of 4 * size / 3 + 3 characters. */
  method EncodeBase64(data: seq<byte>) returns (ret: string)
    ensures ret == Encoded(data)
  {
    hide Quad, Letter;
    var size := |data|;
    var buffer := new char[4 * size / 3 + 3];
    var chunks := size / 3;
    var out := 0;
    for i := 0 to chunks
      invariant out == 4 * i && buffer[..out] == Chunks(data, i)
    {
      QuadLength(data[3 * i], data[3 * i + 1], data[3 * i + 2]);
      WriteQuad(buffer, out, Quad(data[3 * i], data[3 * i + 1], data[3 * i + 2]));
      out := out + 4;
    }
    if size % 3 != 0 {
      WriteQuad(buffer, out, Tail(data));
      out := out + 4;
    }
    ret := buffer[..out];
  }

  lemma QuadLength(a: byte, b: byte, c: byte)
    ensures |Quad(a, b, c)| == 4
  {
  }

  lemma FrontGrows<T>(s: seq<T>, i: nat, n: nat)
    requires i + n <= |s|
    ensures s[..i + n] == s[..i] + s[i..i + n]
  {
  }

  /** Four stores through the output pointer. */
  method WriteQuad(buffer: array<char>, out: nat, quad: string)
    requires |quad| == 4 && out + 4 <= buffer.Length
    modifies buffer
    ensures buffer[..out + 4] == old(buffer[..out]) + quad
  {
    buffer[out] := quad[0];
    buffer[out + 1] := quad[1];
    buffer[out + 2] := quad[2];
    buffer[out + 3] := quad[3];
    assert buffer[..out] == old(buffer[..out]);
    assert buffer[out..out + 4] == quad;
    FrontGrows(buffer[..], out, 4);
  }

  // Decoding

  const NONE := 255

  function Decoding(c: char): (d: int)
    ensures d == NONE || 0 <= d < 64
  {
    if 'A' <= c <= 'Z' then c as int - 'A' as int
    else if 'a' <= c <= 'z' then c as int - 'a' as int + 26
    else if '0' <= c <= '9' then c as int - '0' as int + 52
    else if c == '+' then 62
    else if c == '/' then 63
    else if c == PAD then 0
    else NONE
  }

  /** std::isspace in the C locale. */
  predicate IsSpace(c: char) {
    c == ' ' || 9 <= c as int <= 13
  }

  /** The accumulator wraps at 32 bits and is never cleared. */
  const UNSIGNED := 0x1_0000_0000

  function Shift(value: nat, d: nat): nat {
    value * 64 % UNSIGNED + d
  }

  datatype Decoder = Bad | Decoder(count: nat, value: nat, out: seq<byte>)

  /** The bytes the fourth character of a group adds; prev is the character before it in the text. */
  function Group(value: nat, prev: char, c: char): seq<byte> {
    [value / 0x1_0000 % 256] + (if prev != PAD then [value / 0x100 % 256] else []) + (if c != PAD then [value % 256] else [])
  }

  function Step(d: Decoder, prev: char, c: char): Decoder
    requires d.Decoder?
  {
    if Decoding(c) == NONE then Bad
    else
      var value := Shift(d.value, Decoding(c));
      Decoder(d.count + 1, value, if d.count % 4 == 3 then d.out + Group(value, prev, c) else d.out)
  }

  /** The decoder after the whole of s. */
  function Decode(s: string): Decoder {
    if s == "" then Decoder(0, 0, [])
    else
      var last := |s| - 1;
      var d := Decode(s[..last]);
      if d.Bad? || IsSpace(s[last]) then d else Step(d, if last > 0 then s[last - 1] else ' ', s[last])
  }

  function Decoded(s: string): seq<byte> {
    var d := Decode(s);
    if d.Bad? then [] else d.out
  }

  /** There is always room: three bytes for every four characters read. */
  lemma {:induction false} DecodeFits(s: string)
    ensures Decode(s).Decoder? ==> |Decode(s).out| <= 3 * (Decode(s).count / 4) && Decode(s).count <= |s|
  {
    if s != "" {
      DecodeFits(s[..|s| - 1]);
    }
  }

  lemma {:induction false} BadStays(s: string, n: nat)
    requires n <= |s| && Decode(s[..n]).Bad?
    ensures Decode(s).Bad?
    decreases |s|
  {
    if n == |s| {
      assert s[..n] == s;
    } else {
      assert s[..|s| - 1][..n] == s[..n];
      BadStays(s[..|s| - 1], n);
    }
  }

  lemma PrefixStep(s: string, i: nat)
    requires i < |s| && Decode(s[..i]).Decoder?
    ensures Decode(s[..i + 1]) ==
            if IsSpace(s[i]) then Decode(s[..i]) else Step(Decode(s[..i]), if i > 0 then s[i - 1] else ' ', s[i])
  {
    assert s[..i + 1][..i] == s[..i];
  }

  /** The stores for a full group; returns where the output pointer is then. */
  method WriteGroup(buffer: array<byte>, out: nat, value: nat, prev: char, c: char) returns (next: nat)
    requires out + 3 <= buffer.Length
    modifies buffer
    ensures out <= next <= buffer.Length && buffer[..next] == old(buffer[..out]) + Group(value, prev, c)
  {
    buffer[out] := value / 0x1_0000 % 256;
    next := out + 1;
    if prev != PAD {
      buffer[next] := value / 0x100 % 256;
      next := next + 1;
    }
    if c != PAD {
      buffer[next] := value % 256;
      next := next + 1;
    }
    assert buffer[..out] == old(buffer[..out]);
    assert buffer[out..next] == Group(value, prev, c);
    assert buffer[..next] == buffer[..out] + buffer[out..next];
  }

  /** DecodeBase64: no write leaves the buffer of 3 * size / 4 + 1 bytes. */
  method DecodeBase64(input: string) returns (ret: seq<byte>)
    ensures ret == Decoded(input)
  {
    hide Decode, Decoding, IsSpace, Group;
    EmptyDecodes();
    if input == "" {
      return [];
    }
    var buffer := new byte[3 * |input| / 4 + 1];
    var out, value, count := 0, 0, 0;
    assert input[..0] == "" && buffer[..0] == [];
    for i := 0 to |input|
      invariant 0 <= out <= buffer.Length && count >= 0 && value >= 0
      invariant Decode(input[..i]) == Decoder(count, value, buffer[..out])
    {
      PrefixStep(input, i);
      DecodeFits(input[..i]);
      if IsSpace(input[i]) {
        continue;
      }
      var d := Decoding(input[i]);
      if d == NONE {
        BadStays(input, i + 1);
        return [];
      }
      value := Shift(value, d);
      if count % 4 == 3 {
        PrefixRoom(count, out, |input|, i);
        out := WriteGroup(buffer, out, value, input[i - 1], input[i]);
      }
      count := count + 1;
    }
    assert input[..|input|] == input;
    ret := buffer[..out];
  }

  lemma EmptyDecodes()
    ensures Decode("") == Decoder(0, 0, [])
  {
  }

  lemma PrefixRoom(count: nat, out: nat, size: nat, i: nat)
    requires count % 4 == 3 && out <= 3 * (count / 4) && count <= i < size
    ensures i > 0 && out + 3 <= 3 * size / 4
  {
  }

  // Decoding undoes encoding

  lemma DecodingUndoes(d: int)
    requires 0 <= d < 64
    ensures Decoding(Letter(d)) == d && !IsSpace(Letter(d)) && Letter(d) != PAD
  {
  }

  lemma ShiftOnce(value: nat, d: nat)
    requires d < 64
    ensures Shift(value, d) % 64 == d
  {
    assert value * 64 == value * 64 / UNSIGNED * UNSIGNED + value * 64 % UNSIGNED;
  }

  lemma ShiftTwice(value: nat, d: nat, low: nat)
    requires d < 64 && value % 64 == low
    ensures Shift(value, d) % 4096 == low * 64 + d
  {
    var q, p := value / 64, value * 64 / UNSIGNED;
    assert value * 64 % UNSIGNED == 4096 * (q - p * 0x10_0000) + low * 64;
  }

  lemma ShiftThrice(value: nat, d: nat, low: nat)
    requires d < 64 && value % 4096 == low
    ensures Shift(value, d) % 262144 == low * 64 + d
  {
    var q, p := value / 4096, value * 64 / UNSIGNED;
    assert value * 64 % UNSIGNED == 262144 * (q - p * 0x4000) + low * 64;
  }

  lemma ShiftFully(value: nat, d: nat, low: nat)
    requires d < 64 && value % 262144 == low
    ensures Shift(value, d) % 0x100_0000 == low * 64 + d
  {
    var q, p := value / 262144, value * 64 / UNSIGNED;
    assert value * 64 % UNSIGNED == 0x100_0000 * (q - p * 0x100) + low * 64;
  }

  /** The last four digits shifted in are the low 24 bits, whatever was there before. */
  lemma LowBits(value: nat, d0: nat, d1: nat, d2: nat, d3: nat)
    requires d0 < 64 && d1 < 64 && d2 < 64 && d3 < 64
    ensures Shift(Shift(Shift(Shift(value, d0), d1), d2), d3) % 0x100_0000 == ((d0 * 64 + d1) * 64 + d2) * 64 + d3
  {
    ShiftOnce(value, d0);
    ShiftTwice(Shift(value, d0), d1, d0);
    ShiftThrice(Shift(Shift(value, d0), d1), d2, d0 * 64 + d1);
    ShiftFully(Shift(Shift(Shift(value, d0), d1), d2), d3, (d0 * 64 + d1) * 64 + d2);
    hide Shift;
  }

  /** The three bytes of a group, from its low 24 bits. */
  lemma GroupBytes(value: nat, a: byte, b: byte, c: byte)
    requires value % 0x100_0000 == (a * 256 + b) * 256 + c
    ensures value / 0x1_0000 % 256 == a && value / 0x100 % 256 == b && value % 256 == c
  {
    var q := value / 0x100_0000;
    assert value / 0x100 == q * 0x1_0000 + a * 256 + b;
    assert value / 0x1_0000 == q * 256 + a;
  }

  /** Decoding four more characters that are no white space. */
  lemma DecodeFour(s: string, w: string)
    requires |w| == 4 && Decode(s).Decoder? && forall k :: 0 <= k < 4 ==> !IsSpace(w[k]) && Decoding(w[k]) != NONE
    requires Decode(s).count % 4 == 0
    ensures var d := Decode(s);
            var value := Shift(Shift(Shift(Shift(d.value, Decoding(w[0])), Decoding(w[1])), Decoding(w[2])), Decoding(w[3]));
            Decode(s + w) == Decoder(d.count + 4, value, d.out + Group(value, w[2], w[3]))
  {
    hide Decoding, IsSpace, Group, Decode, Shift;
    var s1 := s + [w[0]];
    var s2 := s1 + [w[1]];
    var s3 := s2 + [w[2]];
    DecodeOne(s, w[0]);
    DecodeOne(s1, w[1]);
    DecodeOne(s2, w[2]);
    DecodeOne(s3, w[3]);
    assert s + w == s3 + [w[3]];
  }

  lemma DecodeOne(s: string, c: char)
    requires !IsSpace(c) && Decoding(c) != NONE && Decode(s).Decoder?
    ensures Decode(s + [c]) == Step(Decode(s), if s != "" then s[|s| - 1] else ' ', c)
    ensures (s + [c])[|s|] == c
  {
    hide Step, Decoding, IsSpace;
    assert (s + [c])[..|s|] == s;
  }

  lemma QuadDecodes(s: string, a: byte, b: byte, c: byte)
    requires Decode(s).Decoder? && Decode(s).count % 4 == 0
    ensures var d := Decode(s); var d' := Decode(s + Quad(a, b, c));
            d'.Decoder? && d'.count == d.count + 4 && d'.out == d.out + [a, b, c]
  {
    var d0, d1, d2, d3 := a / 4, a % 4 * 16 + b / 16, b % 16 * 4 + c / 64, c % 64;
    DecodingUndoes(d0);
    DecodingUndoes(d1);
    DecodingUndoes(d2);
    DecodingUndoes(d3);
    DecodeFour(s, Quad(a, b, c));
    LowBits(Decode(s).value, d0, d1, d2, d3);
    hide Decode, Shift, Letter, Decoding;
    GroupBytes(Shift(Shift(Shift(Shift(Decode(s).value, d0), d1), d2), d3), a, b, c);
  }

  lemma {:induction false} ChunksDecode(data: seq<byte>, n: nat)
    requires 3 * n <= |data|
    ensures var d := Decode(Chunks(data, n)); d.Decoder? && d.count == 4 * n && d.out == data[..3 * n]
  {
    hide Decode, Quad;
    EmptyDecodes();
    if n > 0 {
      ChunksDecode(data, n - 1);
      QuadDecodes(Chunks(data, n - 1), data[3 * n - 3], data[3 * n - 2], data[3 * n - 1]);
      assert data[..3 * n] == data[..3 * n - 3] + [data[3 * n - 3], data[3 * n - 2], data[3 * n - 1]];
    }
  }

  lemma OneByteDecodes(s: string, a: byte)
    requires Decode(s).Decoder? && Decode(s).count % 4 == 0
    ensures Decoded(s + [Letter(a / 4), Letter(a % 4 * 16), PAD, PAD]) == Decode(s).out + [a]
  {
    DecodingUndoes(a / 4);
    DecodingUndoes(a % 4 * 16);
    DecodeFour(s, [Letter(a / 4), Letter(a % 4 * 16), PAD, PAD]);
    LowBits(Decode(s).value, a / 4, a % 4 * 16, 0, 0);
    hide Decode, Shift, Letter;
    GroupBytes(Shift(Shift(Shift(Shift(Decode(s).value, a / 4), a % 4 * 16), 0), 0), a, 0, 0);
  }

  lemma TwoBytesDecode(s: string, a: byte, b: byte)
    requires Decode(s).Decoder? && Decode(s).count % 4 == 0
    ensures Decoded(s + [Letter(a / 4), Letter(a % 4 * 16 + b / 16), Letter(b % 16 * 4), PAD]) == Decode(s).out + [a, b]
  {
    var d0, d1, d2 := a / 4, a % 4 * 16 + b / 16, b % 16 * 4;
    DecodingUndoes(d0);
    DecodingUndoes(d1);
    DecodingUndoes(d2);
    DecodeFour(s, [Letter(d0), Letter(d1), Letter(d2), PAD]);
    LowBits(Decode(s).value, d0, d1, d2, 0);
    hide Decode, Shift, Letter;
    GroupBytes(Shift(Shift(Shift(Shift(Decode(s).value, d0), d1), d2), 0), a, b, 0);
  }

  /** Decoding what was encoded gives the bytes back, for every byte string. */
  lemma DecodedEncoded(data: seq<byte>)
    ensures Decoded(Encoded(data)) == data
  {
    hide Decode, Tail, Chunks;
    var n := |data| / 3;
    ChunksDecode(data, n);
    TailDecodes(data, Chunks(data, n));
  }

  lemma TailDecodes(data: seq<byte>, s: string)
    requires Decode(s).Decoder? && Decode(s).count % 4 == 0 && Decode(s).out == data[..3 * (|data| / 3)]
    ensures Decoded(s + Tail(data)) == data
  {
    hide Decode, Letter;
    var k := 3 * (|data| / 3);
    if |data| % 3 == 0 {
      assert s + Tail(data) == s;
      assert data[..k] == data;
    } else if |data| % 3 == 1 {
      OneByteDecodes(s, data[k]);
      assert data == data[..k] + [data[k]];
    } else {
      TwoBytesDecode(s, data[k], data[k + 1]);
      assert data == data[..k] + [data[k], data[k + 1]];
    }
  }

  // White space

  function Stripped(s: string): string {
    if s == "" then ""
    else
      var last := |s| - 1;
      Stripped(s[..last]) + (if IsSpace(s[last]) then "" else [s[last]])
  }

  /** White space stands before the fourth character of a group, after a pad. */
  predicate SplitsPads(s: string) {
    if s == "" then false
    else
      var last := |s| - 1;
      SplitsPads(s[..last]) || SplitsPadsHere(s[..last], s[last])
  }

  predicate SplitsPadsHere(before: string, c: char) {
    && !IsSpace(c) && before != "" && IsSpace(before[|before| - 1]) && |Stripped(before)| % 4 == 3
    && Stripped(before)[|Stripped(before)| - 1] == PAD
  }

  /** The decoders of a text and of its stripped form agree, up to one byte for each split pair of pads. */
  ghost predicate Agree(d: Decoder, d': Decoder, splits: bool) {
    && (d.Bad? <==> d'.Bad?)
    && (d.Decoder? ==>
          && d.count == d'.count && d.value == d'.value
          && (if splits then |d.out| > |d'.out| else d.out == d'.out))
  }

  lemma {:induction false} WhiteSpaceDecodes(s: string)
    ensures Agree(Decode(s), Decode(Stripped(s)), SplitsPads(s))
    ensures Decode(s).Decoder? ==> |Stripped(s)| == Decode(s).count
    ensures s != "" && !IsSpace(s[|s| - 1]) ==> Stripped(s) != "" && Stripped(s)[|Stripped(s)| - 1] == s[|s| - 1]
  {
    hide Group, Decoding, Shift, IsSpace, Step, SplitsPadsHere;
    if s == "" {
      NothingDecodes();
    } else {
      var last := |s| - 1;
      var before, c := s[..last], s[last];
      WhiteSpaceDecodes(before);
      if IsSpace(c) {
        SpaceSplitsNone(before, c);
        assert Stripped(s) == Stripped(before);
      } else {
        assert Stripped(s) == Stripped(before) + [c];
        StrippedMore(before, c);
        CharacterDecodes(before, c);
        assert before != "" ==> before[|before| - 1] == s[last - 1];
      }
    }
  }

  lemma NothingDecodes()
    ensures Agree(Decode(""), Decode(Stripped("")), SplitsPads(""))
  {
  }

  lemma SpaceSplitsNone(before: string, c: char)
    requires IsSpace(c)
    ensures !SplitsPadsHere(before, c)
  {
  }

  lemma StrippedMore(before: string, c: char)
    requires !IsSpace(c)
    ensures var w := Stripped(before);
            Decode(w + [c]) == if Decode(w).Bad? then Decode(w) else Step(Decode(w), if w == "" then ' ' else w[|w| - 1], c)
  {
    hide Step, IsSpace;
    var w := Stripped(before);
    assert (w + [c])[..|w|] == w;
  }

  lemma CharacterDecodes(before: string, c: char)
    requires !IsSpace(c) && Agree(Decode(before), Decode(Stripped(before)), SplitsPads(before))
    requires Decode(before).Decoder? ==> |Stripped(before)| == Decode(before).count
    requires before != "" && !IsSpace(before[|before| - 1]) ==>
               Stripped(before) != "" && Stripped(before)[|Stripped(before)| - 1] == before[|before| - 1]
    ensures var d, d', w := Decode(before), Decode(Stripped(before)), Stripped(before);
            && (d.Bad? ==> d'.Bad?)
            && (d.Decoder? ==>
                  var next := Step(d, if before != "" then before[|before| - 1] else ' ', c);
                  && d'.Decoder?
                  && Agree(next, Step(d', if w == "" then ' ' else w[|w| - 1], c), SplitsPads(before) || SplitsPadsHere(before, c))
                  && (next.Decoder? ==> next.count == d.count + 1))
  {
    hide Group, Decoding, Shift, IsSpace, Decode, Stripped, SplitsPads;
    var d := Decode(before);
    if d.Decoder? {
      if before != "" {
        StepsAgree(d, Decode(Stripped(before)), SplitsPads(before), before, c);
      } else {
        StrippedNothing();
      }
    }
  }

  lemma StrippedNothing()
    ensures Stripped("") == "" && Decode("") == Decoder(0, 0, []) && !SplitsPads("")
  {
  }

  lemma StepsAgree(d: Decoder, d': Decoder, splits: bool, before: string, c: char)
    requires Agree(d, d', splits) && d.Decoder? && before != "" && |Stripped(before)| == d.count && !IsSpace(c)
    requires !IsSpace(before[|before| - 1]) ==>
               Stripped(before) != "" && Stripped(before)[|Stripped(before)| - 1] == before[|before| - 1]
    ensures Agree(Step(d, before[|before| - 1], c),
                  Step(d', if Stripped(before) == "" then ' ' else Stripped(before)[|Stripped(before)| - 1], c),
                  splits || SplitsPadsHere(before, c))
  {
  }

  /** A character that is neither white space nor one of the 64 letters or a pad. */
  predicate HasBadCharacter(s: string) {
    exists i :: 0 <= i < |s| && !IsSpace(s[i]) && Decoding(s[i]) == NONE
  }

  /** The decoder gives up exactly on a bad character. */
  lemma {:induction false} BadExactly(s: string)
    ensures Decode(s).Bad? <==> HasBadCharacter(s)
  {
    hide Group, Decoding, Shift, IsSpace;
    if s != "" {
      var last := |s| - 1;
      BadExactly(s[..last]);
      if HasBadCharacter(s[..last]) {
        var i :| 0 <= i < last && !IsSpace(s[..last][i]) && Decoding(s[..last][i]) == NONE;
        assert s[i] == s[..last][i];
      } else if i :| 0 <= i < |s| && !IsSpace(s[i]) && Decoding(s[i]) == NONE {
        assert i < last ==> s[..last][i] == s[i];
      }
    }
  }

  /** White space is ignored exactly where it splits no pair of pads, if the text decodes at all. */
  lemma WhiteSpaceIsIgnored(s: string)
    ensures Decoded(s) == Decoded(Stripped(s)) <==> HasBadCharacter(s) || !SplitsPads(s)
  {
    WhiteSpaceDecodes(s);
    BadExactly(s);
  }
}
