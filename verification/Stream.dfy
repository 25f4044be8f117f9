/**
 * The input as the scanner sees it: characters, with a position, a line and a column. A character is one byte of
 * the UTF-8 that Transcoding makes of the input, so lengths, columns and the limit on simple keys count bytes.
 */
module Streaming {
  import opened Exp
  import opened ScannerState

  /** Where the stream is after one more character. */
  function After(t: string, m: Mark): Mark {
    if At(t, m.pos) == '\n' then Mark(m.pos + 1, m.line + 1, 0) else Mark(m.pos + 1, m.line, m.column + 1)
  }

  function AfterMany(t: string, m: Mark, n: nat): (r: Mark)
    ensures r.pos == m.pos + n
  {
    if n == 0 then m else After(t, AfterMany(t, m, n - 1))
  }

  class Stream {
    const text: string
    var pos: nat
    var line: nat
    var column: nat

    constructor (text: string)
      ensures this.text == text && Here() == Mark(0, 0, 0)
    {
      this.text := text;
      pos, line, column := 0, 0, 0;
    }

    /** The stream as a truth value: something is left. */
    predicate More()
      reads this
    {
      pos < |text|
    }

    ghost function Left(): nat
      reads this
    {
      if pos < |text| then |text| - pos else 0
    }

    function Peek(): char
      reads this
    {
      At(text, pos)
    }

    function Here(): Mark
      reads this
    {
      Mark(pos, line, column)
    }

    method Get() returns (c: char)
      modifies this
      ensures c == old(Peek()) && Here() == After(text, old(Here()))
    {
      c := Peek();
      pos := pos + 1;
      column := column + 1;
      if c == '\n' {
        column := 0;
        line := line + 1;
      }
    }

    method Eat(n: nat)
      modifies this
      ensures Here() == AfterMany(text, old(Here()), n)
    {
      for i := 0 to n
        invariant Here() == AfterMany(text, old(Here()), i)
      {
        var _ := Get();
      }
    }

    method GetString(n: nat) returns (s: string)
      modifies this
      ensures Here() == AfterMany(text, old(Here()), n)
      ensures |s| == n && forall i :: 0 <= i < n ==> s[i] == At(text, old(pos) + i)
    {
      s := "";
      for i := 0 to n
        invariant Here() == AfterMany(text, old(Here()), i)
        invariant |s| == i && forall j :: 0 <= j < i ==> s[j] == At(text, old(pos) + j)
      {
        var c := Get();
        s := s + [c];
      }
    }

    method ResetColumn()
      modifies this`column
      ensures column == 0
    {
      column := 0;
    }
  }

  lemma {:induction false} AfterMore(t: string, m: Mark, a: nat, b: nat)
    ensures AfterMany(t, AfterMany(t, m, a), b) == AfterMany(t, m, a + b)
  {
    if b > 0 {
      AfterMore(t, m, a, b - 1);
    }
  }

  /** The stream has read on from `start`. */
  predicate Advanced(input: Stream, start: Mark)
    reads input
  {
    input.pos >= start.pos && input.Here() == AfterMany(input.text, start, input.pos - start.pos)
  }

  lemma AdvancedTwice(input: Stream, start: Mark, mid: Mark)
    requires mid.pos >= start.pos && mid == AfterMany(input.text, start, mid.pos - start.pos) && Advanced(input, mid)
    ensures Advanced(input, start)
  {
    hide AfterMany;
    var a, b := mid.pos - start.pos, input.pos - mid.pos;
    assert input.Here() == AfterMany(input.text, mid, b);
    AfterMore(input.text, start, a, b);
    assert a + b == input.pos - start.pos;
  }

  lemma ReadMany(input: Stream, mid: Mark, n: nat)
    requires input.Here() == AfterMany(input.text, mid, n)
    ensures Advanced(input, mid)
  {
  }
}
