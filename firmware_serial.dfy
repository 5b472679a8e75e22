/**
 * The command half of the main controller's serial task (`serialTask` in
 * firmware/main_controller/src/main.cpp): incoming bytes are collected in a
 * fixed 512-byte buffer until a line terminator, and each non-empty line is
 * handed to `parseCommand`.
 */
module SerialLink {
  import opened Wrappers

  const BufferSize := 512
  /** One byte is kept free for the NUL terminator. */
  const MaxLine := BufferSize - 1

  predicate IsTerminator(c: char) {
    c == '\n' || c == '\r'
  }

  predicate NoTerminator(s: seq<char>) {
    forall i :: 0 <= i < |s| ==> !IsTerminator(s[i])
  }

  /** What the buffer may hold between bytes: at most 511 bytes, none of them a terminator. */
  predicate PendingOk(pending: seq<char>) {
    |pending| <= MaxLine && NoTerminator(pending)
  }

  /** The text `parseCommand` reads from a completed line: a C string ends at its first NUL. */
  function CString(line: seq<char>): (s: seq<char>)
    ensures |s| <= |line| && s == line[..|s|]
    ensures (forall i :: 0 <= i < |line| ==> line[i] != '\0') ==> s == line
  {
    if line == [] || line[0] == '\0' then [] else [line[0]] + CString(line[1..])
  }

  /** The buffer after one byte, and the line that byte completed, if any. */
  datatype Step = Step(pending: seq<char>, line: Option<seq<char>>)

  /** The buffer after a run of bytes, and the lines completed, in arrival order. */
  datatype Assembled = Assembled(pending: seq<char>, lines: seq<seq<char>>)

  function LinesOf(line: Option<seq<char>>): seq<seq<char>> {
    if line.Some? then [line.value] else []
  }

  /**
   * One received byte: a terminator completes the buffered line if there is
   * one and empties the buffer; any other byte is stored while there is room
   * and dropped otherwise.
   */
  function Feed(pending: seq<char>, c: char): Step {
    if IsTerminator(c) then
      if |pending| > 0 then Step([], Some(pending)) else Step(pending, None)
    else if |pending| < MaxLine then Step(pending + [c], None)
    else Step(pending, None)
  }

  /** A run of received bytes, fed one at a time. */
  function FeedAll(pending: seq<char>, input: seq<char>): Assembled
    decreases |input|
  {
    if input == [] then Assembled(pending, [])
    else
      var step := Feed(pending, input[0]);
      var rest := FeedAll(step.pending, input[1..]);
      Assembled(rest.pending, LinesOf(step.line) + rest.lines)
  }

  /**
   * Every completed line is non-empty, at most 511 bytes long and free of
   * terminators, and the buffer stays within bounds.
   */
  lemma {:induction false} FeedAllWellFormed(pending: seq<char>, input: seq<char>)
    requires PendingOk(pending)
    ensures PendingOk(FeedAll(pending, input).pending)
    ensures forall line <- FeedAll(pending, input).lines :: 1 <= |line| <= MaxLine && NoTerminator(line)
    decreases |input|
  {
    if input != [] {
      var step := Feed(pending, input[0]);
      FeedAllWellFormed(step.pending, input[1..]);
    }
  }

  /** Bytes without terminators that fit are simply appended to the buffer. */
  lemma {:induction false} FeedAllAppends(pending: seq<char>, s: seq<char>)
    requires NoTerminator(s) && |pending| + |s| <= MaxLine
    ensures FeedAll(pending, s) == Assembled(pending + s, [])
    decreases |s|
  {
    if s != [] {
      assert !IsTerminator(s[0]);
      assert Feed(pending, s[0]) == Step(pending + [s[0]], None);
      FeedAllAppends(pending + [s[0]], s[1..]);
      assert pending + [s[0]] + s[1..] == pending + s;
    }
  }

  /** Bytes without terminators arriving at a full buffer are all dropped. */
  lemma {:induction false} FeedAllDropsOverflow(pending: seq<char>, s: seq<char>)
    requires NoTerminator(s) && |pending| == MaxLine
    ensures FeedAll(pending, s) == Assembled(pending, [])
    decreases |s|
  {
    if s != [] {
      assert !IsTerminator(s[0]);
      assert Feed(pending, s[0]) == Step(pending, None);
      FeedAllDropsOverflow(pending, s[1..]);
    }
  }

  /** Feeding two runs one after the other is feeding their concatenation. */
  lemma {:induction false} FeedAllSplit(pending: seq<char>, a: seq<char>, b: seq<char>)
    ensures FeedAll(pending, a + b) ==
      var first := FeedAll(pending, a);
      var second := FeedAll(first.pending, b);
      Assembled(second.pending, first.lines + second.lines)
    decreases |a|
  {
    if a != [] {
      assert (a + b)[0] == a[0] && (a + b)[1..] == a[1..] + b;
      var step := Feed(pending, a[0]);
      FeedAllSplit(step.pending, a[1..], b);
      var first' := FeedAll(step.pending, a[1..]);
      var second := FeedAll(first'.pending, b);
      assert FeedAll(pending, a) == Assembled(first'.pending, LinesOf(step.line) + first'.lines);
      assert LinesOf(step.line) + (first'.lines + second.lines)
        == (LinesOf(step.line) + first'.lines) + second.lines;
    } else {
      assert a + b == b;
      assert [] + FeedAll(pending, b).lines == FeedAll(pending, b).lines;
    }
  }

  /** One more byte after a run: the run's lines, then whatever that byte completes. */
  lemma FeedAllSnoc(pending: seq<char>, a: seq<char>, c: char)
    ensures var first := FeedAll(pending, a);
      var step := Feed(first.pending, c);
      FeedAll(pending, a + [c]) == Assembled(step.pending, first.lines + LinesOf(step.line))
  {
    FeedAllSplit(pending, a, [c]);
    assert [c][1..] == [];
  }

  /** Without terminators the buffer keeps the first bytes up to its capacity. */
  lemma FeedAllKeepsPrefix(s: seq<char>)
    requires NoTerminator(s)
    ensures FeedAll([], s) == Assembled(if |s| <= MaxLine then s else s[..MaxLine], [])
  {
    if |s| <= MaxLine {
      FeedAllAppends([], s);
      assert [] + s == s;
    } else {
      assert s[..MaxLine] + s[MaxLine..] == s;
      FeedAllSplit([], s[..MaxLine], s[MaxLine..]);
      FeedAllAppends([], s[..MaxLine]);
      assert [] + s[..MaxLine] == s[..MaxLine];
      FeedAllDropsOverflow(s[..MaxLine], s[MaxLine..]);
    }
  }

  /**
   * A command line sent as text plus `\n`, or plus `\r\n`, arrives as exactly
   * that line when it fits in 511 bytes, and as its first 511 bytes otherwise.
   */
  lemma WholeLineArrives(s: seq<char>, crlf: bool)
    requires 1 <= |s| && NoTerminator(s)
    ensures FeedAll([], s + (if crlf then ['\r', '\n'] else ['\n'])) ==
      Assembled([], [if |s| <= MaxLine then s else s[..MaxLine]])
  {
    var ending := if crlf then ['\r', '\n'] else ['\n'];
    var kept := if |s| <= MaxLine then s else s[..MaxLine];
    FeedAllSplit([], s, ending);
    FeedAllKeepsPrefix(s);
    assert FeedAll([], s) == Assembled(kept, []);
    TerminatorEndsLine(kept, ending);
  }

  /** A line ending (`\n` or `\r\n`) after a non-empty buffer completes it as one line. */
  lemma TerminatorEndsLine(kept: seq<char>, ending: seq<char>)
    requires 1 <= |kept|
    requires ending == ['\n'] || ending == ['\r', '\n']
    ensures FeedAll(kept, ending) == Assembled([], [kept])
  {
    assert Feed(kept, ending[0]) == Step([], Some(kept));
    if |ending| == 2 {
      assert ending[1..] == ['\n'];
      assert Feed([], '\n') == Step([], None);
      assert FeedAll([], ['\n']) == Assembled([], []);
    } else {
      assert ending[1..] == [];
    }
  }

  /** The serial task's `inputBuffer` and `bufferIndex`. */
  class LineBuffer {
    const inputBuffer: array<char>
    var bufferIndex: int

    ghost predicate Valid()
      reads this
    {
      inputBuffer.Length == BufferSize && 0 <= bufferIndex <= MaxLine
    }

    /** The bytes collected so far. */
    ghost function Pending(): seq<char>
      reads this, inputBuffer
      requires Valid()
    {
      inputBuffer[..bufferIndex]
    }

    constructor ()
      ensures Valid() && fresh(inputBuffer) && Pending() == []
    {
      inputBuffer := new char[BufferSize](_ => '\0');
      bufferIndex := 0;
    }

    /** The body of the inner `while (Serial.available())` loop for one byte. */
    method Receive(c: char) returns (line: Option<seq<char>>)
      requires Valid() && NoTerminator(Pending())
      modifies this, inputBuffer
      ensures Valid()
      ensures Step(Pending(), line) == Feed(old(Pending()), c)
    {
      line := None;
      if c == '\n' || c == '\r' {
        if bufferIndex > 0 {
          line := Some(inputBuffer[..bufferIndex]);
          inputBuffer[bufferIndex] := '\0';
          bufferIndex := 0;
        }
      } else if bufferIndex < BufferSize - 1 {
        inputBuffer[bufferIndex] := c;
        bufferIndex := bufferIndex + 1;
        assert Pending() == old(Pending()) + [c];
      }
    }

    /** Drains the bytes that are available, returning the lines dispatched to `parseCommand`, in order. */
    method Poll(input: seq<char>) returns (lines: seq<seq<char>>)
      requires Valid() && NoTerminator(Pending())
      modifies this, inputBuffer
      ensures Valid() && NoTerminator(Pending())
      ensures Assembled(Pending(), lines) == FeedAll(old(Pending()), input)
    {
      ghost var start := Pending();
      lines := [];
      var k := 0;
      while k < |input|
        invariant 0 <= k <= |input|
        invariant Valid() && NoTerminator(Pending())
        invariant FeedAll(start, input[..k]) == Assembled(Pending(), lines)
      {
        var line := Receive(input[k]);
        lines := lines + LinesOf(line);
        FeedAllSnoc(start, input[..k], input[k]);
        assert input[..k + 1] == input[..k] + [input[k]];
        k := k + 1;
      }
      assert input[..k] == input;
    }
  }
}
