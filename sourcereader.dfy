/**
 * The character cursor of the lexer (`SourceReader`, Scanner.cs): the
 * current character with its line and column, and a queue of characters
 * read ahead by `Peek`. The text reader it wraps is the sequence of the
 * characters not read yet.
 *
 * The reader's state is the value `Reader`; the functions below say what
 * each operation does to it, and the class `SourceReader` performs the
 * same steps on its fields. `Upcoming` is the text still ahead of the
 * cursor, the read-ahead queue first; reads and peeks are specified by it.
 */
module SourceReading {
  import opened Wrappers

  /** A character taken from the text early by `Peek`, with the column and line it was read at. */
  datatype BufferedChar = BufferedChar(storedChar: char, storedCharColumn: int, storedCharLine: int)

  /** The fields of a `SourceReader`; `stream` is what the text reader has not handed out yet. */
  datatype Reader = Reader(stream: seq<char>, readerColumn: int, readerLine: int, charBuffer: seq<BufferedChar>,
                           currentChar: Option<char>, currentColumn: int, currentLine: int)

  /** A reader's state after an operation, with the character the operation returned. */
  datatype Step = Step(reader: Reader, ch: Option<char>)

  /** A new reader on `text`: nothing read yet, reader position line 1 column 0. */
  function Open(text: string): (r: Reader)
    ensures r.currentChar.None? && r.charBuffer == [] && r.stream == text
    ensures r.readerLine == 1 && r.readerColumn == 0 && r.currentLine == 0 && r.currentColumn == 0
  {
    Reader(text, 0, 1, [], None, 0, 0)
  }

  /** The characters the text reader's `Read` hands out, a carriage return in front of each being dropped. */
  function StreamChars(s: seq<char>): seq<char>
  {
    if s == [] then []
    else if s[0] == '\r' then (if |s| == 1 then [] else [s[1]] + StreamChars(s[2..]))
    else [s[0]] + StreamChars(s[1..])
  }

  function BufferChars(b: seq<BufferedChar>): (s: seq<char>)
    ensures |s| == |b| && forall i :: 0 <= i < |b| ==> s[i] == b[i].storedChar
  {
    seq(|b|, i requires 0 <= i < |b| => b[i].storedChar)
  }

  /** The text ahead of the cursor: the read-ahead queue, then the rest of the stream. */
  function Upcoming(r: Reader): seq<char>
  {
    BufferChars(r.charBuffer) + StreamChars(r.stream)
  }

  /** The current character, if any, followed by the text ahead of it. */
  function Lookahead(r: Reader): seq<char>
  {
    (if r.currentChar.Some? then [r.currentChar.value] else []) + Upcoming(r)
  }

  /** Decreases with every character consumed: each read either consumes one or moves past the end. */
  function Measure(r: Reader): nat
  {
    2 * (|r.charBuffer| + |r.stream|) + (if r.currentChar.Some? then 1 else 0)
  }

  /** Past the end of the text: nothing current, nothing ahead, and the cursor at the reader's position. */
  predicate Exhausted(r: Reader)
  {
    r.currentChar.None? && r.charBuffer == [] && r.stream == [] &&
    r.currentLine == r.readerLine && r.currentColumn == r.readerColumn
  }

  /** Once a read has returned nothing, the reader is past the end (unlike a reader nothing was read from yet). */
  predicate Settled(r: Reader)
  {
    r.currentChar.None? ==> Exhausted(r)
  }

  /**
   * `ReadNextFromSource`: moves the reader's position to the next line when
   * the current character is a newline, then takes one character from the
   * text, skipping one carriage return, and counts its column.
   */
  function ReadFromSource(r: Reader): (s: Step)
    ensures s.reader.charBuffer == r.charBuffer && s.reader.currentChar == r.currentChar
    ensures s.reader.currentLine == r.currentLine && s.reader.currentColumn == r.currentColumn
    ensures |s.reader.stream| <= |r.stream| && (s.ch.Some? ==> |s.reader.stream| < |r.stream|)
    ensures s.ch.None? ==> s.reader.stream == []
    ensures s.reader.readerLine == r.readerLine + (if r.currentChar == Some('\n') then 1 else 0)
    ensures s.reader.readerColumn ==
      (if r.currentChar == Some('\n') then 0 else r.readerColumn) + (if s.ch.Some? then 1 else 0)
  {
    var column := if r.currentChar == Some('\n') then 0 else r.readerColumn;
    var line := if r.currentChar == Some('\n') then r.readerLine + 1 else r.readerLine;
    var rest := if r.stream != [] && r.stream[0] == '\r' then r.stream[1..] else r.stream;
    if rest != [] then Step(r.(stream := rest[1..], readerColumn := column + 1, readerLine := line), Some(rest[0]))
    else Step(r.(stream := rest, readerColumn := column, readerLine := line), None)
  }

  /** A read from the text returns the first of the characters `Read` hands out, and consumes it. */
  lemma ReadFromSourceChars(r: Reader)
    ensures StreamChars(r.stream) == [] ==> ReadFromSource(r).ch.None?
    ensures StreamChars(r.stream) != [] ==>
      ReadFromSource(r).ch == Some(StreamChars(r.stream)[0]) &&
      StreamChars(ReadFromSource(r).reader.stream) == StreamChars(r.stream)[1..]
  {
  }

  /**
   * `ReadNext`: the first queued character becomes current, with the
   * position it was read at; with an empty queue the next character of the
   * text, at the reader's position.
   */
  function Advance(r: Reader): (n: Reader)
    ensures Settled(n)
    ensures Measure(n) <= Measure(r)
    ensures r.currentChar.Some? || n.currentChar.Some? ==> Measure(n) < Measure(r)
    ensures r.charBuffer != [] ==> n.currentChar.Some?
    ensures Exhausted(r) ==> n == r
  {
    if r.charBuffer != [] then
      var b := r.charBuffer[0];
      r.(charBuffer := r.charBuffer[1..], currentChar := Some(b.storedChar),
         currentColumn := b.storedCharColumn, currentLine := b.storedCharLine)
    else
      var s := ReadFromSource(r);
      s.reader.(currentChar := s.ch, currentColumn := s.reader.readerColumn, currentLine := s.reader.readerLine)
  }

  /** `ReadNext` makes the first character ahead current, or nothing at the end of the text. */
  lemma AdvanceChars(r: Reader)
    ensures Upcoming(r) == [] ==> Advance(r).currentChar.None? && Upcoming(Advance(r)) == []
    ensures Upcoming(r) != [] ==>
      Advance(r).currentChar == Some(Upcoming(r)[0]) && Upcoming(Advance(r)) == Upcoming(r)[1..]
  {
    if r.charBuffer != [] {
      assert Upcoming(r)[1..] == BufferChars(r.charBuffer[1..]) + StreamChars(r.stream);
    } else {
      ReadFromSourceChars(r);
    }
  }

  lemma BufferCharsAppend(b: seq<BufferedChar>, x: BufferedChar)
    ensures BufferChars(b + [x]) == BufferChars(b) + [x.storedChar]
  {
  }

  /** The queue with one more character at its end. */
  function Enqueue(r: Reader, c: char): (n: Reader)
    ensures n.charBuffer == r.charBuffer + [BufferedChar(c, r.readerColumn, r.readerLine)]
    ensures n.(charBuffer := r.charBuffer) == r
  {
    r.(charBuffer := r.charBuffer + [BufferedChar(c, r.readerColumn, r.readerLine)])
  }

  /**
   * The loop of `Peek`: up to `n + 1` characters are read from the text and
   * queued, stopping at the end of the text; the last one read is returned.
   */
  function Fill(r: Reader, n: nat): (s: Step)
    ensures s.reader.currentChar == r.currentChar
    ensures s.reader.currentLine == r.currentLine && s.reader.currentColumn == r.currentColumn
    ensures Measure(s.reader) <= Measure(r)
    ensures Exhausted(r) ==> s == Step(r, None)
    ensures s.ch.Some? ==> |s.reader.charBuffer| > |r.charBuffer| + n
    decreases n
  {
    var t := ReadFromSource(r);
    if t.ch.None? then t
    else
      var r1 := Enqueue(t.reader, t.ch.value);
      if n == 0 then Step(r1, t.ch) else Fill(r1, n - 1)
  }

  /** Filling returns the character `n` places into the stream, and moves characters to the queue only. */
  lemma {:induction false} FillChars(r: Reader, n: nat)
    ensures Fill(r, n).ch == (if n < |StreamChars(r.stream)| then Some(StreamChars(r.stream)[n]) else None)
    ensures Upcoming(Fill(r, n).reader) == Upcoming(r)
    ensures r.charBuffer <= Fill(r, n).reader.charBuffer
    decreases n
  {
    var t := ReadFromSource(r);
    ReadFromSourceChars(r);
    if t.ch.Some? {
      var r1 := Enqueue(t.reader, t.ch.value);
      BufferCharsAppend(t.reader.charBuffer, BufferedChar(t.ch.value, t.reader.readerColumn, t.reader.readerLine));
      assert Upcoming(r1) == Upcoming(r);
      if n > 0 {
        FillChars(r1, n - 1);
      }
    }
  }

  /**
   * `Peek(offset)`: queues what it has to read and leaves the current
   * character and its position as they were.
   */
  function Peeked(r: Reader, offset: nat): (s: Step)
    ensures s.reader.currentChar == r.currentChar
    ensures s.reader.currentLine == r.currentLine && s.reader.currentColumn == r.currentColumn
    ensures Measure(s.reader) <= Measure(r)
    ensures Exhausted(r) ==> s == Step(r, None)
    ensures Settled(r) ==> Settled(s.reader)
    ensures s.ch.Some? ==> |s.reader.charBuffer| > offset
  {
    if |r.charBuffer| > offset then Step(r, Some(r.charBuffer[offset].storedChar))
    else Fill(r, offset - |r.charBuffer|)
  }

  /**
   * `Peek(offset)` returns the character `offset` places ahead of the
   * cursor, or nothing past the end of the text, and leaves the text ahead
   * as it was.
   */
  lemma PeekedChars(r: Reader, offset: nat)
    ensures Peeked(r, offset).ch == (if offset < |Upcoming(r)| then Some(Upcoming(r)[offset]) else None)
    ensures Upcoming(Peeked(r, offset).reader) == Upcoming(r)
    ensures r.charBuffer <= Peeked(r, offset).reader.charBuffer
  {
    if |r.charBuffer| <= offset {
      FillChars(r, offset - |r.charBuffer|);
    }
  }

  /** `string.Concat` of a nullable character: its one character, or nothing. */
  function OptChars(c: Option<char>): (s: string)
    ensures c.Some? ==> s == [c.value]
    ensures c.None? ==> s == []
  {
    if c.Some? then [c.value] else []
  }

  /** A string the reader computed, with the reader's state afterwards. */
  datatype Collected = Collected(reader: Reader, text: string)

  /** `CurrentAndPeek`: the current character followed by the one ahead of it, leaving out either if absent. */
  function CurrentAndNext(r: Reader): (t: Collected)
    ensures t.reader == Peeked(r, 0).reader
    ensures r.currentChar.Some? ==> |t.text| > 0 && t.text[0] == r.currentChar.value
    ensures r.currentChar.None? ==> |t.text| <= 1
  {
    var p := Peeked(r, 0);
    Collected(p.reader, OptChars(r.currentChar) + OptChars(p.ch))
  }

  /** With a current character, `CurrentAndPeek` is the first one or two characters of the lookahead. */
  lemma CurrentAndNextChars(r: Reader)
    requires r.currentChar.Some?
    ensures CurrentAndNext(r).text == Lookahead(r)[..if |Lookahead(r)| < 2 then |Lookahead(r)| else 2]
  {
    PeekedChars(r, 0);
  }

  /**
   * The loop of `ReadWhile`: while the character ahead passes `test`, it
   * becomes current and is appended to `content`.
   */
  function ReadRun(r: Reader, test: char -> bool, content: string): (t: Collected)
    ensures Measure(t.reader) <= Measure(r)
    ensures Settled(r) ==> Settled(t.reader)
    decreases Measure(r)
  {
    var p1 := Peeked(r, 0);
    if p1.ch.None? then Collected(p1.reader, content)
    else
      var p2 := Peeked(p1.reader, 0);
      if !(p2.ch.Some? && test(p2.ch.value)) then Collected(p2.reader, content)
      else
        var n := Advance(p2.reader);
        ReadRun(n, test, content + OptChars(n.currentChar))
  }

  /** `ReadWhile`: the current character and the characters after it that pass `test`. */
  function ReadWhileFrom(r: Reader, test: char -> bool): (t: Collected)
    ensures Measure(t.reader) <= Measure(r)
    ensures Settled(r) ==> Settled(t.reader)
  {
    ReadRun(r, test, OptChars(r.currentChar))
  }

  /**
   * The run `ReadWhile` collects is the longest prefix of the text ahead
   * whose characters pass `test`: the reader ends on its last character,
   * and the character after it, if any, fails `test`.
   */
  lemma {:induction false} ReadRunMaximal(r: Reader, test: char -> bool, content: string) returns (k: nat)
    ensures k <= |Upcoming(r)| && forall i :: 0 <= i < k ==> test(Upcoming(r)[i])
    ensures k < |Upcoming(r)| ==> !test(Upcoming(r)[k])
    ensures ReadRun(r, test, content).text == content + Upcoming(r)[..k]
    ensures Upcoming(ReadRun(r, test, content).reader) == Upcoming(r)[k..]
    ensures k > 0 ==> ReadRun(r, test, content).reader.currentChar == Some(Upcoming(r)[k - 1])
    ensures k == 0 ==> ReadRun(r, test, content).reader.currentChar == r.currentChar
    decreases Measure(r)
  {
    var u := Upcoming(r);
    if |u| == 0 || !test(u[0]) {
      k := 0;
      ReadRunStops(r, test, content);
      assert content + u[..0] == content;
    } else {
      var n := ReadRunStep(r, test, content);
      var k' := ReadRunMaximal(n, test, content + [u[0]]);
      k := k' + 1;
      PrefixStep(u, content, k');
      RunExtends(u, test, k');
    }
  }

  /** At the end of the text, or before a character failing `test`, the loop stops. */
  lemma ReadRunStops(r: Reader, test: char -> bool, content: string)
    requires |Upcoming(r)| == 0 || !test(Upcoming(r)[0])
    ensures ReadRun(r, test, content).text == content
    ensures Upcoming(ReadRun(r, test, content).reader) == Upcoming(r)
    ensures ReadRun(r, test, content).reader.currentChar == r.currentChar
  {
    PeekedChars(r, 0);
    PeekedChars(Peeked(r, 0).reader, 0);
  }

  /** Before a character passing `test`, the loop takes it and goes on. */
  lemma ReadRunStep(r: Reader, test: char -> bool, content: string) returns (n: Reader)
    requires |Upcoming(r)| > 0 && test(Upcoming(r)[0])
    ensures ReadRun(r, test, content) == ReadRun(n, test, content + [Upcoming(r)[0]])
    ensures n.currentChar == Some(Upcoming(r)[0]) && Upcoming(n) == Upcoming(r)[1..]
    ensures Measure(n) < Measure(r)
  {
    var p1 := Peeked(r, 0);
    PeekedChars(r, 0);
    var p2 := Peeked(p1.reader, 0);
    PeekedChars(p1.reader, 0);
    n := Advance(p2.reader);
    AdvanceChars(p2.reader);
  }

  lemma RunExtends(u: seq<char>, test: char -> bool, k: nat)
    requires k < |u| && test(u[0])
    requires forall i :: 0 <= i < k ==> test(u[1..][i])
    requires k < |u[1..]| ==> !test(u[1..][k])
    ensures forall i :: 0 <= i < k + 1 ==> test(u[i])
    ensures k + 1 < |u| ==> !test(u[k + 1])
  {
    forall i | 0 <= i < k + 1
      ensures test(u[i])
    {
      if i > 0 {
        assert u[i] == u[1..][i - 1];
      }
    }
  }

  lemma PrefixStep(u: seq<char>, content: string, k: nat)
    requires k < |u|
    ensures content + [u[0]] + u[1..][..k] == content + u[..k + 1]
    ensures u[k + 1..] == u[1..][k..]
  {
    assert u[..k + 1] == [u[0]] + u[1..][..k];
  }

  /** The reader as the class sees it: a cursor over a text that `Open` started. */
  class SourceReader {
    /** The text reader: the characters it has not handed out yet. */
    var stream: seq<char>
    var readerColumn: int
    var readerLine: int
    var charBuffer: seq<BufferedChar>
    var currentChar: Option<char>
    var currentColumn: int
    var currentLine: int

    function State(): Reader
      reads this
    {
      Reader(stream, readerColumn, readerLine, charBuffer, currentChar, currentColumn, currentLine)
    }

    constructor (text: string)
      ensures State() == Open(text)
    {
      stream := text;
      readerColumn, readerLine := 0, 1;
      charBuffer := [];
      currentChar := None;
      currentColumn, currentLine := 0, 0;
    }

    /** `TextReader.Read`: the next character of the text, or nothing at its end. */
    method Read() returns (c: Option<char>)
      modifies this
      ensures State() == old(State()).(stream := if old(stream) == [] then [] else old(stream)[1..])
      ensures c == (if old(stream) == [] then None else Some(old(stream)[0]))
    {
      if stream == [] {
        c := None;
      } else {
        c := Some(stream[0]);
        stream := stream[1..];
      }
    }

    method ReadNextFromSource() returns (c: Option<char>)
      modifies this
      ensures Step(State(), c) == ReadFromSource(old(State()))
    {
      if currentChar.Some? && currentChar.value == '\n' {
        readerColumn := 0;
        readerLine := readerLine + 1;
      }
      c := Read();
      if c == Some('\r') {
        c := Read();
      }
      if c.Some? {
        readerColumn := readerColumn + 1;
      }
    }

    method ReadNext() returns (c: Option<char>)
      modifies this
      ensures State() == Advance(old(State())) && c == currentChar
    {
      if |charBuffer| > 0 {
        var buffered := charBuffer[0];
        charBuffer := charBuffer[1..];
        currentChar := Some(buffered.storedChar);
        currentColumn := buffered.storedCharColumn;
        currentLine := buffered.storedCharLine;
      } else {
        currentChar := ReadNextFromSource();
        currentColumn := readerColumn;
        currentLine := readerLine;
      }
      c := currentChar;
    }

    method Peek(offset: nat) returns (c: Option<char>)
      modifies this
      ensures Step(State(), c) == Peeked(old(State()), offset)
    {
      if |charBuffer| > offset {
        return Some(charBuffer[offset].storedChar);
      }
      c := ReadAhead(offset - |charBuffer|);
    }

    /** The loop of `Peek`, reading and queueing up to `n + 1` characters. */
    method ReadAhead(n: nat) returns (c: Option<char>)
      modifies this
      ensures Step(State(), c) == Fill(old(State()), n)
    {
      c := None;
      var i := 0;
      while i <= n
        invariant i <= n + 1
        invariant i <= n ==> Fill(State(), n - i) == Fill(old(State()), n)
        invariant i > n ==> Step(State(), c) == Fill(old(State()), n)
        decreases n + 1 - i
      {
        ghost var before := State();
        c := ReadNextFromSource();
        if c.Some? {
          charBuffer := charBuffer + [BufferedChar(c.value, readerColumn, readerLine)];
          assert State() == Enqueue(ReadFromSource(before).reader, c.value);
        } else {
          assert Step(State(), c) == ReadFromSource(before) == Fill(before, n - i);
          break;
        }
        i := i + 1;
      }
    }

    method CurrentAndPeek() returns (s: string)
      modifies this
      ensures Collected(State(), s) == CurrentAndNext(old(State()))
    {
      var next := Peek(0);
      s := OptChars(currentChar) + OptChars(next);
    }

    method ReadWhile(test: char -> bool) returns (content: string)
      modifies this
      ensures Collected(State(), content) == ReadWhileFrom(old(State()), test)
    {
      content := OptChars(currentChar);
      while true
        invariant ReadRun(State(), test, content) == ReadWhileFrom(old(State()), test)
        decreases Measure(State())
      {
        var p := Peek(0);
        if p.None? {
          return;
        }
        var q := Peek(0);
        if !(q.Some? && test(q.value)) {
          return;
        }
        var c := ReadNext();
        content := content + OptChars(c);
      }
    }
  }
}
