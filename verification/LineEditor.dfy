/** Reading command lines from a session, with a terminal or without one. */
module LineEditor {
  import opened Basics
  import opened Bytes
  import opened Terminal
  import opened EditorModel
  import opened PlainLines

  const CHUNK := 1024

  function Concat(chunks: seq<Line>): Line {
    if chunks == [] then [] else chunks[0] + Concat(chunks[1..])
  }

  /** A stream as it is read: the reads before its end, and the bytes, possibly none, of
      the read that reports the end. */
  class Source {
    var chunks: seq<Line>
    var last: Line

    constructor (chunks: seq<Line>, last: Line)
      ensures this.chunks == chunks && this.last == last
    {
      this.chunks, this.last := chunks, last;
    }

    /** Every read fits the reader's buffer. */
    ghost predicate Bounded()
      reads this
    {
      |last| <= CHUNK && forall i :: 0 <= i < |chunks| ==> |chunks[i]| <= CHUNK
    }

    /** Once the reads are used up the end is reported again and again. */
    method Read() returns (bytes: Line, end: bool)
      modifies this
      ensures old(chunks) == [] ==> bytes == old(last) && end && chunks == [] && last == []
      ensures old(chunks) != [] ==> bytes == old(chunks)[0] && !end && chunks == old(chunks)[1..] && last == old(last)
    {
      if chunks == [] {
        bytes, end, last := last, true, [];
      } else {
        bytes, end, chunks := chunks[0], false, chunks[1..];
      }
    }
  }

  datatype Plain = NextLine(line: Line) | Ended | Overlong

  /** The answer due when d is left to be read before the end is reported and b with it,
      and what is left of either afterwards. */
  ghost predicate Yields(d: Line, b: Line, r: Plain, d': Line, b': Line) {
    var n := LineEnd(d, 0, |d|);
    if n < |d| then r == NextLine(TrimSpace(d[..n])) && d' == d[n + 1..] && b' == b
    else if TrimSpace(d + b) != [] then r == NextLine(TrimSpace(d + b)) && d' == [] && b' == []
    else r == Ended
  }

  /** What a session answers to d, then b together with the end. */
  function Answers(d: Line, b: Line): seq<Line> {
    SessionLines(d + b, |d|)
  }

  lemma YieldsLine(d: Line, b: Line, r: Plain, d': Line, b': Line)
    requires Yields(d, b, r, d', b') && NoLongLine(d, MAX_LINE)
    ensures r.NextLine? ==> Answers(d, b) == [r.line] + Answers(d', b') && |d'| + |b'| < |d| + |b| && NoLongLine(d', MAX_LINE)
    ensures r.Ended? ==> Answers(d, b) == []
    ensures r.NextLine? || r.Ended?
  {
    var n := LineEnd(d, 0, |d|);
    LineEndUnique(d + b, 0, |d|, n);
    if n < |d| {
      FirstYields(d, b, d', n);
      RestFits(d, d', n + 1, MAX_LINE);
    } else {
      LastAnswered(d + b, |d|);
      NothingLeft([]);
    }
  }

  lemma FirstYields(d: Line, b: Line, d': Line, n: nat)
    requires n < |d| && n == LineEnd(d + b, 0, |d|) && d' == d[n + 1..]
    ensures Answers(d, b) == [TrimSpace(d[..n])] + Answers(d', b)
  {
    Slices(d, b, n);
    assert Slice(d + b, 0, n) == d[..n];
    FirstAnswered(d + b, d' + b, |d|, n);
  }

  lemma NothingLeft(none: Line)
    requires none == []
    ensures Answers(none, none) == [] && NoLongLine(none, MAX_LINE)
  {
    assert none + none == none;
    LastAnswered(none, 0);
  }

  lemma ClosingYields(d: Line, b: Line, line: Line)
    requires LineEnd(d, 0, |d|) == |d| && line == TrimSpace(d + b)
    ensures line != [] ==> Yields(d, b, NextLine(line), [], [])
    ensures line == [] ==> forall d', b' :: Yields(d, b, Ended, d', b')
  {
  }

  lemma FirstLine(pending: Line, tail: Line, b: Line)
    requires LineEnd(pending, 0, |pending|) < |pending|
    ensures var i := LineEnd(pending, 0, |pending|);
            Yields(pending + tail, b, NextLine(TrimSpace(pending[..i])), pending[i + 1..] + tail, b)
  {
    var i := LineEnd(pending, 0, |pending|);
    LineEndUnique(pending + tail, 0, |pending + tail|, i);
    Slices(pending, tail, i);
  }

  lemma Slices(a: Line, b: Line, i: nat)
    requires i < |a|
    ensures (a + b)[0..i] == (a + b)[..i] == a[..i] && (a + b)[i + 1..] == a[i + 1..] + b
  {
  }

  lemma PrefixFits(a: Line, b: Line)
    requires LineEnd(a, 0, |a|) == |a|
    ensures |a| <= LineEnd(a + b, 0, |a + b|)
  {
    assert forall i :: 0 <= i < |a| ==> (a + b)[i] == a[i];
  }

  class LineEditor {
    var history: seq<Line>
    var pending: Line

    ghost predicate Valid()
      reads this
    {
      ValidHistory(history) && PendingFits()
    }

    ghost predicate PendingFits()
      reads this`pending
    {
      |pending| <= MAX_LINE + CHUNK
    }

    constructor ()
      ensures Valid() && history == [] && pending == []
    {
      history := [];
      pending := [];
    }

    method Remember(line: Line)
      modifies this`history
      ensures history == EditorModel.Remember(old(history), line)
    {
      if line == [] {
        return;
      }
      if |history| == MAX_HISTORY {
        history := history[1..];
      }
      history := history + [line];
    }

    /** What is left to answer before the end is reported. */
    ghost function Left(src: Source): Line
      reads this`pending, src
    {
      pending + Concat(src.chunks)
    }

    /** Appends one more read to what is pending. */
    method More(src: Source) returns (end: bool)
      requires |pending| <= MAX_LINE && src.Bounded()
      modifies this`pending, src
      ensures PendingFits() && src.Bounded()
      ensures end ==> old(Left(src)) == old(pending) && pending == old(Left(src) + src.last) && src.chunks == [] && src.last == []
      ensures !end ==> Left(src) == old(Left(src)) && src.last == old(src.last) && |src.chunks| < |old(src.chunks)|
    {
      ghost var before, chunks := pending, src.chunks;
      var bytes: Line;
      bytes, end := src.Read();
      pending := pending + bytes;
      if chunks == [] {
        assert before + [] == before;
      } else {
        assert (before + bytes) + Concat(chunks[1..]) == before + (bytes + Concat(chunks[1..]));
      }
    }

    /** The next line. The answer depends on the bytes before the end and on those that
        came with it, not on how they were divided into reads; a line is refused only if
        it is overlong, and never more than a line and a read are pending. */
    method ReadPlain(src: Source) returns (r: Plain)
      requires PendingFits() && src.Bounded()
      modifies this`pending, src
      ensures PendingFits() && src.Bounded()
      ensures r.Overlong? ==> LineEnd(old(Left(src)), 0, |old(Left(src))|) > MAX_LINE && Left(src) == old(Left(src)) && src.last == old(src.last)
      ensures !r.Overlong? ==> Yields(old(Left(src)), old(src.last), r, Left(src), src.last)
    {
      ghost var d, b := Left(src), src.last;
      while true
        invariant PendingFits() && src.Bounded() && Left(src) == d && src.last == b
        decreases |src.chunks|
      {
        var i := LineEnd(pending, 0, |pending|);
        if i < |pending| {
          var line := TrimSpace(pending[..i]);
          FirstLine(pending, Concat(src.chunks), b);
          pending := pending[i + 1..];
          return NextLine(line);
        }
        if |pending| > MAX_LINE {
          PrefixFits(pending, Concat(src.chunks));
          return Overlong;
        }
        var end := More(src);
        if end {
          var line := TrimSpace(pending);
          ClosingYields(d, b, line);
          if line != [] {
            pending := [];
            return NextLine(line);
          }
          return Ended;
        }
      }
    }

    /** A session's lines until it ends, as the menu loop asks for them. */
    method ReadSession(src: Source) returns (lines: seq<Line>)
      requires pending == [] && src.Bounded() && NoLongLine(Concat(src.chunks), MAX_LINE)
      modifies this`pending, src
      ensures PendingFits() && lines == Answers(old(Concat(src.chunks)), old(src.last))
      ensures old(src.last) == [] ==> lines == Lines(old(Concat(src.chunks)))
    {
      lines := [];
      ghost var all, end := Concat(src.chunks), src.last;
      ghost var d, b := all, end;
      assert [] + all == all;
      while true
        invariant PendingFits() && src.Bounded() && Left(src) == d && src.last == b
        invariant NoLongLine(d, MAX_LINE) && Answers(all, end) == lines + Answers(d, b)
        decreases |d| + |b|
      {
        var r := ReadPlain(src);
        FirstFits(d, MAX_LINE);
        YieldsLine(d, b, r, Left(src), src.last);
        if r.Ended? {
          break;
        }
        Gather(Answers(all, end), lines, r.line, Answers(Left(src), src.last));
        lines := lines + [r.line];
        d, b := Left(src), src.last;
      }
      assert end == [] ==> all + end == all;
    }

    /** One key that does not end the line: the new editor state and the bytes sent. */
    method Handle(key: Key, ed: Ed) returns (ed': Ed, sent: Line)
      requires EditorModel.Valid(ed, history) && !Ends(ed, key)
      ensures ed' == After(ed, history, key) && sent == Output(ed, history, key)
    {
      if key.Char? || key.Backspace? || key.Delete? || key.Kill? {
        ed', sent := HandleEdit(key, ed);
      } else if key.Up? || key.Down? {
        ed', sent := HandleHistory(key, ed);
      } else {
        ed', sent := HandleMove(key, ed);
      }
    }

    method HandleEdit(key: Key, ed: Ed) returns (ed': Ed, sent: Line)
      requires EditorModel.Valid(ed, history) && !Ends(ed, key) && (key.Char? || key.Backspace? || key.Delete? || key.Kill?)
      ensures ed' == After(ed, history, key) && sent == Output(ed, history, key)
    {
      var buf, pos := ed.buf, ed.pos;
      sent := [];
      match key {
        case Char(b) =>
          if pos == |buf| {
            buf := buf + [b];
            pos := pos + 1;
            sent := [b];
          } else {
            buf := buf[..pos] + [b] + buf[pos..];
            pos := pos + 1;
            assert buf[pos - 1..] == [b] + ed.buf[ed.pos..];
            sent := buf[pos - 1..] + Sequence(|buf| - pos, 0x44);
          }
        case Backspace =>
          if pos > 0 {
            buf := buf[..pos - 1] + buf[pos..];
            pos := pos - 1;
            sent := Short(0x44) + Redraw(buf, pos);
          }
        case Kill =>
          if |buf| > 0 {
            sent := BackBy(pos) + Short(0x4b);
            buf, pos := [], 0;
          }
        case Delete =>
          if pos < |buf| {
            buf := buf[..pos] + buf[pos + 1..];
            sent := Redraw(buf, pos);
          }
      }
      ed' := Ed(buf, pos, ed.histIdx, ed.saved);
    }

    method HandleHistory(key: Key, ed: Ed) returns (ed': Ed, sent: Line)
      requires EditorModel.Valid(ed, history) && (key.Up? || key.Down?)
      ensures ed' == After(ed, history, key) && sent == Output(ed, history, key)
    {
      var buf, pos, histIdx, saved := ed.buf, ed.pos, ed.histIdx, ed.saved;
      sent := [];
      if key.Up? && histIdx > 0 {
        if histIdx == |history| {
          saved := buf;
        }
        histIdx := histIdx - 1;
        sent := BackBy(pos) + history[histIdx] + Short(0x4b);
        buf, pos := history[histIdx], |history[histIdx]|;
      } else if key.Down? && histIdx < |history| {
        histIdx := histIdx + 1;
        var line := if histIdx == |history| then saved else history[histIdx];
        sent := BackBy(pos) + line + Short(0x4b);
        buf, pos := line, |line|;
      }
      ed' := Ed(buf, pos, histIdx, saved);
    }

    method HandleMove(key: Key, ed: Ed) returns (ed': Ed, sent: Line)
      requires EditorModel.Valid(ed, history) && !Ends(ed, key)
      requires key.Home? || key.End? || key.Left? || key.Right? || key.EndOfInput? || key.Ignored?
      ensures ed' == After(ed, history, key) && sent == Output(ed, history, key)
    {
      var buf, pos := ed.buf, ed.pos;
      sent := [];
      match key {
        case Home =>
          if pos > 0 {
            sent := Sequence(pos, 0x44);
            pos := 0;
          }
        case End =>
          if pos < |buf| {
            sent := Sequence(|buf| - pos, 0x43);
            pos := |buf|;
          }
        case Right =>
          if pos < |buf| {
            sent := Short(0x43);
            pos := pos + 1;
          }
        case Left =>
          if pos > 0 {
            sent := Short(0x44);
            pos := pos - 1;
          }
        case _ =>
      }
      ed' := ed.(pos := pos);
    }

    /** A line edited at a terminal: the pure editor decides the line, every byte
        sent and what is left unread; only an entered line reaches the history. */
    method ReadLineEdited(input: Line) returns (result: Result, rest: Line, out: Line)
      requires Valid()
      modifies this`history
      ensures Valid()
      ensures var t := Edit(old(history), Fresh(old(history)), input); result == t.result && rest == t.rest && out == t.out
      ensures history == if result.Entered? then EditorModel.Remember(old(history), result.line) else old(history)
    {
      var ed := Fresh(history);
      rest := input;
      out := [];
      ghost var whole := Edit(history, ed, input);
      while true
        invariant history == old(history) && EditorModel.Valid(ed, history)
        invariant Continues(whole, out, Edit(history, ed, rest))
        decreases |rest|
      {
        var d := NextKey(rest);
        if d.NoKey? {
          return ReadError, [], out;
        }
        var key := d.key;
        if key.Enter? {
          var line := TrimSpace(ed.buf);
          RememberFits(history, line);
          Remember(line);
          return Entered(line), rest[d.used..], out + [13, 10];
        } else if key.Interrupt? {
          return Cancelled, rest[d.used..], out + [0x5e, 0x43, 13, 10];
        } else if key.EndOfInput? && |ed.buf| == 0 {
          return Exit, rest[d.used..], out + [13, 10];
        } else if key.Char? && |ed.buf| >= MAX_LINE {
          return TooLong, rest[d.used..], out;
        }
        AfterValid(ed, history, key);
        var ed', sent := Handle(key, ed);
        EditStep(history, ed, rest);
        ContinuesStep(whole, out, sent, Edit(history, ed', rest[d.used..]));
        ed, rest, out := ed', rest[d.used..], out + sent;
      }
    }
  }

  /** The turn `whole` is `out` followed by the turn `t`. */
  ghost predicate Continues(whole: Turn, out: Line, t: Turn) {
    whole == t.(out := out + t.out)
  }

  lemma ContinuesStep(whole: Turn, out: Line, sent: Line, t: Turn)
    requires Continues(whole, out, t.(out := sent + t.out))
    ensures Continues(whole, out + sent, t)
  {
    assert out + (sent + t.out) == (out + sent) + t.out;
  }

  lemma Gather(all: seq<Line>, lines: seq<Line>, line: Line, rest: seq<Line>)
    requires all == lines + ([line] + rest)
    ensures all == (lines + [line]) + rest
  {
  }
}
