/** The line editor key by key: what a key does to the buffer, what it sends to the
    terminal, and the pure editor both are measured against. */
module EditorModel {
  import opened Basics
  import opened Bytes
  import opened Terminal

  const MAX_LINE := 8192
  const MAX_HISTORY := 200

  datatype Key =
    | Char(b: Byte) | Enter | Backspace | Interrupt | EndOfInput | Home | End | Kill
    | Up | Down | Right | Left | Delete | Ignored

  datatype Decoded = NoKey | Got(key: Key, used: nat)

  /** The first key of the input, or none when it ends inside an escape sequence. */
  function NextKey(input: Line): (d: Decoded)
    ensures d.Got? ==> 0 < d.used <= |input| && (d.key.Char? ==> Printable(d.key.b))
  {
    if |input| == 0 then NoKey
    else if input[0] == 13 || input[0] == 10 then Got(Enter, 1)
    else if input[0] == 127 || input[0] == 8 then Got(Backspace, 1)
    else if input[0] == 3 then Got(Interrupt, 1)
    else if input[0] == 4 then Got(EndOfInput, 1)
    else if input[0] == 1 then Got(Home, 1)
    else if input[0] == 5 then Got(End, 1)
    else if input[0] == 21 then Got(Kill, 1)
    else if input[0] == ESC then EscapeKey(input)
    else if Printable(input[0]) then Got(Char(input[0]), 1)
    else Got(Ignored, 1)
  }

  function EscapeKey(input: Line): (d: Decoded)
    requires |input| >= 1
    ensures d.Got? ==> 0 < d.used <= |input| && !d.key.Char?
  {
    if |input| < 2 then NoKey
    else if input[1] != BRACKET then Got(Ignored, 2)
    else if |input| < 3 then NoKey
    else if input[2] == 0x41 then Got(Up, 3)
    else if input[2] == 0x42 then Got(Down, 3)
    else if input[2] == 0x43 then Got(Right, 3)
    else if input[2] == 0x44 then Got(Left, 3)
    else if input[2] == 0x48 then Got(Home, 3)
    else if input[2] == 0x46 then Got(End, 3)
    else if input[2] != 0x33 then Got(Ignored, 3)
    else if |input| < 4 then NoKey
    else Got(if input[3] == 0x7e then Delete else Ignored, 4)
  }

  /** The bytes a terminal sends for a key. */
  function Typed(k: Key): Line
    requires !k.Ignored?
  {
    match k
    case Char(b) => [b]
    case Enter => [13]
    case Backspace => [127]
    case Interrupt => [3]
    case EndOfInput => [4]
    case Home => [ESC, BRACKET, 0x48]
    case End => [ESC, BRACKET, 0x46]
    case Kill => [21]
    case Up => [ESC, BRACKET, 0x41]
    case Down => [ESC, BRACKET, 0x42]
    case Right => [ESC, BRACKET, 0x43]
    case Left => [ESC, BRACKET, 0x44]
    case Delete => [ESC, BRACKET, 0x33, 0x7e]
  }

  /** Every key is read back from its bytes, whatever follows them. */
  lemma TypedKeyIsRead(k: Key, rest: Line)
    requires !k.Ignored? && (k.Char? ==> Printable(k.b))
    ensures NextKey(Typed(k) + rest) == Got(k, |Typed(k)|)
  {
    var input := Typed(k) + rest;
    assert forall i :: 0 <= i < |Typed(k)| ==> input[i] == Typed(k)[i];
  }

  // ----- The editor as the code keeps it -----

  /** The buffer, the cursor, the history position and the line typed before Up. */
  datatype Ed = Ed(buf: Line, pos: nat, histIdx: nat, saved: Line)

  ghost predicate Valid(ed: Ed, hist: seq<Line>) {
    && AllPrintable(ed.buf) && |ed.buf| <= MAX_LINE && ed.pos <= |ed.buf|
    && AllPrintable(ed.saved) && |ed.saved| <= MAX_LINE && ed.histIdx <= |hist|
  }

  /** History holds a bounded number of bounded, printable, non-empty lines. */
  ghost predicate ValidHistory(hist: seq<Line>) {
    && |hist| <= MAX_HISTORY
    && forall i :: 0 <= i < |hist| ==> AllPrintable(hist[i]) && 0 < |hist[i]| <= MAX_LINE
  }

  function BackBy(n: nat): Line {
    if n > 0 then Sequence(n, 0x44) else []
  }

  /** The bytes that rewrite the line from its start. */
  function Redraw(buf: Line, pos: nat): Line {
    BackBy(pos) + buf + Short(0x4b) + BackBy(if |buf| > pos then |buf| - pos else 0)
  }

  function SetLine(ed: Ed, line: Line): Ed {
    ed.(buf := line, pos := |line|)
  }

  predicate Ends(ed: Ed, k: Key) {
    k.Enter? || k.Interrupt? || (k.EndOfInput? && ed.buf == []) || (k.Char? && |ed.buf| >= MAX_LINE)
  }

  function After(ed: Ed, hist: seq<Line>, k: Key): Ed
    requires ed.pos <= |ed.buf| && ed.histIdx <= |hist|
  {
    match k
    case Char(b) => ed.(buf := ed.buf[..ed.pos] + [b] + ed.buf[ed.pos..], pos := ed.pos + 1)
    case Backspace => if ed.pos > 0 then ed.(buf := ed.buf[..ed.pos - 1] + ed.buf[ed.pos..], pos := ed.pos - 1) else ed
    case Delete => if ed.pos < |ed.buf| then ed.(buf := ed.buf[..ed.pos] + ed.buf[ed.pos + 1..]) else ed
    case Left => if ed.pos > 0 then ed.(pos := ed.pos - 1) else ed
    case Right => if ed.pos < |ed.buf| then ed.(pos := ed.pos + 1) else ed
    case Home => ed.(pos := 0)
    case End => ed.(pos := |ed.buf|)
    case Kill => if |ed.buf| > 0 then ed.(buf := [], pos := 0) else ed
    case Up =>
      if ed.histIdx > 0 then
        SetLine(ed.(histIdx := ed.histIdx - 1, saved := if ed.histIdx == |hist| then ed.buf else ed.saved), hist[ed.histIdx - 1])
      else ed
    case Down =>
      if ed.histIdx < |hist| then
        SetLine(ed.(histIdx := ed.histIdx + 1), if ed.histIdx + 1 == |hist| then ed.saved else hist[ed.histIdx + 1])
      else ed
    case _ => ed
  }

  /** What the key sends to the terminal. */
  function Output(ed: Ed, hist: seq<Line>, k: Key): Line
    requires ed.pos <= |ed.buf| && ed.histIdx <= |hist|
  {
    var ed' := After(ed, hist, k);
    match k
    case Char(b) =>
      if |ed.buf| >= MAX_LINE then []
      else if ed.pos == |ed.buf| then [b]
      else [b] + ed.buf[ed.pos..] + Sequence(|ed.buf| - ed.pos, 0x44)
    case Enter => [13, 10]
    case Interrupt => [0x5e, 0x43, 13, 10]
    case EndOfInput => if ed.buf == [] then [13, 10] else []
    case Backspace => if ed.pos > 0 then Short(0x44) + Redraw(ed'.buf, ed'.pos) else []
    case Delete => if ed.pos < |ed.buf| then Redraw(ed'.buf, ed'.pos) else []
    case Left => if ed.pos > 0 then Short(0x44) else []
    case Right => if ed.pos < |ed.buf| then Short(0x43) else []
    case Home => BackBy(ed.pos)
    case End => if ed.pos < |ed.buf| then Sequence(|ed.buf| - ed.pos, 0x43) else []
    case Kill => if |ed.buf| > 0 then BackBy(ed.pos) + Short(0x4b) else []
    case Up => if ed.histIdx > 0 then BackBy(ed.pos) + ed'.buf + Short(0x4b) else []
    case Down => if ed.histIdx < |hist| then BackBy(ed.pos) + ed'.buf + Short(0x4b) else []
    case Ignored => []
  }

  lemma AfterValid(ed: Ed, hist: seq<Line>, k: Key)
    requires Valid(ed, hist) && ValidHistory(hist) && !Ends(ed, k) && (k.Char? ==> Printable(k.b))
    ensures Valid(After(ed, hist, k), hist)
  {
  }

  // ----- The pure editor -----

  /** The text left and right of the cursor, the history position, the typed line. */
  datatype Zipper = Zipper(left: Line, right: Line, at: nat, typed: Line)

  function Text(z: Zipper): Line {
    z.left + z.right
  }

  function Recall(z: Zipper, at: nat, line: Line): Zipper {
    z.(left := line, right := [], at := at)
  }

  function Press(z: Zipper, hist: seq<Line>, k: Key): Zipper
    requires z.at <= |hist|
  {
    var l, r := |z.left|, |z.right|;
    match k
    case Char(b) => z.(left := z.left + [b])
    case Backspace => if l == 0 then z else z.(left := z.left[..l - 1])
    case Delete => if r == 0 then z else z.(right := z.right[1..])
    case Left => if l == 0 then z else z.(left := z.left[..l - 1], right := [z.left[l - 1]] + z.right)
    case Right => if r == 0 then z else z.(left := z.left + [z.right[0]], right := z.right[1..])
    case Home => z.(left := [], right := Text(z))
    case End => z.(left := Text(z), right := [])
    case Kill => z.(left := [], right := [])
    case Up =>
      if z.at == 0 then z
      else if z.at == |hist| then Recall(z.(typed := Text(z)), z.at - 1, hist[z.at - 1])
      else Recall(z, z.at - 1, hist[z.at - 1])
    case Down =>
      if z.at == |hist| then z
      else if z.at + 1 == |hist| then Recall(z, z.at + 1, z.typed)
      else Recall(z, z.at + 1, hist[z.at + 1])
    case _ => z
  }

  function Abstract(ed: Ed): Zipper
    requires ed.pos <= |ed.buf|
  {
    Zipper(ed.buf[..ed.pos], ed.buf[ed.pos..], ed.histIdx, ed.saved)
  }

  /** Every key does to the buffer what it does to the pure editor. */
  lemma KeyRefinesZipper(ed: Ed, hist: seq<Line>, k: Key)
    requires Valid(ed, hist)
    ensures var ed' := After(ed, hist, k);
            ed'.pos <= |ed'.buf| && Abstract(ed') == Press(Abstract(ed), hist, k)
  {
    if k.Char? || k.Backspace? || k.Delete? {
      EditingRefines(ed, hist, k);
    } else if k.Left? || k.Right? {
      MovingRefines(ed, hist, k);
    } else if k.Up? || k.Down? {
      RecallingRefines(ed, hist, k);
    } else {
      JumpingRefines(ed, hist, k);
    }
  }

  lemma RecallingRefines(ed: Ed, hist: seq<Line>, k: Key)
    requires ed.pos <= |ed.buf| && ed.histIdx <= |hist| && (k.Up? || k.Down?)
    ensures var ed' := After(ed, hist, k);
            ed'.pos <= |ed'.buf| && Abstract(ed') == Press(Abstract(ed), hist, k)
  {
    Rejoined(ed);
  }

  lemma JumpingRefines(ed: Ed, hist: seq<Line>, k: Key)
    requires ed.pos <= |ed.buf| && ed.histIdx <= |hist| && !(k.Char? || k.Backspace? || k.Delete? || k.Left? || k.Right? || k.Up? || k.Down?)
    ensures var ed' := After(ed, hist, k);
            ed'.pos <= |ed'.buf| && Abstract(ed') == Press(Abstract(ed), hist, k)
  {
    Rejoined(ed);
    if k.Kill? && |ed.buf| == 0 {
      assert ed.buf[..ed.pos] == [] && ed.buf[ed.pos..] == [];
    }
  }

  lemma Rejoined(ed: Ed)
    requires ed.pos <= |ed.buf|
    ensures Text(Abstract(ed)) == ed.buf
  {
  }

  lemma EditingRefines(ed: Ed, hist: seq<Line>, k: Key)
    requires ed.pos <= |ed.buf| && ed.histIdx <= |hist| && (k.Char? || k.Backspace? || k.Delete?)
    ensures var ed' := After(ed, hist, k);
            ed'.pos <= |ed'.buf| && Abstract(ed') == Press(Abstract(ed), hist, k)
  {
    var ed', z := After(ed, hist, k), Abstract(ed);
    if k.Char? {
      assert ed'.buf[..ed'.pos] == z.left + [k.b] && ed'.buf[ed'.pos..] == z.right;
    } else if k.Backspace? && ed.pos > 0 {
      assert ed'.buf[..ed'.pos] == z.left[..ed.pos - 1] && ed'.buf[ed'.pos..] == z.right;
    } else if k.Delete? && ed.pos < |ed.buf| {
      assert ed'.buf[..ed'.pos] == z.left && ed'.buf[ed'.pos..] == z.right[1..];
    }
  }

  lemma MovingRefines(ed: Ed, hist: seq<Line>, k: Key)
    requires ed.pos <= |ed.buf| && ed.histIdx <= |hist| && (k.Left? || k.Right?)
    ensures var ed' := After(ed, hist, k);
            ed'.pos <= |ed'.buf| && Abstract(ed') == Press(Abstract(ed), hist, k)
  {
    var ed', z := After(ed, hist, k), Abstract(ed);
    if k.Left? && ed.pos > 0 {
      assert ed'.buf[..ed'.pos] == z.left[..ed.pos - 1] && ed'.buf[ed'.pos..] == [z.left[ed.pos - 1]] + z.right;
    } else if k.Right? && ed.pos < |ed.buf| {
      assert ed'.buf[..ed'.pos] == z.left + [z.right[0]] && ed'.buf[ed'.pos..] == z.right[1..];
    }
  }

  // ----- The terminal -----

  /** The screen shows the prompt and the buffer, with the cursor where pos says. */
  ghost predicate Shows(s: Screen, prompt: Line, ed: Ed) {
    s.mode == Ground && s.line == prompt + ed.buf && s.col == |prompt| + ed.pos
  }

  lemma FeedBack(s: Screen, n: nat)
    requires s.mode == Ground && n <= s.col
    ensures Feed(s, BackBy(n)) == s.(col := s.col - n)
  {
    if n > 0 { FeedSequence(s, n, 0x44); }
  }

  lemma FeedThree(s: Screen, a: Line, b: Line, c: Line, t: Screen, u: Screen)
    requires Feed(s, a) == t && Feed(Feed(t, b), c) == u
    ensures Feed(s, a + b + c) == u
  {
    FeedAppend(s, a + b, c);
    FeedAppend(s, a, b);
  }

  /** Rewriting from the prompt's end leaves exactly the new text, whatever was there. */
  lemma FeedRewrite(s: Screen, prompt: Line, shown: Line, back: nat, buf: Line)
    requires s.mode == Ground && s.line == prompt + shown && s.col == |prompt| + back && back <= |shown|
    requires AllPrintable(buf)
    ensures Feed(s, BackBy(back) + buf + Short(0x4b)) == Screen(prompt + buf, |prompt| + |buf|, Ground)
  {
    var t := s.(col := |prompt|);
    FeedBack(s, back);
    StartsWith(prompt, shown);
    FeedOver(t, prompt, buf);
    FeedThree(s, BackBy(back), buf, Short(0x4b), t, Screen(prompt + buf, |prompt| + |buf|, Ground));
  }

  lemma StartsWith(a: Line, b: Line)
    ensures (a + b)[..|a|] == a
  {
  }

  lemma FeedOver(t: Screen, prompt: Line, buf: Line)
    requires t.mode == Ground && t.col == |prompt| <= |t.line| && t.line[..|prompt|] == prompt && AllPrintable(buf)
    ensures Feed(Feed(t, buf), Short(0x4b)) == Screen(prompt + buf, |prompt| + |buf|, Ground)
  {
    FeedText(t, buf);
    var u := Feed(t, buf);
    assert u.line[..u.col] == prompt + buf;
    FeedShort(u, 0x4b);
  }

  lemma FeedRedraw(s: Screen, prompt: Line, shown: Line, ed: Ed)
    requires s.mode == Ground && s.line == prompt + shown && s.col == |prompt| + ed.pos && ed.pos <= |shown|
    requires AllPrintable(ed.buf) && ed.pos <= |ed.buf|
    ensures Shows(Feed(s, Redraw(ed.buf, ed.pos)), prompt, ed)
  {
    var tail := BackBy(if |ed.buf| > ed.pos then |ed.buf| - ed.pos else 0);
    FeedAppend(s, BackBy(ed.pos) + ed.buf + Short(0x4b), tail);
    FeedRewrite(s, prompt, shown, ed.pos, ed.buf);
    FeedBack(Screen(prompt + ed.buf, |prompt| + |ed.buf|, Ground), if |ed.buf| > ed.pos then |ed.buf| - ed.pos else 0);
  }

  lemma InsertShows(s: Screen, prompt: Line, ed: Ed, hist: seq<Line>, b: Byte)
    requires Valid(ed, hist) && Printable(b) && |ed.buf| < MAX_LINE && Shows(s, prompt, ed)
    ensures Shows(Feed(s, Output(ed, hist, Char(b))), prompt, After(ed, hist, Char(b)))
  {
    var rest := ed.buf[ed.pos..];
    FeedInsert(s, prompt, ed.buf, ed.pos, b);
    if ed.pos < |ed.buf| {
      FeedAppend(s, [b] + rest, Sequence(|rest|, 0x44));
      FeedSequence(Feed(s, [b] + rest), |rest|, 0x44);
    } else {
      assert [b] + rest == [b];
    }
  }

  lemma FeedToTheEnd(s: Screen, text: Line)
    requires s.mode == Ground && AllPrintable(text) && s.col <= |s.line| <= s.col + |text|
    ensures Feed(s, text) == s.(line := s.line[..s.col] + text, col := s.col + |text|)
  {
    FeedText(s, text);
    assert s.col + |text| == |s.line| ==> s.line[s.col + |text|..] == [];
  }

  /** Typing a byte and what stood after it rewrites the line from the cursor on. */
  lemma FeedInsert(s: Screen, prompt: Line, buf: Line, pos: nat, b: Byte)
    requires s.mode == Ground && s.line == prompt + buf && s.col == |prompt| + pos && pos <= |buf|
    requires AllPrintable(buf) && Printable(b)
    ensures Feed(s, [b] + buf[pos..]) == Screen(prompt + (buf[..pos] + [b] + buf[pos..]), |prompt| + |buf| + 1, Ground)
  {
    FeedToTheEnd(s, [b] + buf[pos..]);
    InsertedLine(prompt, buf, pos, b);
  }

  lemma InsertedLine(prompt: Line, buf: Line, pos: nat, b: Byte)
    requires pos <= |buf|
    ensures (prompt + buf)[..|prompt| + pos] + ([b] + buf[pos..]) == prompt + (buf[..pos] + [b] + buf[pos..])
  {
  }

  lemma EraseShows(s: Screen, prompt: Line, ed: Ed, hist: seq<Line>, k: Key)
    requires Valid(ed, hist) && Shows(s, prompt, ed) && (k.Backspace? || k.Delete? || k.Kill?)
    ensures Shows(Feed(s, Output(ed, hist, k)), prompt, After(ed, hist, k))
  {
    var ed' := After(ed, hist, k);
    if k.Backspace? && ed.pos > 0 {
      FeedAppend(s, Short(0x44), Redraw(ed'.buf, ed'.pos));
      FeedShort(s, 0x44);
      FeedRedraw(Feed(s, Short(0x44)), prompt, ed.buf, ed');
    } else if k.Delete? && ed.pos < |ed.buf| {
      FeedRedraw(s, prompt, ed.buf, ed');
    } else if k.Kill? && |ed.buf| > 0 {
      FeedRewrite(s, prompt, ed.buf, ed.pos, []);
      assert BackBy(ed.pos) + [] + Short(0x4b) == BackBy(ed.pos) + Short(0x4b);
    }
  }

  lemma MoveShows(s: Screen, prompt: Line, ed: Ed, hist: seq<Line>, k: Key)
    requires Valid(ed, hist) && Shows(s, prompt, ed) && (k.Left? || k.Right? || k.Home? || k.End?)
    ensures Shows(Feed(s, Output(ed, hist, k)), prompt, After(ed, hist, k))
  {
    if k.Left? && ed.pos > 0 {
      FeedShort(s, 0x44);
    } else if k.Right? && ed.pos < |ed.buf| {
      FeedShort(s, 0x43);
    } else if k.Home? {
      FeedBack(s, ed.pos);
    } else if k.End? && ed.pos < |ed.buf| {
      FeedSequence(s, |ed.buf| - ed.pos, 0x43);
    }
  }

  /** After any key that does not end the line, the visible line is the buffer and the
      cursor column is pos. */
  lemma KeyShows(s: Screen, prompt: Line, ed: Ed, hist: seq<Line>, k: Key)
    requires Valid(ed, hist) && ValidHistory(hist) && !Ends(ed, k) && (k.Char? ==> Printable(k.b))
    requires Shows(s, prompt, ed)
    ensures Shows(Feed(s, Output(ed, hist, k)), prompt, After(ed, hist, k))
  {
    if k.Char? {
      InsertShows(s, prompt, ed, hist, k.b);
    } else if k.Backspace? || k.Delete? || k.Kill? {
      EraseShows(s, prompt, ed, hist, k);
    } else if k.Left? || k.Right? || k.Home? || k.End? {
      MoveShows(s, prompt, ed, hist, k);
    } else if (k.Up? && ed.histIdx > 0) || (k.Down? && ed.histIdx < |hist|) {
      FeedRewrite(s, prompt, ed.buf, ed.pos, After(ed, hist, k).buf);
    }
  }

  // ----- Whole lines -----

  datatype Result = Entered(line: Line) | Cancelled | Exit | ReadError | TooLong

  /** One call: how it ended, the unread input, the bytes sent, the last state. */
  datatype Turn = Turn(result: Result, rest: Line, out: Line, ed: Ed)

  function Ending(ed: Ed, k: Key): Result
    requires Ends(ed, k)
  {
    match k
    case Enter => Entered(TrimSpace(ed.buf))
    case Interrupt => Cancelled
    case EndOfInput => Exit
    case Char(_) => TooLong
  }

  function Edit(hist: seq<Line>, ed: Ed, input: Line): Turn
    requires ed.pos <= |ed.buf| && ed.histIdx <= |hist|
    decreases |input|
  {
    match NextKey(input)
    case NoKey => Turn(ReadError, [], [], ed)
    case Got(k, used) =>
      if Ends(ed, k) then Turn(Ending(ed, k), input[used..], Output(ed, hist, k), ed)
      else
        var ed' := After(ed, hist, k);
        var t := Edit(hist, ed', input[used..]);
        t.(out := Output(ed, hist, k) + t.out)
  }

  lemma EditStep(hist: seq<Line>, ed: Ed, input: Line)
    requires ed.pos <= |ed.buf| && ed.histIdx <= |hist|
    requires NextKey(input).Got? && !Ends(ed, NextKey(input).key)
    ensures var d := NextKey(input);
            var t := Edit(hist, After(ed, hist, d.key), input[d.used..]);
            Edit(hist, ed, input) == t.(out := Output(ed, hist, d.key) + t.out)
  {
  }

  function Fresh(hist: seq<Line>): Ed {
    Ed([], 0, |hist|, [])
  }

  function Remember(hist: seq<Line>, line: Line): seq<Line> {
    if line == [] then hist
    else if |hist| == MAX_HISTORY then hist[1..] + [line]
    else hist + [line]
  }

  lemma RememberFits(hist: seq<Line>, line: Line)
    requires ValidHistory(hist) && AllPrintable(line) && |line| <= MAX_LINE
    ensures ValidHistory(Remember(hist, line))
  {
  }

  /** The newest line comes last and the ones before it are kept, but for the oldest of 200. */
  lemma RememberKeepsNewest(hist: seq<Line>, line: Line)
    requires |hist| <= 200
    ensures var after := Remember(hist, line); var kept := if |hist| == 200 then 199 else |hist|;
            if line == [] then after == hist else |after| == kept + 1 && after[kept] == line && after[..kept] == hist[|hist| - kept..]
  {
  }

  /** On any input: whenever the editor is waiting for more bytes, the screen shows
      exactly its buffer and cursor; and an entered line fits the history. */
  lemma {:induction false} ScreenFollowsEditor(hist: seq<Line>, ed: Ed, input: Line, s: Screen, prompt: Line)
    requires ValidHistory(hist) && Valid(ed, hist) && Shows(s, prompt, ed)
    ensures var t := Edit(hist, ed, input);
            && Valid(t.ed, hist)
            && (t.result == ReadError ==> Shows(Feed(s, t.out), prompt, t.ed))
            && (t.result.Entered? ==> ValidHistory(Remember(hist, t.result.line)))
    decreases |input|
  {
    var d := NextKey(input);
    if d.Got? && !Ends(ed, d.key) {
      var ed', out := After(ed, hist, d.key), Output(ed, hist, d.key);
      KeyShows(s, prompt, ed, hist, d.key);
      AfterValid(ed, hist, d.key);
      ScreenFollowsEditor(hist, ed', input[d.used..], Feed(s, out), prompt);
      FeedAppend(s, out, Edit(hist, ed', input[d.used..]).out);
    }
  }

  /** The keys an input decodes to, up to the one that ends the line. */
  function KeysOf(hist: seq<Line>, ed: Ed, input: Line): seq<Key>
    requires ed.pos <= |ed.buf| && ed.histIdx <= |hist|
    decreases |input|
  {
    match NextKey(input)
    case NoKey => []
    case Got(k, used) =>
      if Ends(ed, k) then [] else [k] + KeysOf(hist, After(ed, hist, k), input[used..])
  }

  function PressAll(z: Zipper, hist: seq<Line>, keys: seq<Key>): (r: Zipper)
    requires z.at <= |hist|
    ensures r.at <= |hist|
    decreases |keys|
  {
    if keys == [] then z else PressAll(Press(z, hist, keys[0]), hist, keys[1..])
  }

  /** A whole line of editing is the pure editor applied to its keys; what is entered
      is the pure editor's text, trimmed. */
  lemma {:induction false} EditRefinesZipper(hist: seq<Line>, ed: Ed, input: Line)
    requires ValidHistory(hist) && Valid(ed, hist)
    ensures var t := Edit(hist, ed, input);
            && Valid(t.ed, hist)
            && Abstract(t.ed) == PressAll(Abstract(ed), hist, KeysOf(hist, ed, input))
            && (t.result.Entered? ==> t.result.line == TrimSpace(Text(PressAll(Abstract(ed), hist, KeysOf(hist, ed, input)))))
    decreases |input|
  {
    var d := NextKey(input);
    assert ed.buf[..ed.pos] + ed.buf[ed.pos..] == ed.buf;
    if d.Got? && !Ends(ed, d.key) {
      KeyRefinesZipper(ed, hist, d.key);
      AfterValid(ed, hist, d.key);
      EditRefinesZipper(hist, After(ed, hist, d.key), input[d.used..]);
      var rest := KeysOf(hist, After(ed, hist, d.key), input[d.used..]);
      assert ([d.key] + rest)[1..] == rest;
    }
  }

  // ----- History recall -----

  function Times(z: Zipper, hist: seq<Line>, k: Key, n: nat): (r: Zipper)
    requires z.at <= |hist|
    ensures r.at <= |hist|
  {
    if n == 0 then z else Press(Times(z, hist, k, n - 1), hist, k)
  }

  lemma {:induction false} UpsReach(z: Zipper, hist: seq<Line>, n: nat)
    requires z.at == |hist|
    ensures var r := Times(z, hist, Up, n); var m := if n < |hist| then n else |hist|;
            if m == 0 then r == z else r == Zipper(hist[|hist| - m], [], |hist| - m, Text(z))
  {
    if n > 0 { UpsReach(z, hist, n - 1); }
  }

  lemma {:induction false} DownsReach(z: Zipper, hist: seq<Line>, n: nat)
    requires z.at < |hist|
    ensures var r := Times(z, hist, Down, n);
            if n == 0 then r == z
            else if z.at + n < |hist| then r == Zipper(hist[z.at + n], [], z.at + n, z.typed)
            else r == Zipper(z.typed, [], |hist|, z.typed)
  {
    if n > 0 { DownsReach(z, hist, n - 1); }
  }

  /** k Ups then k Downs with no edit between restore the typed line, however long the
      history and however often Up is pressed. */
  lemma UpsThenDownsRestore(z: Zipper, hist: seq<Line>, n: nat)
    requires z.at == |hist|
    ensures var r := Times(Times(z, hist, Up, n), hist, Down, n);
            && Text(r) == Text(z) && r.at == |hist|
            && (n > 0 && hist != [] ==> r.right == [])
            && (n == 0 || hist == [] ==> r == z)
  {
    UpsReach(z, hist, n);
    var up := Times(z, hist, Up, n);
    if n > 0 && hist != [] {
      DownsReach(up, hist, n);
      assert Text(z) + [] == Text(z);
    } else {
      DownsAtEnd(z, hist, n);
    }
  }

  lemma {:induction false} DownsAtEnd(z: Zipper, hist: seq<Line>, n: nat)
    requires z.at == |hist|
    ensures Times(z, hist, Down, n) == z
  {
    if n > 0 { DownsAtEnd(z, hist, n - 1); }
  }

  // ----- The same from the bytes a terminal sends -----

  /** n times the bytes of a key. */
  function TypedTimes(k: Key, n: nat): Line
    requires !k.Ignored?
  {
    if n == 0 then [] else Typed(k) + TypedTimes(k, n - 1)
  }

  function PressedTimes(ed: Ed, hist: seq<Line>, k: Key, n: nat): Ed
    requires (k.Up? || k.Down?) && ed.pos <= |ed.buf| && ed.histIdx <= |hist|
    decreases n
  {
    if n == 0 then ed else PressedTimes(After(ed, hist, k), hist, k, n - 1)
  }

  lemma {:induction false} PressedValid(ed: Ed, hist: seq<Line>, k: Key, n: nat)
    requires (k.Up? || k.Down?) && Valid(ed, hist) && ValidHistory(hist)
    ensures Valid(PressedTimes(ed, hist, k, n), hist)
    decreases n
  {
    if n > 0 {
      AfterValid(ed, hist, k);
      PressedValid(After(ed, hist, k), hist, k, n - 1);
    }
  }

  /** Two turns that end alike: the same answer, the same unread input, the same state. */
  ghost predicate SameTurn(a: Turn, b: Turn) {
    a.result == b.result && a.rest == b.rest && a.ed == b.ed
  }

  /** Reading the bytes of one recall key is pressing it. */
  lemma RecallIsRead(hist: seq<Line>, ed: Ed, k: Key, rest: Line)
    requires (k.Up? || k.Down?) && Valid(ed, hist) && ValidHistory(hist)
    ensures Valid(After(ed, hist, k), hist) && SameTurn(Edit(hist, ed, Typed(k) + rest), Edit(hist, After(ed, hist, k), rest))
  {
    TypedKeyIsRead(k, rest);
    AfterValid(ed, hist, k);
    assert (Typed(k) + rest)[|Typed(k)|..] == rest;
    EditStep(hist, ed, Typed(k) + rest);
  }

  lemma RecallFirst(hist: seq<Line>, ed: Ed, k: Key, rest: Line, turn: Turn)
    requires (k.Up? || k.Down?) && Valid(ed, hist) && ValidHistory(hist) && Valid(After(ed, hist, k), hist)
    requires SameTurn(Edit(hist, After(ed, hist, k), rest), turn)
    ensures SameTurn(Edit(hist, ed, Typed(k) + rest), turn)
  {
    RecallIsRead(hist, ed, k, rest);
  }

  lemma TypedOnce(k: Key, n: nat, rest: Line)
    requires !k.Ignored?
    ensures TypedTimes(k, n) + rest == if n == 0 then rest else Typed(k) + (TypedTimes(k, n - 1) + rest)
  {
    if n > 0 {
      Regrouped(Typed(k), TypedTimes(k, n - 1), rest);
    }
  }

  lemma Regrouped(a: Line, b: Line, c: Line)
    ensures a + b + c == a + (b + c)
  {
  }

  lemma {:induction false} RecallsAreRead(hist: seq<Line>, ed: Ed, k: Key, n: nat, rest: Line)
    requires (k.Up? || k.Down?) && Valid(ed, hist) && ValidHistory(hist)
    ensures Valid(PressedTimes(ed, hist, k, n), hist)
    ensures SameTurn(Edit(hist, ed, TypedTimes(k, n) + rest), Edit(hist, PressedTimes(ed, hist, k, n), rest))
    decreases n
  {
    PressedValid(ed, hist, k, n);
    TypedOnce(k, n, rest);
    if n > 0 {
      AfterValid(ed, hist, k);
      RecallsAreRead(hist, After(ed, hist, k), k, n - 1, rest);
      RecallFirst(hist, ed, k, TypedTimes(k, n - 1) + rest, Edit(hist, PressedTimes(ed, hist, k, n), rest));
    }
  }

  lemma {:induction false} TimesFromTheFront(z: Zipper, hist: seq<Line>, k: Key, n: nat)
    requires z.at <= |hist| && Press(z, hist, k).at <= |hist|
    ensures Times(Press(z, hist, k), hist, k, n) == Times(z, hist, k, n + 1)
  {
    if n > 0 {
      TimesFromTheFront(z, hist, k, n - 1);
    }
  }

  lemma {:induction false} PressedRefines(ed: Ed, hist: seq<Line>, k: Key, n: nat)
    requires (k.Up? || k.Down?) && Valid(ed, hist) && ValidHistory(hist)
    ensures Valid(PressedTimes(ed, hist, k, n), hist)
    ensures Abstract(PressedTimes(ed, hist, k, n)) == Times(Abstract(ed), hist, k, n)
    decreases n
  {
    PressedValid(ed, hist, k, n);
    if n > 0 {
      AfterValid(ed, hist, k);
      KeyRefinesZipper(ed, hist, k);
      PressedRefines(After(ed, hist, k), hist, k, n - 1);
      TimesFromTheFront(Abstract(ed), hist, k, n - 1);
    }
  }

  /** k Up keys and k Down keys typed at the end of the history, whatever is typed after
      them: the editor goes on from the line it had. */
  lemma TypedUpsAndDownsRestore(hist: seq<Line>, ed: Ed, n: nat, rest: Line) returns (back: Ed)
    requires Valid(ed, hist) && ValidHistory(hist) && ed.histIdx == |hist|
    ensures Valid(back, hist) && back.buf == ed.buf && back.histIdx == |hist|
    ensures SameTurn(Edit(hist, ed, TypedTimes(Up, n) + (TypedTimes(Down, n) + rest)), Edit(hist, back, rest))
  {
    var up := PressedTimes(ed, hist, Up, n);
    RecallsAreRead(hist, ed, Up, n, TypedTimes(Down, n) + rest);
    back := PressedTimes(up, hist, Down, n);
    RecallsAreRead(hist, up, Down, n, rest);
    PressedRefines(ed, hist, Up, n);
    PressedRefines(up, hist, Down, n);
    UpsThenDownsRestore(Abstract(ed), hist, n);
    WholeText(ed);
    WholeText(back);
  }

  lemma WholeText(ed: Ed)
    requires ed.pos <= |ed.buf|
    ensures Text(Abstract(ed)) == ed.buf
  {
    assert ed.buf[..ed.pos] + ed.buf[ed.pos..] == ed.buf;
  }
}
