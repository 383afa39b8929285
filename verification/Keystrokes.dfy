/** The line editor from the bytes it reads: how each key is spelled, and what line a typed
    text with one key in the middle of it enters. */
module Keystrokes {
  import opened Basics
  import opened Bytes
  import opened Terminal
  import opened EditorModel

  // ----- Spellings -----

  /** Bytes that mean nothing to the editor: an unassigned byte, and an escape sequence it
      does not know. */
  predicate Noise(s: Line) {
    || (|s| == 1 && s[0] !in [1, 3, 4, 5, 8, 10, 13, 21, 27, 127] && !(32 <= s[0] < 127))
    || (|s| == 2 && s[0] == 27 && s[1] != 91)
    || (|s| == 3 && s[0] == 27 && s[1] == 91 && s[2] !in [0x41, 0x42, 0x43, 0x44, 0x46, 0x48, 0x33])
    || (|s| == 4 && s[0] == 27 && s[1] == 91 && s[2] == 0x33 && s[3] != 0x7e)
  }

  /** The bytes spell the key. */
  predicate Spells(s: Line, k: Key) {
    match k
    case Char(b) => 32 <= b < 127 && s == [b]
    case Enter => s == [13] || s == [10]
    case Backspace => s == [127] || s == [8]
    case Interrupt => s == [3]
    case EndOfInput => s == [4]
    case Home => s == [1] || s == [27, 91, 0x48]
    case End => s == [5] || s == [27, 91, 0x46]
    case Kill => s == [21]
    case Up => s == [27, 91, 0x41]
    case Down => s == [27, 91, 0x42]
    case Right => s == [27, 91, 0x43]
    case Left => s == [27, 91, 0x44]
    case Delete => s == [27, 91, 0x33, 0x7e]
    case Ignored => Noise(s)
  }

  /** The first key read is the one the first bytes spell, however many of them it takes. */
  lemma KeyReadIffSpelled(input: Line, k: Key, n: nat)
    ensures NextKey(input) == Got(k, n) <==> n <= |input| && Spells(input[..n], k)
  {
    if n <= |input| && Spells(input[..n], k) {
      assert forall i :: 0 <= i < n ==> input[i] == input[..n][i];
    }
  }

  lemma SpelledIsRead(s: Line, k: Key, rest: Line)
    requires Spells(s, k)
    ensures NextKey(s + rest) == Got(k, |s|) && (s + rest)[|s|..] == rest
  {
    assert (s + rest)[..|s|] == s;
    KeyReadIffSpelled(s + rest, k, |s|);
  }

  // ----- One key in the middle of a line -----

  /** Bytes that spell a key which does not end the line: the editor goes on after it. */
  lemma PressIsRead(hist: seq<Line>, ed: Ed, s: Line, k: Key, rest: Line)
    requires Valid(ed, hist) && ValidHistory(hist) && Spells(s, k) && !Ends(ed, k)
    ensures Valid(After(ed, hist, k), hist) && SameTurn(Edit(hist, ed, s + rest), Edit(hist, After(ed, hist, k), rest))
  {
    SpelledIsRead(s, k, rest);
    AfterValid(ed, hist, k);
    EditStep(hist, ed, s + rest);
  }

  /** The line so far is a, the cursor, b. */
  function At(hist: seq<Line>, a: Line, b: Line): Ed {
    Ed(a + b, |a|, |hist|, [])
  }

  ghost predicate Fits(hist: seq<Line>, a: Line, b: Line) {
    ValidHistory(hist) && AllPrintable(a) && AllPrintable(b) && |a| + |b| < MAX_LINE
  }

  lemma TypedOne(hist: seq<Line>, a: Line, b: Line, c: Byte, rest: Line)
    requires Fits(hist, a, b) && 32 <= c < 127
    ensures SameTurn(Edit(hist, At(hist, a, b), [c] + rest), Edit(hist, At(hist, a + [c], b), rest))
  {
    PressIsRead(hist, At(hist, a, b), [c], Char(c), rest);
    assert a + [c] + b == (a + b)[..|a|] + [c] + (a + b)[|a|..];
  }

  lemma {:induction false} TypedText(hist: seq<Line>, a: Line, text: Line, rest: Line)
    requires ValidHistory(hist) && AllPrintable(a) && AllPrintable(text) && |a| + |text| <= MAX_LINE
    ensures SameTurn(Edit(hist, At(hist, a, []), text + rest), Edit(hist, At(hist, a + text, []), rest))
    decreases |text|
  {
    if text == [] {
      assert text + rest == rest && a + text == a;
    } else {
      var c, more := text[0], text[1..];
      assert text + rest == [c] + (more + rest) && a + text == (a + [c]) + more;
      TypedOne(hist, a, [], c, more + rest);
      TypedText(hist, a + [c], more, rest);
    }
  }

  lemma FitsBack(hist: seq<Line>, a: Line, x: Byte, b: Line)
    requires Fits(hist, a + [x], b)
    ensures Fits(hist, a, [x] + b)
  {
    assert forall i :: 0 <= i < |a| ==> a[i] == (a + [x])[i];
    assert x == (a + [x])[|a|];
  }

  lemma LeftMoves(hist: seq<Line>, a: Line, x: Byte, b: Line)
    ensures After(At(hist, a + [x], b), hist, Left) == At(hist, a, [x] + b)
  {
    assert (a + [x]) + b == a + ([x] + b);
  }

  lemma TypedLeft(hist: seq<Line>, a: Line, x: Byte, b: Line, rest: Line)
    requires Fits(hist, a + [x], b)
    ensures SameTurn(Edit(hist, At(hist, a + [x], b), Typed(Left) + rest), Edit(hist, At(hist, a, [x] + b), rest))
  {
    var ed := At(hist, a + [x], b);
    LeftMoves(hist, a, x, b);
    AtIsValid(hist, a + [x], b);
    PressIsRead(hist, ed, Typed(Left), Left, rest);
  }

  /** The cursor moved back over `back`. */
  lemma {:induction false} TypedLefts(hist: seq<Line>, a: Line, back: Line, b: Line, rest: Line)
    requires Fits(hist, a + back, b)
    ensures SameTurn(Edit(hist, At(hist, a + back, b), TypedTimes(Left, |back|) + rest), Edit(hist, At(hist, a, back + b), rest))
    decreases |back|
  {
    TypedOnce(Left, |back|, rest);
    if back == [] {
      assert a + back == a && back + b == b;
    } else {
      var n := |back| - 1;
      var front, x := back[..n], back[n];
      assert a + back == (a + front) + [x] && front + ([x] + b) == back + b;
      FitsBack(hist, a + front, x, b);
      TypedLeft(hist, a + front, x, b, TypedTimes(Left, n) + rest);
      TypedLefts(hist, a, front, [x] + b, rest);
    }
  }

  /** A text typed and the cursor moved back into it. */
  function Placed(a: Line, b: Line): Line {
    a + b + TypedTimes(Left, |b|)
  }

  lemma PlacedIsAt(hist: seq<Line>, a: Line, b: Line, rest: Line)
    requires Fits(hist, a, b)
    ensures SameTurn(Edit(hist, Fresh(hist), Placed(a, b) + rest), Edit(hist, At(hist, a, b), rest))
  {
    var lefts := TypedTimes(Left, |b|);
    assert Placed(a, b) + rest == (a + b) + (lefts + rest);
    assert [] + (a + b) == a + b;
    TypedText(hist, [], a + b, lefts + rest);
    TypedLefts(hist, a, b, [], rest);
    assert b + [] == b;
  }

  /** The line left and right of the cursor. */
  datatype Gap = Gap(left: Line, right: Line)

  /** Where the line and the cursor are after a key pressed between a and b. */
  function Pressed(hist: seq<Line>, a: Line, b: Line, k: Key): Gap {
    match k
    case Char(x) => Gap(a + [x], b)
    case Backspace => Gap(if a == [] then [] else a[..|a| - 1], b)
    case Delete => Gap(a, if b == [] then [] else b[1..])
    case Left => if a == [] then Gap(a, b) else Gap(a[..|a| - 1], [a[|a| - 1]] + b)
    case Right => if b == [] then Gap(a, b) else Gap(a + [b[0]], b[1..])
    case Home => Gap([], a + b)
    case End => Gap(a + b, [])
    case Kill => Gap([], [])
    case Up => if hist == [] then Gap(a, b) else Gap(hist[|hist| - 1], [])
    case _ => Gap(a, b)
  }

  /** What the editor keeps is this line with the cursor there. */
  ghost predicate Holds(ed: Ed, g: Gap) {
    ed.pos == |g.left| && |ed.buf| == |g.left| + |g.right| && ed.buf[..ed.pos] == g.left && ed.buf[ed.pos..] == g.right
  }

  lemma EditingLeaves(hist: seq<Line>, ed: Ed, a: Line, b: Line, k: Key)
    requires Valid(ed, hist) && Holds(ed, Gap(a, b)) && (k.Char? || k.Backspace? || k.Delete?)
    ensures Holds(After(ed, hist, k), Pressed(hist, a, b, k))
  {
    var ed' := After(ed, hist, k);
    if k.Char? {
      assert ed'.buf == a + [k.b] + b;
    } else if k.Backspace? && a != [] {
      assert ed'.buf == a[..|a| - 1] + b;
    } else if k.Delete? && b != [] {
      assert ed.buf[ed.pos + 1..] == b[1..];
      assert ed'.buf == a + b[1..];
    }
  }

  lemma LeftLeaves(hist: seq<Line>, ed: Ed, a: Line, x: Byte, b: Line)
    requires Valid(ed, hist) && Holds(ed, Gap(a + [x], b))
    ensures Holds(After(ed, hist, Left), Gap(a, [x] + b))
  {
    assert ed.buf[..ed.pos][..|a|] == a && ed.buf[|a|..] == [ed.buf[|a|]] + ed.buf[ed.pos..];
    assert ed.buf[|a|] == ed.buf[..ed.pos][|a|] == x;
  }

  lemma RightLeaves(hist: seq<Line>, ed: Ed, a: Line, x: Byte, b: Line)
    requires Valid(ed, hist) && Holds(ed, Gap(a, [x] + b))
    ensures Holds(After(ed, hist, Right), Gap(a + [x], b))
  {
    assert ed.buf[ed.pos..][1..] == b && ed.buf[..ed.pos + 1] == ed.buf[..ed.pos] + [ed.buf[ed.pos]];
    assert ed.buf[ed.pos] == ed.buf[ed.pos..][0] == x;
  }

  lemma JumpLeaves(hist: seq<Line>, ed: Ed, a: Line, b: Line, k: Key)
    requires Valid(ed, hist) && Holds(ed, Gap(a, b)) && (k.Home? || k.End?)
    ensures Holds(After(ed, hist, k), Pressed(hist, a, b, k))
  {
    assert ed.buf == ed.buf[..ed.pos] + ed.buf[ed.pos..];
  }

  lemma MovingLeaves(hist: seq<Line>, ed: Ed, a: Line, b: Line, k: Key)
    requires Valid(ed, hist) && Holds(ed, Gap(a, b)) && (k.Left? || k.Right? || k.Home? || k.End?)
    ensures Holds(After(ed, hist, k), Pressed(hist, a, b, k))
  {
    if k.Left? && a != [] {
      var n := |a| - 1;
      assert a == a[..n] + [a[n]];
      LeftLeaves(hist, ed, a[..n], a[n], b);
    } else if k.Right? && b != [] {
      assert b == [b[0]] + b[1..];
      RightLeaves(hist, ed, a, b[0], b[1..]);
    } else if k.Home? || k.End? {
      JumpLeaves(hist, ed, a, b, k);
    }
  }

  lemma KeyLeaves(hist: seq<Line>, ed: Ed, a: Line, b: Line, k: Key)
    requires Valid(ed, hist) && Holds(ed, Gap(a, b)) && ed.histIdx == |hist| && !Ends(ed, k)
    ensures Holds(After(ed, hist, k), Pressed(hist, a, b, k))
  {
    if k.Char? || k.Backspace? || k.Delete? {
      EditingLeaves(hist, ed, a, b, k);
    } else if k.Left? || k.Right? || k.Home? || k.End? {
      MovingLeaves(hist, ed, a, b, k);
    }
  }

  /** What ends a line, what it answers and what it sends: a printable byte too many, Enter,
      Ctrl-C, or Ctrl-D on an empty line. */
  lemma EndingKey(hist: seq<Line>, ed: Ed, s: Line, k: Key, rest: Line)
    requires Valid(ed, hist) && Spells(s, k)
    ensures Ends(ed, k) <==> k.Enter? || k.Interrupt? || (k.EndOfInput? && ed.buf == []) || (k.Char? && |ed.buf| == 8192)
    ensures var t := Edit(hist, ed, s + rest);
            && (k.Enter? ==> t == Turn(Entered(TrimSpace(ed.buf)), rest, [13, 10], ed))
            && (k.Interrupt? ==> t == Turn(Cancelled, rest, [0x5e, 0x43, 13, 10], ed))
            && (k.EndOfInput? && ed.buf == [] ==> t == Turn(Exit, rest, [13, 10], ed))
            && (k.Char? && |ed.buf| == 8192 ==> t == Turn(TooLong, rest, [], ed))
  {
    SpelledIsRead(s, k, rest);
  }

  /** c typed where the key has left the cursor, then Enter. */
  lemma TypedAndEntered(hist: seq<Line>, ed: Ed, g: Gap, c: Byte, enter: Line, rest: Line)
    requires Valid(ed, hist) && ValidHistory(hist) && Holds(ed, g) && |ed.buf| < MAX_LINE && 32 <= c < 127 && Spells(enter, Enter)
    ensures var t := Edit(hist, ed, [c] + (enter + rest)); t.result == Entered(TrimSpace(g.left + [c] + g.right)) && t.rest == rest
  {
    PressIsRead(hist, ed, [c], Char(c), enter + rest);
    var ed' := After(ed, hist, Char(c));
    EditingLeaves(hist, ed, g.left, g.right, Char(c));
    assert ed'.buf == ed'.buf[..ed'.pos] + ed'.buf[ed'.pos..];
    EndingKey(hist, ed', enter, Enter, rest);
  }

  /** Everything that is typed: a text, the cursor moved back into it, one key in any of its
      spellings, a character and Enter. */
  function Keyed(a: Line, b: Line, s: Line, c: Byte, enter: Line, rest: Line): Line {
    Placed(a, b) + (s + ([c] + (enter + rest)))
  }

  /** For every key and each of its spellings, every text and every place of the cursor in it:
      the line entered is the text as the key changes it, with c where the key left the cursor. */
  lemma KeyedLineIsEntered(hist: seq<Line>, a: Line, b: Line, s: Line, k: Key, c: Byte, enter: Line, rest: Line)
    requires Fits(hist, a, b) && Spells(s, k) && 32 <= c < 127 && Spells(enter, Enter)
    requires !k.Enter? && !k.Interrupt? && !(k.EndOfInput? && a + b == [])
    requires var g := Pressed(hist, a, b, k); |g.left| + |g.right| < MAX_LINE
    ensures var t, g := Edit(hist, Fresh(hist), Keyed(a, b, s, c, enter, rest)), Pressed(hist, a, b, k);
            t.result == Entered(TrimSpace(g.left + [c] + g.right)) && t.rest == rest
  {
    var ed, more := At(hist, a, b), [c] + (enter + rest);
    PlacedIsAt(hist, a, b, s + more);
    AtIsValid(hist, a, b);
    PressIsRead(hist, ed, s, k, more);
    KeyLeaves(hist, ed, a, b, k);
    TypedAndEntered(hist, After(ed, hist, k), Pressed(hist, a, b, k), c, enter, rest);
  }

  lemma AtIsValid(hist: seq<Line>, a: Line, b: Line)
    requires Fits(hist, a, b)
    ensures Valid(At(hist, a, b), hist) && Holds(At(hist, a, b), Gap(a, b))
  {
  }

  lemma UpsState(hist: seq<Line>, n: nat)
    requires ValidHistory(hist) && 0 < n <= |hist|
    ensures var up := PressedTimes(Fresh(hist), hist, Up, n);
            Valid(up, hist) && Abstract(up) == Zipper(hist[|hist| - n], [], |hist| - n, [])
  {
    PressedRefines(Fresh(hist), hist, Up, n);
    UpsReach(Abstract(Fresh(hist)), hist, n);
  }

  lemma DownsState(hist: seq<Line>, up: Ed, m: nat)
    requires ValidHistory(hist) && Valid(up, hist) && up.histIdx + m < |hist| && up.buf == hist[up.histIdx] && up.pos == |up.buf|
    ensures var down := PressedTimes(up, hist, Down, m); Valid(down, hist) && down.buf == hist[up.histIdx + m]
  {
    var down := PressedTimes(up, hist, Down, m);
    PressedRefines(up, hist, Down, m);
    DownsReach(Abstract(up), hist, m);
    WholeText(down);
    if m > 0 {
      assert hist[up.histIdx + m] + [] == hist[up.histIdx + m];
    }
  }

  lemma RecalledState(hist: seq<Line>, n: nat, m: nat)
    requires ValidHistory(hist) && m < n <= |hist|
    ensures var up := PressedTimes(Fresh(hist), hist, Up, n);
            && Valid(up, hist) && Valid(PressedTimes(up, hist, Down, m), hist)
            && PressedTimes(up, hist, Down, m).buf == hist[|hist| - n + m]
  {
    var up := PressedTimes(Fresh(hist), hist, Up, n);
    UpsState(hist, n);
    WholeText(up);
    assert up.buf == hist[|hist| - n] + [] == hist[|hist| - n];
    DownsState(hist, up, m);
  }

  /** n times Up and m times Down bring up the line n - m back in the history. */
  lemma RecalledLineIsEntered(hist: seq<Line>, n: nat, m: nat, enter: Line, rest: Line)
    requires ValidHistory(hist) && m < n <= |hist| && Spells(enter, Enter)
    ensures var t := Edit(hist, Fresh(hist), TypedTimes(Up, n) + (TypedTimes(Down, m) + (enter + rest)));
            t.result == Entered(TrimSpace(hist[|hist| - n + m])) && t.rest == rest
  {
    var up := PressedTimes(Fresh(hist), hist, Up, n);
    RecalledState(hist, n, m);
    RecallsAreRead(hist, Fresh(hist), Up, n, TypedTimes(Down, m) + (enter + rest));
    RecallsAreRead(hist, up, Down, m, enter + rest);
    EndingKey(hist, PressedTimes(up, hist, Down, m), enter, Enter, rest);
  }
}
