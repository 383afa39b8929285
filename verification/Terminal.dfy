/** One unbounded row of a terminal, driven byte by byte. CUB, CUF and EL follow
    sections 8.3.18, 8.3.20 and 8.3.41 of ECMA-48. */
module Terminal {
  import opened Basics
  import opened Bytes

  datatype Mode = Ground | Escape | Csi(param: nat)

  /** The visible row, the cursor column and where in an escape sequence we are. */
  datatype Screen = Screen(line: Line, col: nat, mode: Mode)

  const ESC: Byte := 0x1b
  const BRACKET: Byte := 0x5b

  function Blanks(n: nat): Line {
    seq(n, i => 32)
  }

  /** A printable byte overwrites the cell under the cursor. */
  function Print(s: Screen, b: Byte): Screen {
    var line := if s.col < |s.line| then s.line[s.col := b] else s.line + Blanks(s.col - |s.line|) + [b];
    s.(line := line, col := s.col + 1)
  }

  /** An omitted or zero count means one. */
  function Count(n: nat): nat {
    if n == 0 then 1 else n
  }

  function Control(s: Screen, n: nat, final: Byte): Screen {
    if final == 0x44 then s.(col := if Count(n) <= s.col then s.col - Count(n) else 0, mode := Ground)
    else if final == 0x43 then s.(col := s.col + Count(n), mode := Ground)
    else if final == 0x4b && n == 0 && s.col <= |s.line| then s.(line := s.line[..s.col], mode := Ground)
    else s.(mode := Ground)
  }

  function Put(s: Screen, b: Byte): Screen {
    match s.mode
    case Ground =>
      if b == ESC then s.(mode := Escape)
      else if b == 13 then s.(col := 0)
      else if b == 10 then s.(line := [])
      else if Printable(b) then Print(s, b)
      else s
    case Escape => s.(mode := if b == BRACKET then Csi(0) else Ground)
    case Csi(n) => if 48 <= b <= 57 then s.(mode := Csi(10 * n + (b - 48))) else Control(s, n, b)
  }

  function Feed(s: Screen, bytes: Line): Screen
    decreases |bytes|
  {
    if bytes == [] then s else Feed(Put(s, bytes[0]), bytes[1..])
  }

  lemma {:induction false} FeedAppend(s: Screen, a: Line, b: Line)
    ensures Feed(s, a + b) == Feed(Feed(s, a), b)
    decreases |a|
  {
    if a == [] {
      assert a + b == b;
    } else {
      assert (a + b)[1..] == a[1..] + b;
      FeedAppend(Put(s, a[0]), a[1..], b);
    }
  }

  /** Text written at the cursor replaces as many cells and leaves the rest. */
  lemma {:induction false} FeedText(s: Screen, text: Line)
    requires s.mode == Ground && AllPrintable(text) && s.col <= |s.line|
    ensures var n := s.col + |text|;
            Feed(s, text) == s.(line := s.line[..s.col] + text + (if n <= |s.line| then s.line[n..] else []), col := n)
    decreases |text|
  {
    if text == [] {
      assert s.line == s.line[..s.col] + s.line[s.col..];
    } else {
      var t := Put(s, text[0]);
      FeedText(t, text[1..]);
      assert t.line[..t.col] + text[1..] == s.line[..s.col] + text;
    }
  }

  lemma {:induction false} FeedDigits(s: Screen, n: nat)
    requires s.mode == Csi(0)
    ensures Feed(s, Decimal(n)) == s.(mode := Csi(n))
  {
    if n >= 10 {
      FeedDigits(s, n / 10);
      FeedAppend(s, Decimal(n / 10), [48 + n % 10]);
    }
  }

  /** The bytes of ESC [ n final, as the code formats them. */
  function Sequence(n: nat, final: Byte): Line {
    [ESC, BRACKET] + Decimal(n) + [final]
  }

  /** The bytes of ESC [ final, with the count left out. */
  function Short(final: Byte): Line {
    [ESC, BRACKET, final]
  }

  lemma FeedSequence(s: Screen, n: nat, final: Byte)
    requires s.mode == Ground && !(48 <= final <= 57)
    ensures Feed(s, Sequence(n, final)) == Control(s, n, final)
  {
    FeedAppend(s, [ESC, BRACKET] + Decimal(n), [final]);
    FeedAppend(s, [ESC, BRACKET], Decimal(n));
    assert [ESC, BRACKET][1..] == [BRACKET];
    assert Feed(s, [ESC, BRACKET]) == Feed(s.(mode := Escape), [BRACKET]);
    assert Feed(s, [ESC, BRACKET]) == s.(mode := Csi(0));
    FeedDigits(s.(mode := Csi(0)), n);
  }

  lemma FeedShort(s: Screen, final: Byte)
    requires s.mode == Ground && !(48 <= final <= 57)
    ensures Feed(s, Short(final)) == Control(s, 0, final)
  {
    assert Short(final)[1..] == [BRACKET, final] && Short(final)[1..][1..] == [final];
    assert Feed(s.(mode := Csi(0)), [final]) == Control(s, 0, final);
  }
}
