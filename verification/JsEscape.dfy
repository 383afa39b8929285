/** Text embedded in a page as a JavaScript string literal. */
module JsEscape {
  import opened Basics

  type Text = seq<Byte>

  const BACKSLASH: Byte := 0x5C
  const QUOTE: Byte := 0x22
  const LF: Byte := 0x0A
  const CR: Byte := 0x0D
  const TAB: Byte := 0x09
  const LESS: Byte := 0x3C
  const SLASH: Byte := 0x2F

  const COMMENT: Text := [0x21, 0x2D, 0x2D]
  const U2028: Text := [0x75, 0x32, 0x30, 0x32, 0x38]
  const U2029: Text := [0x75, 0x32, 0x30, 0x32, 0x39]

  predicate StartsWith(s: Text, p: Text) {
    |p| <= |s| && forall i :: 0 <= i < |p| ==> s[i] == p[i]
  }

  /** `</` at the start. */
  predicate ClosesTag(s: Text) {
    |s| >= 2 && s[0] == LESS && s[1] == SLASH
  }

  /** `<!--` at the start. */
  predicate OpensComment(s: Text) {
    |s| >= 4 && s[0] == LESS && s[1] == 0x21 && s[2] == 0x2D && s[3] == 0x2D
  }

  /** U+2028 or U+2029 in UTF-8 at the start. */
  predicate BreaksLine(s: Text) {
    |s| >= 3 && s[0] == 0xE2 && s[1] == 0x80 && (s[2] == 0xA8 || s[2] == 0xA9)
  }

  // ----- Escaping -----

  /** How many bytes are taken at once, and what is written for them. */
  datatype Piece = Piece(taken: nat, written: Text)

  function Next(s: Text): (p: Piece)
    requires s != []
    ensures 1 <= p.taken <= |s| && p.written != []
  {
    var c := s[0];
    if c == BACKSLASH then Piece(1, [BACKSLASH, BACKSLASH])
    else if c == QUOTE then Piece(1, [BACKSLASH, QUOTE])
    else if c == LF then Piece(1, [BACKSLASH, 0x6E])
    else if c == CR then Piece(1, [BACKSLASH, 0x72])
    else if c == TAB then Piece(1, [BACKSLASH, 0x74])
    else if ClosesTag(s) then Piece(2, [LESS, BACKSLASH, SLASH])
    else if OpensComment(s) then Piece(4, [LESS, BACKSLASH] + COMMENT)
    else if BreaksLine(s) then Piece(3, [BACKSLASH] + if s[2] == 0xA8 then U2028 else U2029)
    else Piece(1, [c])
  }

  function Escape(s: Text): Text
    decreases |s|
  {
    if s == [] then [] else Next(s).written + Escape(s[Next(s).taken..])
  }

  method EscapeJSString(s: Text) returns (b: Text)
    ensures b == Escape(s)
  {
    b := [];
    var i := 0;
    assert s[0..] == s && Emitted(s, b, i);
    while i < |s|
      invariant 0 <= i <= |s| && Emitted(s, b, i)
    {
      var written, skipped := Switch(s, i);
      EmitPiece(s, b, i, Piece(skipped + 1, written));
      b := b + written;
      i := i + skipped;
      i := i + 1;
    }
    AllEmitted(s, b);
  }

  /** b is what the first i bytes of s became. */
  ghost predicate Emitted(s: Text, b: Text, i: nat) {
    i <= |s| && Escape(s) == b + Escape(s[i..])
  }

  lemma AllEmitted(s: Text, b: Text)
    requires Emitted(s, b, |s|)
    ensures b == Escape(s)
  {
    assert b + [] == b;
  }

  lemma EmitPiece(s: Text, b: Text, i: nat, p: Piece)
    requires i < |s| && Emitted(s, b, i) && Next(s[i..]) == p
    ensures i + p.taken <= |s| && Emitted(s, b + p.written, i + p.taken)
  {
    var rest := Escape(s[i + p.taken..]);
    assert s[i..][p.taken..] == s[i + p.taken..];
    Regroup(b, p.written, rest);
  }

  lemma Regroup(a: Text, b: Text, c: Text)
    ensures a + (b + c) == a + b + c
  {
  }

  /** The switch on one byte: what it appends and how many more bytes it skips. */
  method Switch(s: Text, i: nat) returns (written: Text, skipped: nat)
    requires i < |s|
    ensures Next(s[i..]) == Piece(skipped + 1, written)
  {
    var c := s[i];
    written, skipped := [c], 0;
    if c == BACKSLASH {
      written := [BACKSLASH, BACKSLASH];
    } else if c == QUOTE {
      written := [BACKSLASH, QUOTE];
    } else if c == LF {
      written := [BACKSLASH, 0x6E];
    } else if c == CR {
      written := [BACKSLASH, 0x72];
    } else if c == TAB {
      written := [BACKSLASH, 0x74];
    } else if c == LESS {
      var rest := s[i + 1..];
      if StartsWith(rest, [SLASH]) {
        written, skipped := [LESS, BACKSLASH, SLASH], 1;
      } else if StartsWith(rest, COMMENT) {
        written, skipped := [LESS, BACKSLASH] + COMMENT, 3;
      }
    } else if c == 0xE2 {
      if i + 2 < |s| && s[i + 1] == 0x80 && (s[i + 2] == 0xA8 || s[i + 2] == 0xA9) {
        written, skipped := [BACKSLASH] + (if s[i + 2] == 0xA8 then U2028 else U2029), 2;
      }
    }
  }

  // ----- Reading a literal back -----

  /** The value of the characters between double quotes, by section 12.9.4 of ECMA-262,
      with the value given in UTF-8. Octal, hexadecimal and braced escapes, surrogates and
      line continuations do not occur here and are reported as malformed. */
  datatype Reading = Value(text: Text) | Malformed

  function Prepend(t: Text, r: Reading): Reading {
    match r case Malformed => r case Value(text) => Value(t + text)
  }

  predicate IsHex(b: Byte) {
    0x30 <= b <= 0x39 || 0x41 <= b <= 0x46 || 0x61 <= b <= 0x66
  }

  function HexValue(b: Byte): (n: nat)
    requires IsHex(b)
    ensures n < 16
  {
    if b <= 0x39 then b - 0x30 else if b <= 0x46 then b - 0x37 else b - 0x57
  }

  function Utf8(n: nat): Text
    requires n < 0x10000
  {
    if n < 0x80 then [n]
    else if n < 0x800 then [0xC0 + n / 64, 0x80 + n % 64]
    else [0xE0 + n / 4096, 0x80 + n / 64 % 64, 0x80 + n % 64]
  }

  /** The value of a single escape character, or of a character that escapes to itself. */
  function Unescaped(b: Byte): Byte {
    if b == 0x62 then 0x08
    else if b == 0x74 then TAB
    else if b == 0x6E then LF
    else if b == 0x76 then 0x0B
    else if b == 0x66 then 0x0C
    else if b == 0x72 then CR
    else b
  }

  predicate NotAlone(b: Byte) {
    0x30 <= b <= 0x39 || b == 0x78 || b == 0x75 || b == LF || b == CR || b >= 0x80
  }

  function Read(s: Text): Reading
    decreases |s|
  {
    if s == [] then Value([])
    else if s[0] == QUOTE || s[0] == LF || s[0] == CR then Malformed
    else if s[0] != BACKSLASH then Prepend([s[0]], Read(s[1..]))
    else if |s| == 1 then Malformed
    else if s[1] == 0x75 then
      if |s| < 6 || !IsHex(s[2]) || !IsHex(s[3]) || !IsHex(s[4]) || !IsHex(s[5]) then Malformed
      else
        var n := ((HexValue(s[2]) * 16 + HexValue(s[3])) * 16 + HexValue(s[4])) * 16 + HexValue(s[5]);
        if 0xD800 <= n < 0xE000 then Malformed else Prepend(Utf8(n), Read(s[6..]))
    else if NotAlone(s[1]) then Malformed
    else Prepend([Unescaped(s[1])], Read(s[2..]))
  }

  lemma ReadRaw(c: Byte, t: Text)
    requires c != QUOTE && c != LF && c != CR && c != BACKSLASH
    ensures Read([c] + t) == Prepend([c], Read(t))
  {
    assert ([c] + t)[1..] == t;
  }

  lemma ReadEscaped(c: Byte, t: Text)
    requires !NotAlone(c)
    ensures Read([BACKSLASH, c] + t) == Prepend([Unescaped(c)], Read(t))
  {
    assert ([BACKSLASH, c] + t)[2..] == t;
  }

  lemma ReadSeparator(last: Byte, t: Text)
    requires last == 0x38 || last == 0x39
    ensures Read([BACKSLASH, 0x75, 0x32, 0x30, 0x32, last] + t) == Prepend([0xE2, 0x80, 0xA8 + (last - 0x38)], Read(t))
  {
    var s := [BACKSLASH, 0x75, 0x32, 0x30, 0x32, last] + t;
    assert s[6..] == t;
    var n := 0x2028 + (last - 0x38);
    assert Utf8(n) == [0xE2, 0x80, 0xA8 + (last - 0x38)];
  }

  lemma PrependTwice(a: Text, b: Text, r: Reading)
    ensures Prepend(a, Prepend(b, r)) == Prepend(a + b, r)
  {
    if r.Value? {
      assert a + (b + r.text) == a + b + r.text;
    }
  }

  /** The ways something other than a raw byte is written. */
  datatype Spelling = Single(c: Byte) | ClosingTag | OpenComment | Separator(last: Byte)

  predicate Legal(sp: Spelling) {
    match sp case Single(c) => !NotAlone(c) case Separator(last) => last == 0x38 || last == 0x39 case _ => true
  }

  function Spelled(sp: Spelling): Text {
    match sp
    case Single(c) => [BACKSLASH, c]
    case ClosingTag => [LESS, BACKSLASH, SLASH]
    case OpenComment => [LESS, BACKSLASH] + COMMENT
    case Separator(last) => [BACKSLASH, 0x75, 0x32, 0x30, 0x32, last]
  }

  function Meant(sp: Spelling): Text
    requires Legal(sp)
  {
    match sp
    case Single(c) => [Unescaped(c)]
    case ClosingTag => [LESS, SLASH]
    case OpenComment => [LESS] + COMMENT
    case Separator(last) => [0xE2, 0x80, 0xA8 + (last - 0x38)]
  }

  lemma PieceSpells(s: Text) returns (sp: Spelling)
    requires s != [] && Next(s).written != [s[0]]
    ensures Legal(sp) && Next(s).written == Spelled(sp) && s[..Next(s).taken] == Meant(sp)
  {
    assert s == [s[0]] + s[1..];
    var w := Next(s).written;
    sp := if |w| == 2 then Single(w[1]) else if |w| == 3 then ClosingTag else if |w| == 5 then OpenComment else Separator(w[5]);
  }

  lemma ReadSpelling(sp: Spelling, t: Text)
    requires Legal(sp)
    ensures Read(Spelled(sp) + t) == Prepend(Meant(sp), Read(t))
  {
    match sp
    case Single(c) => ReadEscaped(c, t);
    case ClosingTag => ReadSlash(t);
    case OpenComment => ReadComment(t);
    case Separator(last) => ReadSeparator(last, t);
  }

  /** Reading what was written for one piece gives back the bytes it was taken from. */
  lemma ReadPiece(s: Text, t: Text)
    requires s != []
    ensures Read(Next(s).written + t) == Prepend(s[..Next(s).taken], Read(t))
  {
    if Next(s).written == [s[0]] {
      assert s[..1] == [s[0]];
      ReadRaw(s[0], t);
    } else {
      var sp := PieceSpells(s);
      ReadSpelling(sp, t);
    }
  }

  lemma ReadSlash(t: Text)
    ensures Read([LESS, BACKSLASH, SLASH] + t) == Prepend([LESS, SLASH], Read(t))
  {
    assert [LESS, BACKSLASH, SLASH] + t == [LESS] + ([BACKSLASH, SLASH] + t);
    ReadRaw(LESS, [BACKSLASH, SLASH] + t);
    ReadEscaped(SLASH, t);
    PrependTwice([LESS], [SLASH], Read(t));
  }

  lemma ReadDashes(t: Text)
    ensures Read([0x2D, 0x2D] + t) == Prepend([0x2D, 0x2D], Read(t))
  {
    assert [0x2D, 0x2D] + t == [0x2D] + ([0x2D] + t);
    ReadRaw(0x2D, [0x2D] + t);
    ReadRaw(0x2D, t);
    PrependTwice([0x2D], [0x2D], Read(t));
  }

  lemma ReadComment(t: Text)
    ensures Read([LESS, BACKSLASH] + COMMENT + t) == Prepend([LESS] + COMMENT, Read(t))
  {
    var t2 := [0x2D, 0x2D] + t;
    assert [LESS, BACKSLASH] + COMMENT + t == [LESS] + ([BACKSLASH, 0x21] + t2);
    ReadRaw(LESS, [BACKSLASH, 0x21] + t2);
    ReadEscaped(0x21, t2);
    ReadDashes(t);
    PrependTwice([0x21], [0x2D, 0x2D], Read(t));
    PrependTwice([LESS], COMMENT, Read(t));
    assert [0x21] + [0x2D, 0x2D] == COMMENT;
  }

  /** Escaping takes some bytes off the front and writes something that reads as them. */
  lemma EscapeFront(s: Text) returns (w: Text, n: nat)
    requires s != []
    ensures 0 < n <= |s| && Escape(s) == w + Escape(s[n..])
    ensures Read(w + Escape(s[n..])) == Prepend(s[..n], Read(Escape(s[n..])))
  {
    w, n := Next(s).written, Next(s).taken;
    ReadPiece(s, Escape(s[n..]));
  }

  /** Every byte string survives being escaped and read as a string literal. */
  lemma {:induction false} EscapedReadsBack(s: Text)
    ensures Read(Escape(s)) == Value(s)
    decreases |s|
  {
    if s != [] {
      var w, n := EscapeFront(s);
      EscapedReadsBack(s[n..]);
      assert s[..n] + s[n..] == s;
    }
  }

  // ----- What never appears -----

  /** What may not stand in the page from here on: a closing tag, a comment, a line break
      or a raw separator. */
  predicate Dangerous(t: Text) {
    ClosesTag(t) || OpensComment(t) || BreaksLine(t) || (t != [] && (t[0] == LF || t[0] == CR))
  }

  predicate Guarded(o: Text, first: Byte) {
    o != [] && (o[0] == BACKSLASH || (o[0] == first && |o| > 1 && o[1] == BACKSLASH))
  }

  lemma GuardedPrefix(o: Text, first: Byte, k: nat)
    requires Guarded(o, first) && 0 < k <= |o| && BACKSLASH !in o[..k]
    ensures k == 1 && o[..k] == [first]
  {
    assert forall i :: 0 <= i < k ==> o[..k][i] == o[i];
  }

  lemma ConsPrefix(first: Byte, o: Text, k: nat)
    requires 0 < k <= |o| + 1
    ensures ([first] + o)[..k] == [first] + o[..k - 1]
  {
  }

  /** The output starts with the first byte as it was, or has a backslash among its
      first two bytes. */
  lemma EscapeHead(s: Text) returns (raw: bool)
    requires s != []
    ensures raw ==> Escape(s) == [s[0]] + Escape(s[1..])
    ensures !raw ==> Guarded(Escape(s), s[0])
  {
    var w := Next(s).written;
    raw := w == [s[0]];
    if !raw {
      assert Escape(s)[0] == w[0] && Escape(s)[1] == w[1];
    }
  }

  /** Until the first backslash the output is the input. */
  lemma {:induction false} RawPrefix(s: Text, k: nat)
    requires k <= |Escape(s)| && BACKSLASH !in Escape(s)[..k]
    ensures k <= |s| && s[..k] == Escape(s)[..k]
    decreases |s|
  {
    if s != [] && k > 0 {
      var raw := EscapeHead(s);
      if raw {
        ConsPrefix(s[0], Escape(s[1..]), k);
        RawPrefix(s[1..], k - 1);
        ConsPrefix(s[0], s[1..], k);
        assert s == [s[0]] + s[1..];
      } else {
        GuardedPrefix(Escape(s), s[0], k);
      }
    }
  }

  lemma RawPrefixIs(s: Text, k: nat)
    requires k <= |Escape(s)| && forall i :: 0 <= i < k ==> Escape(s)[i] != BACKSLASH
    ensures k <= |s| && forall i :: 0 <= i < k ==> s[i] == Escape(s)[i]
  {
    var o := Escape(s);
    assert BACKSLASH !in o[..k];
    RawPrefix(s, k);
    assert forall i :: 0 <= i < k ==> s[i] == s[..k][i] && o[..k][i] == o[i];
  }

  /** A position inside what one piece wrote, with anything after it. */
  lemma PieceIsSafe(s: Text, t: Text, i: nat)
    requires s != [] && i < |Next(s).written| && Next(s).written != [s[0]]
    ensures !Dangerous((Next(s).written + t)[i..])
  {
    var sp := PieceSpells(s);
    SpelledBytes(s, sp, i);
    HarmlessStart(Spelled(sp), t, i);
  }

  lemma HarmlessStart(w: Text, t: Text, i: nat)
    requires i < |w| && (Harmless(w[i]) || (w[i] == LESS && i + 1 < |w| && w[i + 1] == BACKSLASH))
    ensures !Dangerous((w + t)[i..])
  {
    var o := (w + t)[i..];
    assert o[0] == w[i];
    assert i + 1 < |w| ==> o[1] == w[i + 1];
  }

  predicate Harmless(b: Byte) {
    b != LESS && b != LF && b != CR && b != 0xE2
  }

  lemma SpelledBytes(s: Text, sp: Spelling, i: nat)
    requires s != [] && Next(s).written == Spelled(sp) && i < |Spelled(sp)| && Next(s).written != [s[0]]
    ensures var w := Spelled(sp); Harmless(w[i]) || (w[i] == LESS && i + 1 < |w| && w[i + 1] == BACKSLASH)
  {
  }

  lemma HeadIsSafe(s: Text)
    requires s != []
    ensures !Dangerous(Escape(s))
  {
    var o := Escape(s);
    if Next(s).written != [s[0]] {
      PieceIsSafe(s, Escape(s[Next(s).taken..]), 0);
      assert o[0..] == o;
    } else {
      RawIsSafe(s);
    }
  }

  lemma RawIsSafe(s: Text)
    requires s != [] && !Dangerous(s)
    ensures !Dangerous(Escape(s))
  {
    var o := Escape(s);
    if Dangerous(o) {
      RawPrefixIs(s, if ClosesTag(o) then 2 else if OpensComment(o) then 4 else if BreaksLine(o) then 3 else 1);
    }
  }

  /** Nowhere in the output does a dangerous sequence begin. */
  lemma {:induction false} EscapedIsSafe(s: Text, i: nat)
    requires i < |Escape(s)|
    ensures !Dangerous(Escape(s)[i..])
    decreases |s|
  {
    var w, rest := Next(s).written, s[Next(s).taken..];
    var o := Escape(s);
    if i >= |w| {
      assert o[i..] == Escape(rest)[i - |w|..];
      EscapedIsSafe(rest, i - |w|);
    } else if w != [s[0]] {
      PieceIsSafe(s, Escape(rest), i);
    } else {
      HeadIsSafe(s);
      assert o[0..] == o;
    }
  }
}
