/** Splitting a byte stream into trimmed lines, and what the plain reader makes of one
    whose end is reported together with its last bytes. */
module PlainLines {
  import opened Basics
  import opened Bytes

  const NEWLINE: Byte := 10

  /** The first newline from `from` on and before `stop`, or `stop` when there is none. */
  function LineEnd(s: Line, from: nat, stop: nat): (n: nat)
    requires from <= stop <= |s|
    ensures from <= n <= stop && (n < stop ==> s[n] == NEWLINE)
    ensures forall i :: from <= i < n ==> s[i] != NEWLINE
    decreases stop - from
  {
    if from == stop || s[from] == NEWLINE then from else LineEnd(s, from + 1, stop)
  }

  /** Where the newlines are from `from` on and before `stop`. */
  function Newlines(s: Line, from: nat, stop: nat): seq<nat>
    requires from <= stop <= |s|
    decreases stop - from
  {
    if from == stop then []
    else if s[from] == NEWLINE then [from] + Newlines(s, from + 1, stop)
    else Newlines(s, from + 1, stop)
  }

  function Slice(s: Line, i: nat, j: nat): Line {
    if i <= j <= |s| then s[i..j] else []
  }

  /** Bytes taken as one line, if they are not blank. */
  function OneLine(s: Line, trim: Line -> Line): seq<Line> {
    if trim(s) == [] then [] else [trim(s)]
  }

  /** What lies between these places, piece by piece, and the rest after the last one. */
  function Fields<T>(from: nat, ends: seq<nat>, piece: (nat, nat) -> T, rest: nat -> seq<T>): seq<T>
    decreases |ends|
  {
    if ends == [] then rest(from) else [piece(from, ends[0])] + Fields(ends[0] + 1, ends[1..], piece, rest)
  }

  function Piece(s: Line, trim: Line -> Line): (nat, nat) -> Line {
    (i, j) => trim(Slice(s, i, j))
  }

  function Rest(s: Line, trim: Line -> Line): nat -> seq<Line> {
    i => OneLine(Slice(s, i, |s|), trim)
  }

  /** The lines of s from `from` on, ended at these newlines and trimmed; the last one is all
      that is left and counts unless it is blank. */
  function LinesAt(s: Line, from: nat, ends: seq<nat>, trim: Line -> Line): seq<Line> {
    Fields(from, ends, Piece(s, trim), Rest(s, trim))
  }

  /** The lines a stream demands. */
  function Lines(s: Line): seq<Line> {
    LinesAt(s, 0, Newlines(s, 0, |s|), TrimSpace)
  }

  /** What a session answers when the end of the stream s is reported together with the
      bytes from `cut` on: it then takes all that is left for one line. */
  function SessionLines(s: Line, cut: nat): seq<Line>
    requires cut <= |s|
  {
    LinesAt(s, 0, Newlines(s, 0, cut), TrimSpace)
  }

  /** Where the line begins that comes after these newlines. */
  function Unfinished(from: nat, ends: seq<nat>): nat {
    if ends == [] then from else ends[|ends| - 1] + 1
  }

  /** Every newline in between is listed, once and in order, and nothing else is. */
  lemma {:induction false} NewlinesAreAll(s: Line, from: nat, stop: nat)
    requires from <= stop <= |s|
    ensures forall i: nat :: i in Newlines(s, from, stop) <==> from <= i < stop && s[i] == 10
    ensures forall i, j :: 0 <= i < j < |Newlines(s, from, stop)| ==> Newlines(s, from, stop)[i] < Newlines(s, from, stop)[j]
    decreases stop - from
  {
    if from < stop {
      NewlinesAreAll(s, from + 1, stop);
      var rest := Newlines(s, from + 1, stop);
      assert forall j :: 0 <= j < |rest| ==> rest[j] in rest;
    }
  }

  lemma {:induction false} EndsSplit(s: Line, from: nat, cut: nat, stop: nat)
    requires from <= cut <= stop <= |s|
    ensures Newlines(s, from, stop) == Newlines(s, from, cut) + Newlines(s, cut, stop)
    decreases cut - from
  {
    if from < cut {
      EndsSplit(s, from + 1, cut, stop);
    }
  }

  lemma {:induction false} FirstEnd(s: Line, from: nat, stop: nat)
    requires from <= stop <= |s|
    ensures var n := LineEnd(s, from, stop);
            Newlines(s, from, stop) == if n < stop then [n] + Newlines(s, n + 1, stop) else []
    decreases stop - from
  {
    if from < stop && s[from] != NEWLINE {
      FirstEnd(s, from + 1, stop);
    }
  }

  lemma {:induction false} EndsInside(s: Line, from: nat, stop: nat)
    requires from <= stop <= |s|
    ensures forall i :: 0 <= i < |Newlines(s, from, stop)| ==> from <= Newlines(s, from, stop)[i] < stop && s[Newlines(s, from, stop)[i]] == NEWLINE
    decreases stop - from
  {
    if from < stop {
      EndsInside(s, from + 1, stop);
    }
  }

  lemma {:induction false} LineEndUnique(s: Line, from: nat, stop: nat, n: nat)
    requires from <= n <= stop <= |s| && (n < stop ==> s[n] == NEWLINE) && forall i :: from <= i < n ==> s[i] != NEWLINE
    ensures LineEnd(s, from, stop) == n
    decreases n - from
  {
    if from < n {
      LineEndUnique(s, from + 1, stop, n);
    }
  }

  // ----- White space around a newline -----

  /** s is f, a newline and t. */
  ghost predicate Around(s: Line, f: Line, t: Line) {
    && |s| == |f| + 1 + |t| && s[|f|] == NEWLINE
    && (forall i :: 0 <= i < |f| ==> s[i] == f[i])
    && (forall i :: 0 <= i < |t| ==> s[|f| + 1 + i] == t[i])
  }

  lemma {:induction false} LeftEdgeBefore(s: Line, f: Line, t: Line, i: nat)
    requires Around(s, f, t) && i <= |f|
    ensures LeftEdge(s, i) == if LeftEdge(f, i) < |f| then LeftEdge(f, i) else LeftEdge(s, |f|)
    decreases |f| - i
  {
    if i < |f| {
      assert SpaceAt(s, i) == SpaceAt(f, i);
      if SpaceAt(f, i) > 0 {
        LeftEdgeBefore(s, f, t, i + SpaceAt(f, i));
      }
    }
  }

  lemma {:induction false} LeftEdgeAfter(s: Line, f: Line, t: Line, i: nat)
    requires Around(s, f, t) && i <= |t|
    ensures LeftEdge(s, |f| + 1 + i) == |f| + 1 + LeftEdge(t, i)
    decreases |t| - i
  {
    assert SpaceAt(s, |f| + 1 + i) == SpaceAt(t, i);
    if SpaceAt(t, i) > 0 {
      LeftEdgeAfter(s, f, t, i + SpaceAt(t, i));
    }
  }

  /** A space found from the left is found from the right. */
  lemma SpaceFromTheRight(s: Line, lo: nat, i: nat)
    requires lo <= i <= |s| && SpaceAt(s, i) > 0
    ensures SpaceBefore(s, lo, i + SpaceAt(s, i)) == SpaceAt(s, i)
  {
  }

  lemma {:induction false} FirmStays(s: Line, i: nat, j: nat)
    requires i < j <= |s| && SpaceAt(s, i) == 0
    ensures RightEdge(s, i, j) > i
    decreases j
  {
    var k := SpaceBefore(s, i, j);
    if k > 0 {
      assert j - k > i;
      FirmStays(s, i, j - k);
    }
  }

  lemma {:induction false} LeftEdgeIsFirm(s: Line, i: nat)
    requires i <= |s|
    ensures SpaceAt(s, LeftEdge(s, i)) == 0
    decreases |s| - i
  {
    if SpaceAt(s, i) > 0 {
      LeftEdgeIsFirm(s, i + SpaceAt(s, i));
    }
  }

  lemma BlankIff(s: Line)
    ensures TrimSpace(s) == [] <==> LeftEdge(s, 0) == |s|
  {
    LeftEdgeIsFirm(s, 0);
    if LeftEdge(s, 0) < |s| {
      FirmStays(s, LeftEdge(s, 0), |s|);
    }
  }

  /** Blank text after the newline is dropped from the right. */
  lemma {:induction false} DropsBlank(s: Line, f: Line, t: Line, lo: nat, i: nat)
    requires Around(s, f, t) && lo <= |f| && i <= |t| && LeftEdge(t, i) == |t|
    ensures RightEdge(s, lo, |s|) == RightEdge(s, lo, |f| + 1 + i)
    decreases |t| - i
  {
    var k := SpaceAt(t, i);
    if i < |t| {
      assert k > 0;
      DropsBlank(s, f, t, lo, i + k);
      assert SpaceAt(s, |f| + 1 + i) == k;
      SpaceFromTheRight(s, lo, |f| + 1 + i);
    }
  }

  lemma {:induction false} SameRightEdge(s: Line, f: Line, t: Line, lo: nat, j: nat)
    requires Around(s, f, t) && lo <= j <= |f|
    ensures RightEdge(s, lo, j) == RightEdge(f, lo, j)
    decreases j
  {
    assert SpaceBefore(s, lo, j) == SpaceBefore(f, lo, j);
    if SpaceBefore(f, lo, j) > 0 {
      SameRightEdge(s, f, t, lo, j - SpaceBefore(f, lo, j));
    }
  }

  lemma EdgesAround(s: Line, f: Line, t: Line)
    requires Around(s, f, t) && LeftEdge(t, 0) == |t|
    ensures var i := LeftEdge(f, 0);
            if i < |f| then LeftEdge(s, 0) == i && RightEdge(s, i, |s|) == RightEdge(f, i, |f|) else LeftEdge(s, 0) == |s|
  {
    var i := LeftEdge(f, 0);
    LeftEdgeBefore(s, f, t, 0);
    if i < |f| {
      DropsBlank(s, f, t, i, 0);
      SameRightEdge(s, f, t, i, |f|);
    } else {
      LeftEdgeAfter(s, f, t, 0);
    }
  }

  /** A blank rest after a newline changes nothing. */
  lemma TrimAround(s: Line, f: Line, t: Line)
    requires Around(s, f, t) && TrimSpace(t) == []
    ensures TrimSpace(s) == TrimSpace(f)
  {
    BlankIff(t);
    EdgesAround(s, f, t);
    var i := LeftEdge(f, 0);
    if i < |f| {
      SameSlice(s, f, i, RightEdge(f, i, |f|));
    } else {
      BlankIff(s);
      BlankIff(f);
    }
  }

  lemma SameSlice(s: Line, f: Line, i: nat, j: nat)
    requires i <= j <= |f| <= |s| && forall k :: 0 <= k < |f| ==> s[k] == f[k]
    ensures s[i..j] == f[i..j]
  {
  }

  lemma BlankAround(s: Line, f: Line, t: Line)
    requires Around(s, f, t) && TrimSpace(s) == []
    ensures TrimSpace(f) == []
  {
    BlankIff(s);
    BlankIff(f);
    LeftEdgeBefore(s, f, t, 0);
  }

  /** All that is needed of trimming: around a newline, blank text stays blank in its parts
      and a blank end is dropped. */
  ghost predicate Trims(trim: Line -> Line) {
    forall s, f, t :: Around(s, f, t) ==> (trim(s) == [] ==> trim(f) == []) && (trim(t) == [] ==> trim(s) == trim(f))
  }

  lemma TrimSpaceTrims()
    ensures Trims(TrimSpace)
  {
    forall s, f, t | Around(s, f, t) ensures (TrimSpace(s) == [] ==> TrimSpace(f) == []) && (TrimSpace(t) == [] ==> TrimSpace(s) == TrimSpace(f)) {
      if TrimSpace(s) == [] {
        BlankAround(s, f, t);
      }
      if TrimSpace(t) == [] {
        TrimAround(s, f, t);
      }
    }
  }

  // ----- When an end reported together with data does no harm -----

  /** What is left from u on, with its newlines, has none of them, or one, after something
      that is not blank and before something that is. */
  predicate OneCommand(s: Line, u: nat, ends: seq<nat>, trim: Line -> Line) {
    ends == [] || (|ends| == 1 && trim(Slice(s, u, ends[0])) != [] && trim(Slice(s, ends[0] + 1, |s|)) == [])
  }

  lemma WholeOrParts(whole: Line, first: Line, rest: seq<Line>)
    ensures [whole] == [first] + rest <==> whole == first && rest == []
    ensures [] != [first] + rest
  {
    assert |[first] + rest| == 1 + |rest|;
    assert ([first] + rest)[0] == first;
  }

  /** A first line and the rest, joined by the newline between them, are one line. */
  lemma JoinedIsRightIff(whole: Line, first: Line, rest: Line, lines: seq<Line>, trim: Line -> Line)
    requires Trims(trim) && Around(whole, first, rest) && (lines == [] ==> trim(rest) == [])
    ensures OneLine(whole, trim) == [trim(first)] + lines <==> trim(first) != [] && lines == []
  {
    WholeOrParts(trim(whole), trim(first), lines);
  }

  lemma PieceAround(s: Line, u: nat, n: nat)
    requires u <= n < |s| && s[n] == NEWLINE
    ensures Around(Slice(s, u, |s|), Slice(s, u, n), Slice(s, n + 1, |s|))
  {
  }

  lemma NoLinesIff(s: Line, from: nat, ends: seq<nat>, trim: Line -> Line)
    ensures LinesAt(s, from, ends, trim) == [] <==> ends == [] && trim(Slice(s, from, |s|)) == []
  {
  }

  /** All that is left taken for one line is right if and only if it is one command. */
  lemma LastLineIsRightIff(s: Line, u: nat, ends: seq<nat>, trim: Line -> Line)
    requires Trims(trim) && (ends != [] ==> u <= ends[0] < |s| && s[ends[0]] == NEWLINE)
    ensures LinesAt(s, u, [], trim) == LinesAt(s, u, ends, trim) <==> OneCommand(s, u, ends, trim)
  {
    if ends != [] {
      var n := ends[0];
      PieceAround(s, u, n);
      NoLinesIff(s, n + 1, ends[1..], trim);
      JoinedIsRightIff(Slice(s, u, |s|), Slice(s, u, n), Slice(s, n + 1, |s|), LinesAt(s, n + 1, ends[1..], trim), trim);
    }
  }

  lemma SameTail<T>(x: T, a: seq<T>, b: seq<T>)
    ensures [x] + a == [x] + b <==> a == b
  {
    assert ([x] + a)[1..] == a && ([x] + b)[1..] == b;
  }

  /** Lines that end before the division are the same on either side of it. */
  lemma {:induction false} SameUpTo<T>(from: nat, ends: seq<nat>, more: seq<nat>, piece: (nat, nat) -> T, rest: nat -> seq<T>)
    ensures var u := Unfinished(from, ends);
            Fields(from, ends, piece, rest) == Fields(from, ends + more, piece, rest) <==> Fields(u, [], piece, rest) == Fields(u, more, piece, rest)
    decreases |ends|
  {
    if ends == [] {
      assert ends + more == more;
    } else {
      var n, tail := ends[0], ends[1..];
      assert (ends + more)[1..] == tail + more;
      SameTail(piece(from, n), Fields(n + 1, tail, piece, rest), Fields(n + 1, tail + more, piece, rest));
      SameUpTo(n + 1, tail, more, piece, rest);
    }
  }

  /** A session answers the lines of the stream if and only if what is left when the end is
      reported, the unfinished line and the bytes that came with the end, is one command. */
  lemma SessionIsRightIff(s: Line, cut: nat)
    requires cut <= |s|
    ensures SessionLines(s, cut) == Lines(s) <==> OneCommand(s, Unfinished(0, Newlines(s, 0, cut)), Newlines(s, cut, |s|), TrimSpace)
  {
    var ends, more := Newlines(s, 0, cut), Newlines(s, cut, |s|);
    EndsSplit(s, 0, cut, |s|);
    EndsInside(s, 0, cut);
    EndsInside(s, cut, |s|);
    TrimSpaceTrims();
    SameUpTo(0, ends, more, Piece(s, TrimSpace), Rest(s, TrimSpace));
    LastLineIsRightIff(s, Unfinished(0, ends), more, TrimSpace);
  }

  /** Two commands whose last bytes come with the end of the stream are run as one. */
  lemma JoinedCommands(s: Line)
    requires s == [97, NEWLINE, 98]
    ensures SessionLines(s, 0) != Lines(s)
  {
    var tail := Slice(s, 2, |s|);
    assert tail == [98] && SpaceAt(tail, 0) == 0;
    BlankIff(tail);
    assert Newlines(s, 2, 3) == [] && Newlines(s, 1, 3) == [1] && Newlines(s, 0, 3) == [1];
    SessionIsRightIff(s, 0);
  }

  // ----- Dropping what was answered -----

  /** t is s from k on. */
  ghost predicate TailAt(s: Line, t: Line, k: nat) {
    |t| + k == |s| && forall i :: 0 <= i < |t| ==> t[i] == s[i + k]
  }

  lemma {:induction false} LineEndShift(s: Line, t: Line, k: nat, from: nat, stop: nat)
    requires TailAt(s, t, k) && from <= stop <= |t|
    ensures LineEnd(t, from, stop) + k == LineEnd(s, from + k, stop + k)
    decreases |t| - from
  {
    if from < stop && t[from] != NEWLINE {
      LineEndShift(s, t, k, from + 1, stop);
    }
  }

  /** Positions moved k on. */
  ghost predicate Moved(ends: seq<nat>, after: seq<nat>, k: nat) {
    |ends| == |after| && forall i :: 0 <= i < |ends| ==> after[i] == ends[i] + k
  }

  lemma MovedCons(x: nat, ends: seq<nat>, after: seq<nat>, k: nat)
    requires Moved(ends, after, k)
    ensures Moved([x] + ends, [x + k] + after, k)
  {
  }

  lemma {:induction false} EndsShift(s: Line, t: Line, k: nat, from: nat, stop: nat)
    requires TailAt(s, t, k) && from <= stop <= |t|
    ensures Moved(Newlines(t, from, stop), Newlines(s, from + k, stop + k), k)
    decreases stop - from
  {
    if from < stop {
      EndsShift(s, t, k, from + 1, stop);
      MovedCons(from, Newlines(t, from + 1, stop), Newlines(s, from + 1 + k, stop + k), k);
    }
  }

  lemma SliceShift(s: Line, t: Line, k: nat, i: nat, j: nat)
    requires TailAt(s, t, k)
    ensures Slice(t, i, j) == Slice(s, i + k, j + k)
  {
  }

  lemma {:induction false} FieldsShift<T>(k: nat, from: nat, ends: seq<nat>, after: seq<nat>, piece: (nat, nat) -> T, rest: nat -> seq<T>, piece': (nat, nat) -> T, rest': nat -> seq<T>)
    requires Moved(ends, after, k)
    requires forall i: nat, j: nat :: piece(i, j) == piece'(i + k, j + k)
    requires forall i: nat :: rest(i) == rest'(i + k)
    ensures Fields(from, ends, piece, rest) == Fields(from + k, after, piece', rest')
    decreases |ends|
  {
    if ends != [] {
      FieldsShift(k, ends[0] + 1, ends[1..], after[1..], piece, rest, piece', rest');
    }
  }

  lemma LinesShift(s: Line, t: Line, k: nat, ends: seq<nat>, after: seq<nat>, trim: Line -> Line)
    requires TailAt(s, t, k) && Moved(ends, after, k)
    ensures LinesAt(t, 0, ends, trim) == LinesAt(s, k, after, trim)
  {
    forall i: nat, j: nat ensures Piece(t, trim)(i, j) == Piece(s, trim)(i + k, j + k) {
      SliceShift(s, t, k, i, j);
    }
    forall i: nat ensures Rest(t, trim)(i) == Rest(s, trim)(i + k) {
      SliceShift(s, t, k, i, |t|);
    }
    FieldsShift(k, 0, ends, after, Piece(t, trim), Rest(t, trim), Piece(s, trim), Rest(s, trim));
  }

  predicate NoNewline(s: Line, i: nat, j: nat)
    requires j <= |s|
  {
    forall m :: i <= m < j ==> s[m] != NEWLINE
  }

  /** No line of the stream is longer than the limit. */
  ghost predicate NoLongLine(s: Line, limit: nat) {
    forall i: nat, j: nat :: i <= j <= |s| && NoNewline(s, i, j) ==> j - i <= limit
  }

  lemma FirstFits(d: Line, limit: nat)
    requires NoLongLine(d, limit)
    ensures LineEnd(d, 0, |d|) <= limit
  {
    assert NoNewline(d, 0, LineEnd(d, 0, |d|));
  }

  lemma RestFits(d: Line, t: Line, k: nat, limit: nat)
    requires NoLongLine(d, limit) && TailAt(d, t, k)
    ensures NoLongLine(t, limit)
  {
    forall i: nat, j: nat | i <= j <= |t| && NoNewline(t, i, j) ensures j - i <= limit {
      forall m | i + k <= m < j + k ensures d[m] != NEWLINE {
        assert t[m - k] == d[m];
      }
      assert NoNewline(d, i + k, j + k);
    }
  }

  lemma FirstField<T>(from: nat, n: nat, ends: seq<nat>, piece: (nat, nat) -> T, rest: nat -> seq<T>)
    ensures Fields(from, [n] + ends, piece, rest) == [piece(from, n)] + Fields(n + 1, ends, piece, rest)
  {
    assert ([n] + ends)[1..] == ends;
  }

  lemma LinesAfterFirst(s: Line, t: Line, cut: nat, n: nat, trim: Line -> Line)
    requires cut <= |s| && n == LineEnd(s, 0, cut) < cut && TailAt(s, t, n + 1)
    ensures LinesAt(s, 0, Newlines(s, 0, cut), trim) == [trim(Slice(s, 0, n))] + LinesAt(t, 0, Newlines(t, 0, cut - n - 1), trim)
  {
    var rest := Newlines(s, n + 1, cut);
    FirstEnd(s, 0, cut);
    EndsShift(s, t, n + 1, 0, cut - n - 1);
    FirstField(0, n, rest, Piece(s, trim), Rest(s, trim));
    LinesShift(s, t, n + 1, Newlines(t, 0, cut - n - 1), rest, trim);
  }

  /** Once the first line is answered, the rest is a session of its own. */
  lemma FirstAnswered(s: Line, t: Line, cut: nat, n: nat)
    requires cut <= |s| && n == LineEnd(s, 0, cut) < cut && TailAt(s, t, n + 1)
    ensures SessionLines(s, cut) == [TrimSpace(Slice(s, 0, n))] + SessionLines(t, cut - n - 1)
  {
    LinesAfterFirst(s, t, cut, n, TrimSpace);
  }

  /** With no newline before the end is reported, what is left is one line. */
  lemma LastAnswered(s: Line, cut: nat)
    requires cut <= |s| && LineEnd(s, 0, cut) == cut
    ensures SessionLines(s, cut) == OneLine(s, TrimSpace)
  {
    FirstEnd(s, 0, cut);
    assert Slice(s, 0, |s|) == s;
  }
}
