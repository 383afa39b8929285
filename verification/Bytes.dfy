/** Byte strings and the trimming Go applies to them. */
module Bytes {
  import opened Basics

  type Line = seq<Byte>

  predicate Printable(b: Byte) {
    32 <= b < 127
  }

  predicate AllPrintable(s: Line) {
    forall i :: 0 <= i < |s| ==> Printable(s[i])
  }

  /** The three-byte Unicode spaces: U+1680, U+2000 to U+200A, U+2028, U+2029,
      U+202F, U+205F and U+3000. */
  predicate WideSpace(a: Byte, b: Byte, c: Byte) {
    || (a == 0xE1 && b == 0x9A && c == 0x80)
    || (a == 0xE2 && b == 0x80 && (0x80 <= c <= 0x8A || c == 0xA8 || c == 0xA9 || c == 0xAF))
    || (a == 0xE2 && b == 0x81 && c == 0x9F)
    || (a == 0xE3 && b == 0x80 && c == 0x80)
  }

  predicate AsciiSpace(b: Byte) {
    9 <= b <= 13 || b == 32
  }

  /** The two-byte Unicode spaces, U+0085 and U+00A0. */
  predicate NarrowSpace(a: Byte, b: Byte) {
    a == 0xC2 && (b == 0x85 || b == 0xA0)
  }

  /** The length of the space at position i: ASCII white space or the UTF-8 form of a
      wider Unicode space, or 0. */
  function SpaceAt(s: Line, i: nat): (k: nat)
    requires i <= |s|
    ensures i + k <= |s|
  {
    if i + 1 <= |s| && AsciiSpace(s[i]) then 1
    else if i + 2 <= |s| && NarrowSpace(s[i], s[i + 1]) then 2
    else if i + 3 <= |s| && WideSpace(s[i], s[i + 1], s[i + 2]) then 3
    else 0
  }

  /** The length of the space that ends at position j, from lo on. */
  function SpaceBefore(s: Line, lo: nat, j: nat): (k: nat)
    requires lo <= j <= |s|
    ensures lo + k <= j
  {
    if lo + 1 <= j && AsciiSpace(s[j - 1]) then 1
    else if lo + 2 <= j && NarrowSpace(s[j - 2], s[j - 1]) then 2
    else if lo + 3 <= j && WideSpace(s[j - 3], s[j - 2], s[j - 1]) then 3
    else 0
  }

  /** Where the text begins that stands at i, its spaces skipped. */
  function LeftEdge(s: Line, i: nat): (r: nat)
    requires i <= |s|
    ensures i <= r <= |s|
    decreases |s| - i
  {
    if SpaceAt(s, i) == 0 then i else LeftEdge(s, i + SpaceAt(s, i))
  }

  /** Where the text ends that stands between lo and j. */
  function RightEdge(s: Line, lo: nat, j: nat): (r: nat)
    requires lo <= j <= |s|
    ensures lo <= r <= j
    decreases j
  {
    if SpaceBefore(s, lo, j) == 0 then j else RightEdge(s, lo, j - SpaceBefore(s, lo, j))
  }

  /** Drops white space at both ends, first on the left. What is left is a slice. */
  function TrimSpace(s: Line): (r: Line)
    ensures |r| <= |s|
    ensures AllPrintable(s) ==> AllPrintable(r)
  {
    s[LeftEdge(s, 0)..RightEdge(s, LeftEdge(s, 0), |s|)]
  }

  /** The bytes from lo to hi are spaces, one after the other. */
  predicate Spaces(s: Line, lo: nat, hi: nat)
    requires lo <= hi <= |s|
    decreases hi - lo
  {
    lo == hi || (SpaceAt(s, lo) > 0 && lo + SpaceAt(s, lo) <= hi && Spaces(s, lo + SpaceAt(s, lo), hi))
  }

  lemma {:induction false} SkippedOnTheLeft(s: Line, i: nat)
    requires i <= |s|
    ensures Spaces(s, i, LeftEdge(s, i)) && SpaceAt(s, LeftEdge(s, i)) == 0
    decreases |s| - i
  {
    if SpaceAt(s, i) > 0 {
      SkippedOnTheLeft(s, i + SpaceAt(s, i));
    }
  }

  lemma {:induction false} SkippedOnTheRight(s: Line, lo: nat, j: nat)
    requires lo <= j <= |s| && Spaces(s, j, |s|)
    ensures Spaces(s, RightEdge(s, lo, j), |s|) && SpaceBefore(s, lo, RightEdge(s, lo, j)) == 0
    decreases j
  {
    var k := SpaceBefore(s, lo, j);
    if k > 0 {
      assert SpaceAt(s, j - k) == k;
      SkippedOnTheRight(s, lo, j - k);
    }
  }

  /** Trimming drops spaces at the ends and nothing else: what is left has none at either. */
  lemma TrimmedIsMiddle(s: Line) returns (i: nat, j: nat)
    ensures i <= j <= |s| && TrimSpace(s) == s[i..j] && Spaces(s, 0, i) && Spaces(s, j, |s|)
    ensures SpaceAt(s, i) == 0 && SpaceBefore(s, i, j) == 0
  {
    i, j := LeftEdge(s, 0), RightEdge(s, LeftEdge(s, 0), |s|);
    SkippedOnTheLeft(s, 0);
    SkippedOnTheRight(s, i, |s|);
  }

  /** n in decimal, as the %d verb prints it. */
  function Decimal(n: nat): (r: Line)
    ensures |r| >= 1 && forall i :: 0 <= i < |r| ==> 48 <= r[i] <= 57
  {
    if n < 10 then [48 + n] else Decimal(n / 10) + [48 + n % 10]
  }
}
