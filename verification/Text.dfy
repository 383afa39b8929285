/** Strings of Unicode characters and the library operations the gateway uses on them. */
module Text {

  predicate IsSpace(c: char) {
    || c == ' ' || '\t' <= c <= '\r' || c == '\U{0085}' || c == '\U{00A0}'
    || c == '\U{1680}' || '\U{2000}' <= c <= '\U{200A}' || c == '\U{2028}' || c == '\U{2029}'
    || c == '\U{202F}' || c == '\U{205F}' || c == '\U{3000}'
  }

  /** Drops white space at both ends; what is left is a slice. */
  function TrimSpace(s: string): (r: string)
    ensures |r| <= |s| && forall c :: c in r ==> c in s
    ensures r != [] ==> !IsSpace(r[0]) && !IsSpace(r[|r| - 1])
    decreases |s|, 1
  {
    if s == [] then s else TrimEnds(s)
  }

  function TrimEnds(s: string): (r: string)
    requires s != []
    ensures |r| <= |s| && forall c :: c in r ==> c in s
    ensures r != [] ==> !IsSpace(r[0]) && !IsSpace(r[|r| - 1])
    decreases |s|, 0
  {
    if IsSpace(s[0]) then TrimSpace(s[1..])
    else if IsSpace(s[|s| - 1]) then TrimSpace(s[..|s| - 1])
    else s
  }

  predicate HasPrefix(s: string, p: string) {
    |p| <= |s| && s[..|p|] == p
  }

  predicate HasSuffix(s: string, p: string) {
    |p| <= |s| && s[|s| - |p|..] == p
  }

  /** The first index of c, or the length. */
  function IndexOf(s: string, c: char): (n: nat)
    ensures n <= |s| && (n < |s| <==> c in s) && (n < |s| ==> s[n] == c)
    ensures forall i :: 0 <= i < n ==> s[i] != c
  {
    if s == [] || s[0] == c then 0 else 1 + IndexOf(s[1..], c)
  }

  lemma {:induction false} IndexOfUnique(s: string, c: char, n: nat)
    requires n <= |s| && (n < |s| ==> s[n] == c) && forall i :: 0 <= i < n ==> s[i] != c
    ensures IndexOf(s, c) == n
  {
    if s != [] && n > 0 {
      assert forall i :: 0 <= i < n - 1 ==> s[1..][i] == s[i + 1];
      IndexOfUnique(s[1..], c, n - 1);
    }
  }

  /** A string cut around the first occurrence of a separator. */
  datatype Cut = Cut(before: string, after: string, found: bool)

  function CutAt(s: string, c: char): (r: Cut)
    ensures r.found <==> c in s
    ensures r.found ==> s == r.before + [c] + r.after && c !in r.before
    ensures !r.found ==> r.before == s && r.after == ""
  {
    var n := IndexOf(s, c);
    if n < |s| then Cut(s[..n], s[n + 1..], true) else Cut(s, "", false)
  }

  lemma CutAround(before: string, c: char, after: string)
    requires c !in before
    ensures CutAt(before + [c] + after, c) == Cut(before, after, true)
  {
    var s := before + [c] + after;
    assert s[|before|] == c && s[..|before|] == before && s[|before| + 1..] == after;
    IndexOfUnique(s, c, |before|);
  }

  // ----- Letter case -----

  /** Lower case as the database knows it: ASCII only. */
  function AsciiLower(c: char): char {
    if 'A' <= c <= 'Z' then (c as int + 32) as char else c
  }

  function SqlLower(s: string): (r: string)
    ensures |r| == |s| && forall i :: 0 <= i < |s| ==> r[i] == AsciiLower(s[i])
  {
    if s == "" then "" else [AsciiLower(s[0])] + SqlLower(s[1..])
  }

  /** Lower case with the two letters outside ASCII that have an ASCII lower case. */
  function Lower(c: char): char {
    if c == '\U{0130}' then 'i' else if c == '\U{212A}' then 'k' else AsciiLower(c)
  }

  function ToLower(s: string): (r: string)
    ensures |r| == |s| && forall i :: 0 <= i < |s| ==> r[i] == Lower(s[i])
  {
    if s == "" then "" else [Lower(s[0])] + ToLower(s[1..])
  }

  // ----- Splitting and joining -----

  function Split(s: string, c: char): (r: seq<string>)
    ensures |r| >= 1
    decreases |s|
  {
    var cut := CutAt(s, c);
    if cut.found then [cut.before] + Split(cut.after, c) else [s]
  }

  function Join(parts: seq<string>, sep: string): string {
    if parts == [] then "" else if |parts| == 1 then parts[0] else parts[0] + sep + Join(parts[1..], sep)
  }

  /** Joining parts that do not contain the separator can be undone. */
  lemma {:induction false} SplitJoin(parts: seq<string>, c: char)
    requires parts != [] && forall i :: 0 <= i < |parts| ==> c !in parts[i]
    ensures Split(Join(parts, [c]), c) == parts
  {
    if |parts| > 1 {
      var head, tail, rest := parts[0], parts[1..], Join(parts[1..], [c]);
      SplitJoin(tail, c);
      CutAround(head, c, rest);
      SplitCut(head + [c] + rest, head, rest, c);
      assert parts == [head] + tail;
    } else {
      assert parts == [parts[0]];
      assert !CutAt(parts[0], c).found;
    }
  }

  lemma SplitCut(s: string, before: string, after: string, c: char)
    requires CutAt(s, c) == Cut(before, after, true)
    ensures Split(s, c) == [before] + Split(after, c)
  {
  }

  // ----- Numbers -----

  function Digit(n: nat): (c: char)
    requires n < 10
    ensures IsDigit(c) && DigitValue(c) == n
  {
    '0' + n as char
  }

  predicate IsDigit(c: char) {
    '0' <= c <= '9'
  }

  function DigitValue(c: char): nat
    requires IsDigit(c)
  {
    c as int - '0' as int
  }

  predicate AllDigits(s: string) {
    forall i :: 0 <= i < |s| ==> IsDigit(s[i])
  }

  /** n in decimal without leading zeros. */
  function Decimal(n: nat): (r: string)
    ensures |r| >= 1 && AllDigits(r)
  {
    if n < 10 then [Digit(n)] else Decimal(n / 10) + [Digit(n % 10)]
  }

  function Value(s: string): nat
    requires AllDigits(s)
  {
    if s == [] then 0 else 10 * Value(s[..|s| - 1]) + DigitValue(s[|s| - 1])
  }

  lemma {:induction false} ValueOfDecimal(n: nat)
    ensures Value(Decimal(n)) == n
  {
    if n >= 10 {
      ValueOfDecimal(n / 10);
      assert Decimal(n)[..|Decimal(n)| - 1] == Decimal(n / 10);
    } else {
      assert Decimal(n)[..0] == [];
    }
  }

  /** Reading a signed decimal, as strconv.Atoi and ParseInt accept one. */
  datatype Parsed = NotANumber | Number(value: int)

  function ParseInt(s: string): Parsed {
    var body := if s != [] && (s[0] == '-' || s[0] == '+') then s[1..] else s;
    if body == [] || !AllDigits(body) then NotANumber
    else
      var n: int := if s[0] == '-' then 0 - Value(body) else Value(body);
      if -0x8000_0000_0000_0000 <= n < 0x8000_0000_0000_0000 then Number(n) else NotANumber
  }

  function FormatInt(n: int): string {
    if n < 0 then "-" + Decimal(-n) else Decimal(n)
  }

  lemma ParseDigits(d: string, negative: bool)
    requires d != "" && AllDigits(d) && Value(d) < 0x8000_0000_0000_0000
    ensures ParseInt(if negative then "-" + d else d) == Number(if negative then 0 - Value(d) as int else Value(d))
  {
    if negative {
      assert ("-" + d)[1..] == d;
    } else {
      assert IsDigit(d[0]);
    }
  }

  /** The one number without a positive counterpart. */
  lemma ParseLeast(d: string)
    requires d != "" && AllDigits(d) && Value(d) == 0x8000_0000_0000_0000
    ensures ParseInt("-" + d) == Number(-0x8000_0000_0000_0000)
  {
    assert ("-" + d)[1..] == d;
  }

  lemma ParseFormatted(n: int)
    requires -0x8000_0000_0000_0000 <= n < 0x8000_0000_0000_0000
    ensures ParseInt(FormatInt(n)) == Number(n)
    ensures forall c :: c in FormatInt(n) ==> IsDigit(c) || c == '-'
  {
    var m := if n < 0 then -n else n;
    ValueOfDecimal(m);
    if m < 0x8000_0000_0000_0000 {
      ParseDigits(Decimal(m), n < 0);
    } else {
      ParseLeast(Decimal(m));
    }
  }
}
