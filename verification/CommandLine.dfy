/** The SSH shell's tokenizer, and a way to write any list of tokens as a line. */
module CommandLine {
  import opened Text

  // ----- Splitting a line into tokens -----

  datatype Tokens = Tokens(list: seq<string>) | Unbalanced(quote: char)

  /** The tokenizer between two characters: tokens so far, the one being built. */
  datatype Lexer = Lexer(tokens: seq<string>, current: string, started: bool, quote: Quote)
  datatype Quote = Bare | In(c: char)

  const START := Lexer([], "", false, Bare)

  function Eat(l: Lexer, c: char): Lexer {
    match l.quote
    case In(q) => if c == q then l.(quote := Bare) else l.(current := l.current + [c])
    case Bare =>
      if c == '\'' || c == '"' then l.(quote := In(c), started := true)
      else if c == ' ' || c == '\t' then (if l.started then Lexer(l.tokens + [l.current], "", false, Bare) else l)
      else l.(current := l.current + [c], started := true)
  }

  function EatAll(l: Lexer, s: string): Lexer
    decreases |s|
  {
    if s == "" then l else EatAll(Eat(l, s[0]), s[1..])
  }

  function Finish(l: Lexer): Tokens {
    match l.quote
    case In(q) => Unbalanced(q)
    case Bare => Tokens(if l.started then l.tokens + [l.current] else l.tokens)
  }

  lemma {:induction false} EatAllAppend(l: Lexer, a: string, b: string)
    ensures EatAll(l, a + b) == EatAll(EatAll(l, a), b)
    decreases |a|
  {
    if a == "" {
      assert a + b == b;
    } else {
      assert (a + b)[1..] == a[1..] + b;
      EatAllAppend(Eat(l, a[0]), a[1..], b);
    }
  }

  method SplitArgs(line: string) returns (r: Tokens)
    ensures r == Finish(EatAll(START, line))
  {
    var tokens, current, started := [], "", false;
    var quote := Bare;
    ghost var whole := EatAll(START, line);
    assert line[0..] == line;
    for i := 0 to |line|
      invariant whole == EatAll(Lexer(tokens, current, started, quote), line[i..])
    {
      var c := line[i];
      assert line[i..][1..] == line[i + 1..];
      if quote.In? {
        if c == quote.c {
          quote := Bare;
          continue;
        }
        current := current + [c];
      } else if c == '\'' || c == '"' {
        quote := In(c);
        started := true;
      } else if c == ' ' || c == '\t' {
        if started {
          tokens := tokens + [current];
          current, started := "", false;
        }
      } else {
        current := current + [c];
        started := true;
      }
    }
    if quote.In? {
      return Unbalanced(quote.c);
    }
    if started {
      tokens := tokens + [current];
    }
    return Tokens(tokens);
  }

  // ----- Quoting: any token can be written -----

  /** One character inside single quotes; a single quote leaves them for double ones. */
  function QuoteChar(c: char): string {
    if c == '\'' then "'\"'\"'" else [c]
  }

  function QuoteBody(s: string): string {
    if s == "" then "" else QuoteChar(s[0]) + QuoteBody(s[1..])
  }

  function QuoteToken(s: string): string {
    "'" + QuoteBody(s) + "'"
  }

  /** A line that spells out the tokens, separated by single spaces. */
  function QuoteLine(tokens: seq<string>): string {
    if tokens == [] then "" else if |tokens| == 1 then QuoteToken(tokens[0]) else QuoteToken(tokens[0]) + " " + QuoteLine(tokens[1..])
  }

  lemma EatQuoteChar(l: Lexer, c: char)
    requires l.quote == In('\'') && l.started
    ensures EatAll(l, QuoteChar(c)) == l.(current := l.current + [c])
  {
    if c == '\'' {
      var s := "'\"'\"'";
      assert s[1..] == "\"'\"'" && s[1..][1..] == "'\"'" && s[1..][1..][1..] == "\"'" && s[1..][1..][1..][1..] == "'";
      var l1 := Eat(l, '\'');
      var l2 := Eat(l1, '"');
      var l3 := Eat(l2, '\'');
      var l4 := Eat(l3, '"');
      assert EatAll(l, s) == EatAll(l1, s[1..]) == EatAll(l2, s[1..][1..]) == EatAll(l3, s[1..][1..][1..]) == EatAll(l4, s[1..][1..][1..][1..]);
      assert s[1..][1..][1..][1..][1..] == "";
    } else {
      assert [c][1..] == "";
    }
  }

  lemma {:induction false} EatQuoteBody(l: Lexer, s: string)
    requires l.quote == In('\'') && l.started
    ensures EatAll(l, QuoteBody(s)) == l.(current := l.current + s)
    decreases |s|
  {
    if s == "" {
      assert l.current + "" == l.current;
    } else {
      EatAllAppend(l, QuoteChar(s[0]), QuoteBody(s[1..]));
      EatQuoteChar(l, s[0]);
      EatQuoteBody(l.(current := l.current + [s[0]]), s[1..]);
      assert l.current + [s[0]] + s[1..] == l.current + s;
    }
  }

  lemma EatToken(l: Lexer, s: string)
    requires l == Lexer(l.tokens, "", false, Bare)
    ensures EatAll(l, QuoteToken(s)) == Lexer(l.tokens, s, true, Bare)
  {
    var body := QuoteBody(s);
    EatAllAppend(l, "'" + body, "'");
    EatAllAppend(l, "'", body);
    var l1 := Lexer(l.tokens, "", true, In('\''));
    assert "'"[1..] == "";
    assert EatAll(l, "'") == l1;
    EatQuoteBody(l1, s);
    assert "" + s == s;
    assert EatAll(Lexer(l.tokens, s, true, In('\'')), "'") == Lexer(l.tokens, s, true, Bare);
  }

  lemma {:induction false} EatLine(l: Lexer, tokens: seq<string>)
    requires l == Lexer(l.tokens, "", false, Bare)
    ensures Finish(EatAll(l, QuoteLine(tokens))) == Tokens(l.tokens + tokens)
    decreases |tokens|
  {
    if tokens == [] {
      assert l.tokens + tokens == l.tokens;
    } else if |tokens| == 1 {
      EatToken(l, tokens[0]);
      assert tokens == [tokens[0]];
    } else {
      var rest := QuoteLine(tokens[1..]);
      EatAllAppend(l, QuoteToken(tokens[0]) + " ", rest);
      EatAllAppend(l, QuoteToken(tokens[0]), " ");
      EatToken(l, tokens[0]);
      var l1 := Lexer(l.tokens + [tokens[0]], "", false, Bare);
      assert " "[1..] == "";
      assert EatAll(Lexer(l.tokens, tokens[0], true, Bare), " ") == l1;
      EatLine(l1, tokens[1..]);
      assert l.tokens + [tokens[0]] + tokens[1..] == l.tokens + tokens;
    }
  }

  /** Every list of tokens survives being quoted and split again. */
  lemma QuotedLineSplitsBack(tokens: seq<string>)
    ensures Finish(EatAll(START, QuoteLine(tokens))) == Tokens(tokens)
  {
    EatLine(START, tokens);
    assert [] + tokens == tokens;
  }

  // ----- How lines are written -----

  predicate BlankChar(c: char) {
    c == ' ' || c == '\t'
  }

  predicate Blank(s: string) {
    forall i :: 0 <= i < |s| ==> BlankChar(s[i])
  }

  /** A piece of a word: bare text, or text between two quotation marks of one kind. */
  datatype Piece = Naked(text: string) | Quoted(mark: char, text: string)

  predicate FinePiece(p: Piece) {
    match p
    case Naked(t) => t != "" && forall i :: 0 <= i < |t| ==> t[i] != '\'' && t[i] != '"' && !BlankChar(t[i])
    case Quoted(q, t) => (q == '\'' || q == '"') && q !in t
  }

  function Spelling(p: Piece): string {
    match p case Naked(t) => t case Quoted(q, t) => [q] + t + [q]
  }

  /** A word and the blanks before it. */
  datatype Word = Word(gap: string, pieces: seq<Piece>)

  predicate FineWord(w: Word, first: bool) {
    && Blank(w.gap) && (first || w.gap != "") && w.pieces != []
    && forall i :: 0 <= i < |w.pieces| ==> FinePiece(w.pieces[i])
  }

  function TextOf(ps: seq<Piece>): string {
    if ps == [] then "" else TextOf(ps[..|ps| - 1]) + ps[|ps| - 1].text
  }

  function SpellingOf(ps: seq<Piece>): string {
    if ps == [] then "" else SpellingOf(ps[..|ps| - 1]) + Spelling(ps[|ps| - 1])
  }

  function Line(ws: seq<Word>): string {
    if ws == [] then "" else Line(ws[..|ws| - 1]) + ws[|ws| - 1].gap + SpellingOf(ws[|ws| - 1].pieces)
  }

  function TextsOf(ws: seq<Word>): (r: seq<string>)
    ensures |r| == |ws| && forall i :: 0 <= i < |ws| ==> r[i] == TextOf(ws[i].pieces)
  {
    seq(|ws|, i requires 0 <= i < |ws| => TextOf(ws[i].pieces))
  }

  lemma EatOne(l: Lexer, c: char)
    ensures EatAll(l, [c]) == Eat(l, c)
  {
    assert [c][1..] == "";
  }

  lemma {:induction false} EatNaked(l: Lexer, t: string)
    requires l.quote == Bare && FinePiece(Naked(t))
    ensures EatAll(l, t) == l.(current := l.current + t, started := true)
    decreases |t|
  {
    var n := |t| - 1;
    assert t == t[..n] + [t[n]];
    EatAllAppend(l, t[..n], [t[n]]);
    if n > 0 {
      EatNaked(l, t[..n]);
    } else {
      assert t[..n] == "" && l.current + "" == l.current;
    }
    EatOne(EatAll(l, t[..n]), t[n]);
    assert l.current + t == (l.current + t[..n]) + [t[n]];
  }

  lemma {:induction false} EatInside(l: Lexer, q: char, t: string)
    requires l.quote == In(q) && q !in t
    ensures EatAll(l, t) == l.(current := l.current + t)
    decreases |t|
  {
    if t == "" {
      assert l.current + t == l.current;
    } else {
      assert t[0] != q;
      EatInside(l.(current := l.current + [t[0]]), q, t[1..]);
      assert l.current + [t[0]] + t[1..] == l.current + t;
    }
  }

  lemma EatPiece(l: Lexer, p: Piece)
    requires l.quote == Bare && FinePiece(p)
    ensures EatAll(l, Spelling(p)) == l.(current := l.current + p.text, started := true)
  {
    match p
    case Naked(t) => EatNaked(l, t);
    case Quoted(q, t) =>
      EatAllAppend(l, [q] + t, [q]);
      EatAllAppend(l, [q], t);
      EatOne(l, q);
      EatInside(l.(quote := In(q), started := true), q, t);
      EatOne(Lexer(l.tokens, l.current + t, true, In(q)), q);
  }

  function Begun(l: Lexer, text: string): Lexer {
    l.(current := l.current + text, started := true)
  }

  lemma BegunTwice(l: Lexer, a: string, b: string)
    ensures Begun(Begun(l, a), b) == Begun(l, a + b)
  {
    assert l.current + a + b == l.current + (a + b);
  }

  lemma NothingBefore(s: string)
    ensures "" + s == s
  {
  }

  lemma OneText(ps: seq<Piece>)
    requires |ps| == 1
    ensures SpellingOf(ps) == Spelling(ps[0]) && TextOf(ps) == ps[0].text
  {
    assert ps[..|ps| - 1] == [];
    NothingBefore(Spelling(ps[0]));
    NothingBefore(ps[0].text);
  }

  lemma OnePiece(l: Lexer, ps: seq<Piece>)
    requires l.quote == Bare && |ps| == 1 && FinePiece(ps[0])
    ensures EatAll(l, SpellingOf(ps)) == Begun(l, TextOf(ps))
  {
    OneText(ps);
    EatPiece(l, ps[0]);
  }

  lemma {:induction false} EatPieces(l: Lexer, ps: seq<Piece>)
    requires l.quote == Bare && ps != [] && forall i :: 0 <= i < |ps| ==> FinePiece(ps[i])
    ensures EatAll(l, SpellingOf(ps)) == Begun(l, TextOf(ps))
    decreases |ps|
  {
    if |ps| == 1 {
      OnePiece(l, ps);
    } else {
      var front, last := ps[..|ps| - 1], ps[|ps| - 1];
      EatAllAppend(l, SpellingOf(front), Spelling(last));
      EatPieces(l, front);
      EatPiece(Begun(l, TextOf(front)), last);
      BegunTwice(l, TextOf(front), last.text);
    }
  }

  /** The token being built, if there is one, ends at the first blank. */
  function Ended(l: Lexer): Lexer {
    if l.started then Lexer(l.tokens + [l.current], "", false, Bare) else l
  }

  lemma {:induction false} EatBlanks(l: Lexer, gap: string)
    requires l.quote == Bare && Blank(gap) && (!l.started ==> l.current == "")
    ensures EatAll(l, gap) == if gap == "" then l else Ended(l)
    decreases |gap|
  {
    if gap != "" {
      assert BlankChar(gap[0]);
      EatBlanks(Ended(l), gap[1..]);
    }
  }

  /** Between two words: the words before, the last of them not ended yet. */
  function Midway(words: seq<string>): Lexer {
    if words == [] then START else Lexer(words[..|words| - 1], words[|words| - 1], true, Bare)
  }

  predicate FineLine(ws: seq<Word>) {
    forall i :: 0 <= i < |ws| ==> FineWord(ws[i], i == 0)
  }

  lemma MidwayEnds(words: seq<string>)
    ensures Ended(Midway(words)) == Lexer(words, "", false, Bare)
  {
    if words != [] {
      assert words[..|words| - 1] + [words[|words| - 1]] == words;
    }
  }

  lemma EatGap(words: seq<string>, gap: string)
    requires Blank(gap) && (words == [] || gap != "")
    ensures EatAll(Midway(words), gap) == Lexer(words, "", false, Bare)
  {
    EatBlanks(Midway(words), gap);
    MidwayEnds(words);
  }

  lemma EatWord(words: seq<string>, ps: seq<Piece>)
    requires ps != [] && forall i :: 0 <= i < |ps| ==> FinePiece(ps[i])
    ensures EatAll(Lexer(words, "", false, Bare), SpellingOf(ps)) == Midway(words + [TextOf(ps)])
  {
    EatPieces(Lexer(words, "", false, Bare), ps);
    var more := words + [TextOf(ps)];
    assert "" + TextOf(ps) == TextOf(ps);
    assert more[..|more| - 1] == words && more[|more| - 1] == TextOf(ps);
  }

  lemma LastText(ws: seq<Word>)
    requires ws != []
    ensures TextsOf(ws) == TextsOf(ws[..|ws| - 1]) + [TextOf(ws[|ws| - 1].pieces)]
  {
  }

  lemma {:induction false} EatWords(ws: seq<Word>)
    requires FineLine(ws)
    ensures EatAll(START, Line(ws)) == Midway(TextsOf(ws))
    decreases |ws|
  {
    if ws != [] {
      var front, last := ws[..|ws| - 1], ws[|ws| - 1];
      EatWords(front);
      LastText(ws);
      EatAllAppend(START, Line(front) + last.gap, SpellingOf(last.pieces));
      EatAllAppend(START, Line(front), last.gap);
      EatGap(TextsOf(front), last.gap);
      EatWord(TextsOf(front), last.pieces);
    }
  }

  lemma MidwayFinishes(words: seq<string>, end: string)
    requires Blank(end)
    ensures Finish(EatAll(Midway(words), end)) == Tokens(words)
  {
    MidwayEnds(words);
    EatBlanks(Midway(words), end);
  }

  /** Words are what stands between blanks: bare and quoted pieces next to each other make
      one word, quotation marks keep blanks and marks of the other kind, and blanks around
      the line do not matter. */
  lemma WrittenLineSplits(ws: seq<Word>, end: string)
    requires FineLine(ws) && Blank(end)
    ensures Finish(EatAll(START, Line(ws) + end)) == Tokens(TextsOf(ws))
  {
    EatWords(ws);
    EatAllAppend(START, Line(ws), end);
    MidwayFinishes(TextsOf(ws), end);
  }

  /** A quotation mark that is not closed is complained about. */
  lemma OpenQuoteIsRefused(ws: seq<Word>, end: string, q: char, t: string)
    requires FineLine(ws) && Blank(end) && (q == '\'' || q == '"') && q !in t
    ensures Finish(EatAll(START, Line(ws) + end + [q] + t)) == Unbalanced(q)
  {
    var before := Line(ws) + end;
    EatWords(ws);
    EatAllAppend(START, Line(ws), end);
    EatBlanks(Midway(TextsOf(ws)), end);
    EatAllAppend(START, before + [q], t);
    EatAllAppend(START, before, [q]);
    var l := EatAll(START, before);
    EatOne(l, q);
    EatInside(Eat(l, q), q, t);
  }
}
