/** Resolving a tokenized line to a declared action of the command registry. */
module CommandParser {
  import opened Text
  import opened CommandLine

  datatype ArgSpec = ArgSpec(name: string, repeated: bool)
  datatype FlagSpec = FlagSpec(name: string, value: bool)

  /** What an action declares; `runs` is whether it has a handler. */
  datatype Spec = Spec(args: seq<ArgSpec>, flags: seq<FlagSpec>, json: bool, runs: bool)

  /** A command: its bare form and the actions grouped under its name. */
  datatype Command = Command(name: string, bare: Spec, subs: seq<(string, Spec)>)
  type Registry = map<string, Command>

  datatype Sub = NoSub | SubAt(index: nat)

  datatype Action = Action(cmd: Command, sub: Sub, args: seq<string>, flags: map<string, string>, json: bool)

  datatype Error =
    | UnknownCommand | NeedsAction
    | UnknownFlag(name: string) | NeedsValue(name: string) | TakesNoValue(name: string) | GivenTwice(name: string)
    | NoSuchAction | TooManyArguments

  datatype Result = Accepted(action: Action) | Rejected(error: Error)

  const DASHES := "--"

  // ----- The pieces of a line -----

  function FindSub(subs: seq<(string, Spec)>, name: string): (r: Sub)
    ensures r.SubAt? ==> r.index < |subs| && subs[r.index].0 == name && forall i :: 0 <= i < r.index ==> subs[i].0 != name
    ensures r.NoSub? ==> forall i :: 0 <= i < |subs| ==> subs[i].0 != name
  {
    if subs == [] then NoSub
    else if subs[0].0 == name then SubAt(0)
    else
      match FindSub(subs[1..], name)
      case NoSub => NoSub
      case SubAt(i) => SubAt(i + 1)
  }

  /** The action word, unless "--" stands in its place. */
  function Resolve(cmd: Command, rest: seq<string>): (r: Sub)
    ensures r.SubAt? ==> rest != [] && r.index < |cmd.subs|
  {
    if rest != [] && rest[0] != DASHES then FindSub(cmd.subs, rest[0]) else NoSub
  }

  function SpecOf(cmd: Command, sub: Sub): Spec
    requires sub.SubAt? ==> sub.index < |cmd.subs|
  {
    match sub case NoSub => cmd.bare case SubAt(i) => cmd.subs[i].1
  }

  function AllFlags(spec: Spec): seq<FlagSpec> {
    spec.flags + (if spec.json then [FlagSpec("json", false)] else [])
  }

  datatype Lookup = Undeclared | Declared(spec: FlagSpec)

  /** The last declaration of a name, as filling a map leaves it. */
  function Find(flags: seq<FlagSpec>, name: string): (r: Lookup)
    ensures r.Declared? ==> r.spec in flags && r.spec.name == name
    ensures r.Undeclared? ==> forall f :: f in flags ==> f.name != name
  {
    if flags == [] then Undeclared
    else if flags[|flags| - 1].name == name then Declared(flags[|flags| - 1])
    else Find(flags[..|flags| - 1], name)
  }

  /** What a token looks like before any "--": positional, "--" itself, or a flag with its
      name and value cut at the first '='. */
  datatype Token = Plain(text: string) | Dashes(text: string) | Flag(text: string, cut: Cut)

  function Classify(t: string): Token {
    if !HasPrefix(t, DASHES) then Plain(t) else if t == DASHES then Dashes(t) else Flag(t, CutAt(t[2..], '='))
  }

  function ClassifyAll(rest: seq<string>): (r: seq<Token>)
    ensures |r| == |rest| && forall i :: 0 <= i < |rest| ==> r[i] == Classify(rest[i])
  {
    seq(|rest|, i requires 0 <= i < |rest| => Classify(rest[i]))
  }

  /** "--" stands among the first n tokens. */
  predicate Literal(toks: seq<Token>, n: nat)
    requires n <= |toks|
  {
    n > 0 && (Literal(toks, n - 1) || toks[n - 1].Dashes?)
  }

  /** The positional ones of the first n tokens: the plain ones, and all after "--". */
  function RawArgs(toks: seq<Token>, n: nat): seq<string>
    requires n <= |toks|
  {
    if n == 0 then []
    else if Literal(toks, n - 1) || toks[n - 1].Plain? then RawArgs(toks, n - 1) + [toks[n - 1].text]
    else RawArgs(toks, n - 1)
  }

  /** The flags among the first n tokens: those before any "--". */
  function FlagTokens(toks: seq<Token>, n: nat): (r: seq<Token>)
    requires n <= |toks|
    ensures forall i :: 0 <= i < |r| ==> r[i].Flag?
  {
    if n == 0 then []
    else if !Literal(toks, n - 1) && toks[n - 1].Flag? then FlagTokens(toks, n - 1) + [toks[n - 1]]
    else FlagTokens(toks, n - 1)
  }

  /** The names and values of flags. */
  function CutsOf(flags: seq<Token>): (r: seq<Cut>)
    requires forall i :: 0 <= i < |flags| ==> flags[i].Flag?
    ensures |r| == |flags| && forall i :: 0 <= i < |flags| ==> r[i] == flags[i].cut
  {
    seq(|flags|, i requires 0 <= i < |flags| => flags[i].cut)
  }

  function FlagsGiven(toks: seq<Token>): (r: seq<Cut>)
    ensures |r| == |FlagTokens(toks, |toks|)| && forall i :: 0 <= i < |r| ==> r[i] == FlagTokens(toks, |toks|)[i].cut
  {
    CutsOf(FlagTokens(toks, |toks|))
  }

  function FlagValues(cuts: seq<Cut>, k: nat): map<string, string>
    requires k <= |cuts|
  {
    if k == 0 then map[] else FlagValues(cuts, k - 1)[cuts[k - 1].before := cuts[k - 1].after]
  }

  datatype Check = Fine | Bad(error: Error)

  function CheckFlag(flags: seq<FlagSpec>, given: map<string, string>, cut: Cut): Check {
    match Find(flags, cut.before)
    case Undeclared => Bad(UnknownFlag(cut.before))
    case Declared(spec) =>
      if spec.value && !cut.found then Bad(NeedsValue(cut.before))
      else if !spec.value && cut.found then Bad(TakesNoValue(cut.before))
      else if cut.before in given then Bad(GivenTwice(cut.before))
      else Fine
  }

  /** The first complaint about the first k flags, in order. */
  function CheckFlags(flags: seq<FlagSpec>, cuts: seq<Cut>, k: nat): Check
    requires k <= |cuts|
  {
    if k == 0 then Fine
    else
      var before := CheckFlags(flags, cuts, k - 1);
      if before.Bad? then before else CheckFlag(flags, FlagValues(cuts, k - 1), cuts[k - 1])
  }

  /** A repeated last argument swallows the rest of the line. */
  function JoinRepeated(declared: seq<ArgSpec>, args: seq<string>): seq<string> {
    if declared == [] || !declared[|declared| - 1].repeated || |args| < |declared| then args
    else
      var last := |declared| - 1;
      args[..last] + [Join(args[last..], " ")]
  }

  function Parse(reg: Registry, tokens: seq<string>): Result
    requires tokens != []
  {
    if tokens[0] !in reg then Rejected(UnknownCommand)
    else
      var cmd := reg[tokens[0]];
      var sub := Resolve(cmd, tokens[1..]);
      ParseRest(cmd, sub, ClassifyAll(AfterWords(tokens, sub)))
  }

  /** The tokens after the command and action words. */
  function AfterWords(tokens: seq<string>, sub: Sub): seq<string> {
    var k := if sub.SubAt? then 2 else 1;
    if k <= |tokens| then tokens[k..] else []
  }

  function ParseRest(cmd: Command, sub: Sub, rest: seq<Token>): Result
    requires sub.SubAt? ==> sub.index < |cmd.subs|
  {
    var spec := SpecOf(cmd, sub);
    if !spec.runs then Rejected(NeedsAction)
    else
      var given := FlagsGiven(rest);
      var check := CheckFlags(AllFlags(spec), given, |given|);
      if check.Bad? then Rejected(check.error)
      else
        var flags, args := FlagValues(given, |given|), JoinRepeated(spec.args, RawArgs(rest, |rest|));
        if |args| > |spec.args| then Rejected(if sub.NoSub? && cmd.subs != [] then NoSuchAction else TooManyArguments)
        else Accepted(Action(cmd, sub, args, flags, "json" in flags))
  }

  method ParseLine(reg: Registry, tokens: seq<string>) returns (r: Result)
    requires tokens != []
    ensures r == Parse(reg, tokens)
  {
    if tokens[0] !in reg {
      return Rejected(UnknownCommand);
    }
    var cmd := reg[tokens[0]];
    var rest, sub := tokens[1..], NoSub;
    if |rest| > 0 && rest[0] != DASHES {
      sub := FindSub(cmd.subs, rest[0]);
      if sub.SubAt? {
        rest := rest[1..];
      }
    }
    assert sub == Resolve(cmd, tokens[1..]) && rest == AfterWords(tokens, sub);
    r := ParseTail(cmd, sub, rest);
  }

  method ParseTail(cmd: Command, sub: Sub, rest: seq<string>) returns (r: Result)
    requires sub.SubAt? ==> sub.index < |cmd.subs|
    ensures r == ParseRest(cmd, sub, ClassifyAll(rest))
  {
    var spec := SpecOf(cmd, sub);
    if !spec.runs {
      return Rejected(NeedsAction);
    }
    var scan, args, flags := ScanTokens(AllFlags(spec), rest);
    if scan.Bad? {
      return Rejected(scan.error);
    }
    args := JoinRepeated(spec.args, args);
    if |args| > |spec.args| {
      return Rejected(if sub.NoSub? && |cmd.subs| > 0 then NoSuchAction else TooManyArguments);
    }
    return Accepted(Action(cmd, sub, args, flags, "json" in flags));
  }

  /** The loop over the tokens after the action word. */
  method ScanTokens(allowed: seq<FlagSpec>, rest: seq<string>) returns (check: Check, args: seq<string>, flags: map<string, string>)
    ensures var given := FlagsGiven(ClassifyAll(rest)); check == CheckFlags(allowed, given, |given|) && (check.Fine? ==> flags == FlagValues(given, |given|))
    ensures check.Fine? ==> args == RawArgs(ClassifyAll(rest), |rest|)
  {
    ghost var toks := ClassifyAll(rest);
    args, flags := [], map[];
    var literal := false;
    for i := 0 to |rest|
      invariant literal == Literal(toks, i) && args == RawArgs(toks, i)
      invariant Scanned(allowed, FlagTokens(toks, i), flags)
    {
      var tok := Look(rest[i]);
      assert toks[i] == tok;
      if literal || tok.Plain? {
        args := args + [tok.text];
      } else if tok.Dashes? {
        literal := true;
      } else {
        check := CheckFlag(allowed, flags, tok.cut);
        OneMoreFlag(allowed, FlagTokens(toks, i), flags, tok);
        if check.Bad? {
          BadStaysBad(allowed, toks, i + 1);
          return;
        }
        flags := flags[tok.cut.before := tok.cut.after];
      }
    }
    check := Fine;
  }

  /** The cases of the loop's switch, as far as they concern the token alone. */
  method Look(t: string) returns (tok: Token)
    ensures tok == Classify(t)
  {
    if !HasPrefix(t, DASHES) {
      return Plain(t);
    }
    if t == DASHES {
      return Dashes(t);
    }
    return Flag(t, CutAt(t[2..], '='));
  }

  /** The flags so far passed, and these are their values. */
  ghost predicate Scanned(allowed: seq<FlagSpec>, given: seq<Token>, flags: map<string, string>)
    requires forall i :: 0 <= i < |given| ==> given[i].Flag?
  {
    flags == FlagValues(CutsOf(given), |given|) && CheckFlags(allowed, CutsOf(given), |given|).Fine?
  }

  lemma OneMoreFlag(allowed: seq<FlagSpec>, given: seq<Token>, flags: map<string, string>, t: Token)
    requires (forall i :: 0 <= i < |given| ==> given[i].Flag?) && Scanned(allowed, given, flags) && t.Flag?
    ensures CheckFlags(allowed, CutsOf(given + [t]), |given| + 1) == CheckFlag(allowed, flags, t.cut)
    ensures CheckFlag(allowed, flags, t.cut).Fine? ==> Scanned(allowed, given + [t], flags[t.cut.before := t.cut.after])
  {
    var a, b := CutsOf(given), CutsOf(given + [t]);
    assert forall i :: 0 <= i < |given| ==> (given + [t])[i] == given[i];
    SamePrefix(allowed, a, b, |given|);
    assert b[|given|] == t.cut;
  }

  /** What is said about the first k flags depends on them alone. */
  lemma {:induction false} SamePrefix(allowed: seq<FlagSpec>, a: seq<Cut>, b: seq<Cut>, k: nat)
    requires k <= |a| && k <= |b| && forall i :: 0 <= i < k ==> a[i] == b[i]
    ensures CheckFlags(allowed, a, k) == CheckFlags(allowed, b, k) && FlagValues(a, k) == FlagValues(b, k)
  {
    if k > 0 {
      SamePrefix(allowed, a, b, k - 1);
    }
  }

  /** Further tokens only add flags after those given. */
  lemma {:induction false} GivenExtends(toks: seq<Token>, n: nat, m: nat)
    requires n <= m <= |toks|
    ensures var a, b := FlagTokens(toks, n), FlagTokens(toks, m); |a| <= |b| && forall i :: 0 <= i < |a| ==> a[i] == b[i]
    decreases m
  {
    if n < m {
      GivenExtends(toks, n, m - 1);
    }
  }

  lemma {:induction false} BadEarlier(allowed: seq<FlagSpec>, cuts: seq<Cut>, j: nat, k: nat)
    requires j <= k <= |cuts| && CheckFlags(allowed, cuts, j).Bad?
    ensures CheckFlags(allowed, cuts, k) == CheckFlags(allowed, cuts, j)
    decreases k
  {
    if j < k {
      BadEarlier(allowed, cuts, j, k - 1);
    }
  }

  lemma BadStaysBad(allowed: seq<FlagSpec>, toks: seq<Token>, n: nat)
    requires n <= |toks| && CheckFlags(allowed, CutsOf(FlagTokens(toks, n)), |FlagTokens(toks, n)|).Bad?
    ensures CheckFlags(allowed, FlagsGiven(toks), |FlagsGiven(toks)|) == CheckFlags(allowed, CutsOf(FlagTokens(toks, n)), |FlagTokens(toks, n)|)
  {
    var a, b := CutsOf(FlagTokens(toks, n)), FlagsGiven(toks);
    GivenExtends(toks, n, |toks|);
    SamePrefix(allowed, a, b, |a|);
    BadEarlier(allowed, b, |a|, |b|);
  }

  // ----- Every token is accounted for -----

  /** Token i is positional: it is plain, or "--" came before it. */
  predicate IsArg(toks: seq<Token>, i: nat)
    requires i < |toks|
  {
    Literal(toks, i) || toks[i].Plain?
  }

  lemma {:induction false} ArgsExtend(toks: seq<Token>, n: nat, m: nat)
    requires n <= m <= |toks|
    ensures var a, b := RawArgs(toks, n), RawArgs(toks, m); |a| <= |b| && forall i :: 0 <= i < |a| ==> a[i] == b[i]
    decreases m
  {
    if n < m {
      ArgsExtend(toks, n, m - 1);
    }
  }

  /** Where token i went: among the arguments or among the flags, after those of its kind
      that came before it, or nowhere because it is the "--" that ends the flags. */
  ghost predicate AccountedFor(toks: seq<Token>, i: nat)
    requires i < |toks|
  {
    var args, flags := RawArgs(toks, |toks|), FlagTokens(toks, |toks|);
    if IsArg(toks, i) then |RawArgs(toks, i)| < |args| && args[|RawArgs(toks, i)|] == toks[i].text
    else if toks[i].Flag? then |FlagTokens(toks, i)| < |flags| && flags[|FlagTokens(toks, i)|] == toks[i]
    else toks[i].Dashes? && !Literal(toks, i)
  }

  /** Every token went to one place, and nothing else did. */
  ghost predicate AllAccountedFor(toks: seq<Token>) {
    && (forall i :: 0 <= i < |toks| ==> AccountedFor(toks, i))
    && |toks| == |RawArgs(toks, |toks|)| + |FlagTokens(toks, |toks|)| + if Literal(toks, |toks|) then 1 else 0
  }

  lemma {:induction false} NothingElse(toks: seq<Token>, n: nat)
    requires n <= |toks|
    ensures n == |RawArgs(toks, n)| + |FlagTokens(toks, n)| + if Literal(toks, n) then 1 else 0
  {
    if n > 0 {
      NothingElse(toks, n - 1);
    }
  }

  lemma OneAccountedFor(toks: seq<Token>, i: nat)
    requires i < |toks|
    ensures AccountedFor(toks, i)
  {
    ArgsExtend(toks, i + 1, |toks|);
    GivenExtends(toks, i + 1, |toks|);
  }

  /** The tokens after the action word are, each exactly once and in order, the positional
      ones, the flags, and the one "--" that ends the flags. */
  lemma TokensAccountedFor(toks: seq<Token>)
    ensures AllAccountedFor(toks)
  {
    NothingElse(toks, |toks|);
    forall i | 0 <= i < |toks| ensures AccountedFor(toks, i) {
      OneAccountedFor(toks, i);
    }
  }

  /** After the first "--" every token is an argument and none a flag. */
  lemma {:induction false} SplitAtDashes(toks: seq<Token>, k: nat, n: nat)
    requires k < n <= |toks| && toks[k].Dashes? && !Literal(toks, k)
    ensures Literal(toks, n) && FlagTokens(toks, n) == FlagTokens(toks, k)
    ensures |RawArgs(toks, n)| == |RawArgs(toks, k)| + (n - k - 1)
    ensures n < |toks| ==> IsArg(toks, n)
    decreases n
  {
    if n > k + 1 {
      SplitAtDashes(toks, k, n - 1);
    }
  }

  /** One of the first k flags has this name. */
  ghost predicate Named(cuts: seq<Cut>, k: nat, name: string)
    requires k <= |cuts|
  {
    exists i :: 0 <= i < k && cuts[i].before == name
  }

  lemma {:induction false} ValuesAreNamed(cuts: seq<Cut>, k: nat, name: string)
    requires k <= |cuts|
    ensures name in FlagValues(cuts, k) <==> Named(cuts, k, name)
  {
    if k > 0 {
      ValuesAreNamed(cuts, k - 1, name);
    }
  }

  /** Checked flags are declared and shaped as declared. */
  lemma {:induction false} CheckedFlags(flags: seq<FlagSpec>, cuts: seq<Cut>, k: nat)
    requires k <= |cuts| && CheckFlags(flags, cuts, k).Fine?
    ensures forall i :: 0 <= i < k ==> Find(flags, cuts[i].before).Declared? && Find(flags, cuts[i].before).spec.value == cuts[i].found
  {
    if k > 0 {
      CheckedFlags(flags, cuts, k - 1);
    }
  }

  /** Checked flags are never repeated, and each is kept with its value. */
  lemma {:induction false} CheckedOnce(flags: seq<FlagSpec>, cuts: seq<Cut>, k: nat)
    requires k <= |cuts| && CheckFlags(flags, cuts, k).Fine?
    ensures forall i, j :: 0 <= i < j < k ==> cuts[i].before != cuts[j].before
    ensures forall i :: 0 <= i < k ==> cuts[i].before in FlagValues(cuts, k) && FlagValues(cuts, k)[cuts[i].before] == cuts[i].after
    ensures |FlagValues(cuts, k)| == k
  {
    if k > 0 {
      CheckedOnce(flags, cuts, k - 1);
      var name := cuts[k - 1].before;
      assert name !in FlagValues(cuts, k - 1);
      forall i | 0 <= i < k - 1 ensures cuts[i].before != name {
        assert cuts[i].before in FlagValues(cuts, k - 1);
      }
    }
  }

  /** In every accepted line each token is accounted for once: the command word, the
      action word if there is one, the positional tokens, the flags and a "--"; the flags
      are declared by the resolved action and each was given once, with the value the
      handler sees; the arguments are the positional tokens and at most those declared. */
  lemma AcceptedLinesAreAccountedFor(reg: Registry, tokens: seq<string>)
    requires tokens != [] && Parse(reg, tokens).Accepted?
    ensures var a := Parse(reg, tokens).action;
            && tokens[0] in reg && a.cmd == reg[tokens[0]]
            && (a.sub.SubAt? ==> a.sub.index < |a.cmd.subs| && |tokens| >= 2 && tokens[1] == a.cmd.subs[a.sub.index].0)
            && RestAccountedFor(a, ClassifyAll(AfterWords(tokens, a.sub)))
  {
    var a := Parse(reg, tokens).action;
    RestIsAccountedFor(a.cmd, a.sub, ClassifyAll(AfterWords(tokens, a.sub)));
  }

  ghost predicate RestAccountedFor(a: Action, toks: seq<Token>)
    requires a.sub.SubAt? ==> a.sub.index < |a.cmd.subs|
  {
    var spec, n, given := SpecOf(a.cmd, a.sub), |toks|, FlagsGiven(toks);
    && spec.runs && |a.args| <= |spec.args|
    && a.args == JoinRepeated(spec.args, RawArgs(toks, n))
    && AllAccountedFor(toks)
    && |a.flags| == |given| == |FlagTokens(toks, n)|
    && (forall name :: name in a.flags <==> Named(given, |given|, name))
    && (forall i, j :: 0 <= i < j < |given| ==> given[i].before != given[j].before)
    && (forall i :: 0 <= i < |given| ==>
          && Find(AllFlags(spec), given[i].before).Declared? && Find(AllFlags(spec), given[i].before).spec.value == given[i].found
          && given[i].before in a.flags && a.flags[given[i].before] == given[i].after)
    && a.json == ("json" in a.flags)
  }

  lemma RestIsAccountedFor(cmd: Command, sub: Sub, toks: seq<Token>)
    requires (sub.SubAt? ==> sub.index < |cmd.subs|) && ParseRest(cmd, sub, toks).Accepted?
    ensures var a := ParseRest(cmd, sub, toks).action; a.cmd == cmd && a.sub == sub && RestAccountedFor(a, toks)
  {
    var given := FlagsGiven(toks);
    CheckedFlags(AllFlags(SpecOf(cmd, sub)), given, |given|);
    CheckedOnce(AllFlags(SpecOf(cmd, sub)), given, |given|);
    forall name ensures name in FlagValues(given, |given|) <==> Named(given, |given|, name) {
      ValuesAreNamed(given, |given|, name);
    }
    TokensAccountedFor(toks);
  }

  // ----- Writing an action as a line -----

  datatype Given = Switch(name: string) | Valued(name: string, value: string)

  function TokenOf(g: Given): string {
    match g case Switch(n) => DASHES + n case Valued(n, v) => DASHES + n + "=" + v
  }

  function TokensOf(gs: seq<Given>): (r: seq<string>)
    ensures |r| == |gs| && forall i :: 0 <= i < |gs| ==> r[i] == TokenOf(gs[i])
  {
    FirstTokens(gs, |gs|)
  }

  function FirstTokens(gs: seq<Given>, k: nat): (r: seq<string>)
    requires k <= |gs|
    ensures |r| == k && forall i :: 0 <= i < k ==> r[i] == TokenOf(gs[i])
  {
    if k == 0 then [] else FirstTokens(gs, k - 1) + [TokenOf(gs[k - 1])]
  }

  /** The values of the first k flags. */
  function ValuesOf(gs: seq<Given>, k: nat): map<string, string>
    requires k <= |gs|
  {
    if k == 0 then map[] else ValuesOf(gs, k - 1)[gs[k - 1].name := if gs[k - 1].Valued? then gs[k - 1].value else ""]
  }

  /** Flags a token can carry: a name without the value separator, and not a bare "--". */
  predicate Spellable(g: Given) {
    '=' !in g.name && (g.Switch? ==> g.name != "")
  }

  predicate Admits(flags: seq<FlagSpec>, g: Given) {
    Spellable(g) && Find(flags, g.name).Declared? && Find(flags, g.name).spec.value == g.Valued?
  }

  /** Flags the action declares, in their declared shape, each at most once. */
  ghost predicate AdmissibleFlags(flags: seq<FlagSpec>, gs: seq<Given>) {
    && (forall i :: 0 <= i < |gs| ==> Admits(flags, gs[i]))
    && (forall i, j :: 0 <= i < j < |gs| ==> gs[i].name != gs[j].name)
  }

  /** The action as the tokens of a line: every argument follows "--". */
  function Render(word: string, cmd: Command, sub: Sub, gs: seq<Given>, args: seq<string>): seq<string>
    requires sub.SubAt? ==> sub.index < |cmd.subs|
  {
    WithWords(word, cmd, sub, RenderTail(gs, args))
  }

  function RenderTail(gs: seq<Given>, args: seq<string>): seq<string> {
    TokensOf(gs) + [DASHES] + args
  }

  function WithWords(word: string, cmd: Command, sub: Sub, tail: seq<string>): seq<string>
    requires sub.SubAt? ==> sub.index < |cmd.subs|
  {
    [word] + (if sub.SubAt? then [cmd.subs[sub.index].0] else []) + tail
  }

  function CutOf(g: Given): Cut {
    match g case Switch(n) => Cut(n, "", false) case Valued(n, v) => Cut(n, v, true)
  }

  lemma TokenReadsBack(g: Given)
    requires Spellable(g)
    ensures HasPrefix(TokenOf(g), DASHES) && Classify(TokenOf(g)) == Flag(TokenOf(g), CutOf(g))
  {
    var t := TokenOf(g);
    if g.Valued? {
      assert t[2..] == g.name + ['='] + g.value;
      assert |t| > 2;
      CutAround(g.name, '=', g.value);
    } else {
      assert t[2..] == g.name;
    }
  }

  /** The first tokens are these flags. */
  ghost predicate Spells(toks: seq<Token>, gs: seq<Given>) {
    |gs| <= |toks| && forall i :: 0 <= i < |gs| ==> toks[i] == Flag(TokenOf(gs[i]), CutOf(gs[i]))
  }

  /** Every rendered flag is read as a flag, and none as an argument. */
  lemma {:induction false} RenderedTokens(toks: seq<Token>, gs: seq<Given>, n: nat)
    requires Spells(toks, gs) && n <= |gs|
    ensures !Literal(toks, n) && RawArgs(toks, n) == []
    ensures |FlagTokens(toks, n)| == n && forall i :: 0 <= i < n ==> FlagTokens(toks, n)[i] == toks[i]
  {
    if n > 0 {
      RenderedTokens(toks, gs, n - 1);
    }
  }

  lemma FineStep(flags: seq<FlagSpec>, cuts: seq<Cut>, k: nat, g: Given)
    requires 0 < k <= |cuts| && CheckFlags(flags, cuts, k - 1).Fine? && !Named(cuts, k - 1, g.name) && Admits(flags, g) && cuts[k - 1] == CutOf(g)
    ensures CheckFlags(flags, cuts, k).Fine?
    ensures FlagValues(cuts, k) == FlagValues(cuts, k - 1)[g.name := if g.Valued? then g.value else ""]
  {
    ValuesAreNamed(cuts, k - 1, g.name);
  }

  lemma {:induction false} RenderedFlags(flags: seq<FlagSpec>, gs: seq<Given>, cuts: seq<Cut>, k: nat)
    requires AdmissibleFlags(flags, gs) && k <= |gs| == |cuts| && forall i :: 0 <= i < |gs| ==> cuts[i] == CutOf(gs[i])
    ensures CheckFlags(flags, cuts, k).Fine? && FlagValues(cuts, k) == ValuesOf(gs, k)
  {
    if k > 0 {
      RenderedFlags(flags, gs, cuts, k - 1);
      assert !Named(cuts, k - 1, gs[k - 1].name) by {
        assert forall i :: 0 <= i < k - 1 ==> cuts[i].before == gs[i].name;
      }
      FineStep(flags, cuts, k, gs[k - 1]);
    }
  }

  /** A registry whose action words are not themselves flags and are listed once. */
  ghost predicate PlainWords(cmd: Command) {
    && (forall i :: 0 <= i < |cmd.subs| ==> !HasPrefix(cmd.subs[i].0, DASHES))
    && (forall i, j :: 0 <= i < j < |cmd.subs| ==> cmd.subs[i].0 != cmd.subs[j].0)
  }

  /** For any action of any registry with any admissible flags and arguments, the line
      that spells it out is split and parsed back to exactly that action. */
  lemma RenderedLineParsesBack(reg: Registry, word: string, sub: Sub, gs: seq<Given>, args: seq<string>)
    requires word in reg && PlainWords(reg[word]) && (sub.SubAt? ==> sub.index < |reg[word].subs|)
    requires var spec := SpecOf(reg[word], sub);
             spec.runs && AdmissibleFlags(AllFlags(spec), gs) && |args| <= |spec.args|
    ensures var cmd := reg[word];
            var tokens := Render(word, cmd, sub, gs, args);
            && Finish(EatAll(START, QuoteLine(tokens))) == Tokens(tokens)
            && Parse(reg, tokens) == Accepted(Action(cmd, sub, args, ValuesOf(gs, |gs|), "json" in ValuesOf(gs, |gs|)))
  {
    var cmd, tail := reg[word], RenderTail(gs, args);
    QuotedLineSplitsBack(WithWords(word, cmd, sub, tail));
    TailParsesBack(cmd, sub, gs, args);
    WordsParseBack(reg, word, sub, tail);
  }

  lemma WordsParseBack(reg: Registry, word: string, sub: Sub, tail: seq<string>)
    requires word in reg && PlainWords(reg[word]) && (sub.SubAt? ==> sub.index < |reg[word].subs|)
    requires tail != [] && HasPrefix(tail[0], DASHES)
    ensures var tokens := WithWords(word, reg[word], sub, tail); tokens != [] && Parse(reg, tokens) == ParseRest(reg[word], sub, ClassifyAll(tail))
  {
    RenderedWord(reg[word], word, sub, tail);
  }

  lemma TailParsesBack(cmd: Command, sub: Sub, gs: seq<Given>, args: seq<string>)
    requires sub.SubAt? ==> sub.index < |cmd.subs|
    requires var spec := SpecOf(cmd, sub); spec.runs && AdmissibleFlags(AllFlags(spec), gs) && |args| <= |spec.args|
    ensures RenderTail(gs, args) != [] && HasPrefix(RenderTail(gs, args)[0], DASHES)
    ensures ParseRest(cmd, sub, ClassifyAll(RenderTail(gs, args))) == Accepted(Action(cmd, sub, args, ValuesOf(gs, |gs|), "json" in ValuesOf(gs, |gs|)))
  {
    AdmissibleIsSpellable(AllFlags(SpecOf(cmd, sub)), gs);
    RenderedTailReads(gs, args);
    RenderedRest(cmd, sub, gs, args, ClassifyAll(RenderTail(gs, args)));
  }

  lemma RenderedTailReads(gs: seq<Given>, args: seq<string>)
    requires forall i :: 0 <= i < |gs| ==> Spellable(gs[i])
    ensures RenderTail(gs, args) != [] && HasPrefix(RenderTail(gs, args)[0], DASHES) && IsTail(ClassifyAll(RenderTail(gs, args)), gs, args)
  {
    TailIndex(TokensOf(gs), args, RenderTail(gs, args));
    TailIsSpelled(gs, args, RenderTail(gs, args));
  }

  /** The classified tail: the flags, "--" and the arguments. */
  ghost predicate IsTail(toks: seq<Token>, gs: seq<Given>, args: seq<string>) {
    && Spells(toks, gs) && |toks| == |gs| + 1 + |args| && toks[|gs|].Dashes?
    && forall i :: 0 <= i < |args| ==> toks[|gs| + 1 + i].text == args[i]
  }

  /** The tokens of a tail: the flags, "--" and the arguments. */
  ghost predicate IsWritten(tail: seq<string>, gs: seq<Given>, args: seq<string>) {
    && |tail| == |gs| + 1 + |args| && tail[|gs|] == DASHES
    && (forall i :: 0 <= i < |gs| ==> tail[i] == TokenOf(gs[i]))
    && (forall i :: 0 <= i < |args| ==> tail[|gs| + 1 + i] == args[i])
  }

  lemma TailIsSpelled(gs: seq<Given>, args: seq<string>, tail: seq<string>)
    requires IsWritten(tail, gs, args) && forall i :: 0 <= i < |gs| ==> Spellable(gs[i])
    ensures HasPrefix(tail[0], DASHES) && IsTail(ClassifyAll(tail), gs, args)
  {
    forall i | 0 <= i < |gs| ensures HasPrefix(tail[i], DASHES) && ClassifyAll(tail)[i] == Flag(TokenOf(gs[i]), CutOf(gs[i])) {
      TailFlag(tail, gs, i);
    }
    ClassifyDashes();
    TailArgs(tail, args, |gs| + 1);
  }

  lemma TailFlag(tail: seq<string>, gs: seq<Given>, i: nat)
    requires i < |gs| && i < |tail| && tail[i] == TokenOf(gs[i]) && Spellable(gs[i])
    ensures HasPrefix(tail[i], DASHES) && ClassifyAll(tail)[i] == Flag(TokenOf(gs[i]), CutOf(gs[i]))
  {
    TokenReadsBack(gs[i]);
  }

  lemma TailArgs(tail: seq<string>, args: seq<string>, k: nat)
    requires |tail| == k + |args| && forall i :: 0 <= i < |args| ==> tail[k + i] == args[i]
    ensures forall i :: 0 <= i < |args| ==> ClassifyAll(tail)[k + i].text == args[i]
  {
    forall i | 0 <= i < |args| ensures ClassifyAll(tail)[k + i].text == args[i] {
      ClassifyText(tail[k + i]);
    }
  }

  lemma AdmissibleIsSpellable(flags: seq<FlagSpec>, gs: seq<Given>)
    requires AdmissibleFlags(flags, gs)
    ensures forall i :: 0 <= i < |gs| ==> Spellable(gs[i])
  {
    assert forall i :: 0 <= i < |gs| ==> Admits(flags, gs[i]);
  }

  lemma TailIndex(flags: seq<string>, args: seq<string>, tail: seq<string>)
    requires tail == flags + [DASHES] + args
    ensures |tail| == |flags| + 1 + |args| && tail[|flags|] == DASHES
    ensures forall i :: 0 <= i < |flags| ==> tail[i] == flags[i]
    ensures forall i :: 0 <= i < |args| ==> tail[|flags| + 1 + i] == args[i]
  {
  }

  lemma ClassifyDashes()
    ensures Classify(DASHES).Dashes? && HasPrefix(DASHES, DASHES)
  {
  }

  lemma ClassifyText(t: string)
    ensures Classify(t).text == t
  {
  }

  lemma RenderedRest(cmd: Command, sub: Sub, gs: seq<Given>, args: seq<string>, toks: seq<Token>)
    requires (sub.SubAt? ==> sub.index < |cmd.subs|) && IsTail(toks, gs, args)
    requires var spec := SpecOf(cmd, sub); spec.runs && AdmissibleFlags(AllFlags(spec), gs) && |args| <= |spec.args|
    ensures ParseRest(cmd, sub, toks) == Accepted(Action(cmd, sub, args, ValuesOf(gs, |gs|), "json" in ValuesOf(gs, |gs|)))
  {
    RenderedParts(gs, args, toks);
    RenderedFlags(AllFlags(SpecOf(cmd, sub)), gs, FlagsGiven(toks), |gs|);
    JoinFits(SpecOf(cmd, sub).args, args);
  }

  lemma ArgumentRead(toks: seq<Token>, k: nat, i: nat)
    requires k + 1 + i < |toks| && toks[k].Dashes? && !Literal(toks, k) && RawArgs(toks, k) == []
    ensures i < |RawArgs(toks, |toks|)| && RawArgs(toks, |toks|)[i] == toks[k + 1 + i].text
  {
    SplitAtDashes(toks, k, k + 1 + i);
    OneAccountedFor(toks, k + 1 + i);
  }

  lemma RenderedArgs(toks: seq<Token>, k: nat, args: seq<string>)
    requires k < |toks| == k + 1 + |args| && toks[k].Dashes? && !Literal(toks, k) && RawArgs(toks, k) == []
    requires forall i :: 0 <= i < |args| ==> toks[k + 1 + i].text == args[i]
    ensures RawArgs(toks, |toks|) == args
  {
    var raw := RawArgs(toks, |toks|);
    SplitAtDashes(toks, k, |toks|);
    forall i | 0 <= i < |args| ensures raw[i] == args[i] {
      ArgumentRead(toks, k, i);
    }
  }

  lemma RenderedParts(gs: seq<Given>, args: seq<string>, toks: seq<Token>)
    requires IsTail(toks, gs, args)
    ensures RawArgs(toks, |toks|) == args
    ensures |FlagsGiven(toks)| == |gs| && forall i :: 0 <= i < |gs| ==> FlagsGiven(toks)[i] == CutOf(gs[i])
  {
    RenderedTokens(toks, gs, |gs|);
    SplitAtDashes(toks, |gs|, |toks|);
    RenderedArgs(toks, |gs|, args);
  }

  lemma FlagIsNoAction(cmd: Command, rest: seq<string>)
    requires PlainWords(cmd) && rest != [] && HasPrefix(rest[0], DASHES)
    ensures Resolve(cmd, rest) == NoSub
  {
  }

  lemma ActionWordResolves(cmd: Command, i: nat, rest: seq<string>)
    requires PlainWords(cmd) && i < |cmd.subs| && rest != [] && rest[0] == cmd.subs[i].0
    ensures Resolve(cmd, rest) == SubAt(i)
  {
    assert HasPrefix(DASHES, DASHES);
  }

  lemma RenderedWord(cmd: Command, word: string, sub: Sub, tail: seq<string>)
    requires PlainWords(cmd) && (sub.SubAt? ==> sub.index < |cmd.subs|) && tail != [] && HasPrefix(tail[0], DASHES)
    ensures var tokens := WithWords(word, cmd, sub, tail);
            tokens[0] == word && Resolve(cmd, tokens[1..]) == sub && AfterWords(tokens, sub) == tail
  {
    if sub.NoSub? {
      assert ([word] + [] + tail)[1..] == tail;
      FlagIsNoAction(cmd, tail);
    } else {
      var rest := [cmd.subs[sub.index].0] + tail;
      assert ([word] + [cmd.subs[sub.index].0] + tail)[1..] == rest && rest[1..] == tail;
      ActionWordResolves(cmd, sub.index, rest);
    }
  }

  /** Arguments within the declared number are not folded. */
  lemma JoinFits(declared: seq<ArgSpec>, args: seq<string>)
    requires |args| <= |declared|
    ensures JoinRepeated(declared, args) == args
  {
    if declared != [] && declared[|declared| - 1].repeated && |args| == |declared| {
      var last := |declared| - 1;
      assert args[last..] == [args[last]];
      assert args == args[..last] + [args[last]];
    }
  }

  /** A repeated argument means the same whether its words were quoted together or not. */
  lemma QuotedOrNot(declared: seq<ArgSpec>, args: seq<string>)
    requires declared != [] && declared[|declared| - 1].repeated && |args| >= |declared|
    ensures var last := |declared| - 1;
            JoinRepeated(declared, args) == JoinRepeated(declared, args[..last] + [Join(args[last..], " ")])
    ensures |JoinRepeated(declared, args)| == |declared|
  {
    JoinFits(declared, JoinRepeated(declared, args));
  }
}
