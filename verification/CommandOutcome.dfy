/** What becomes of a typed line, said of its tokens alone: when it is accepted, and which
    complaint it draws otherwise. */
module CommandOutcome {
  import opened Basics
  import opened Text
  import opened CommandParser

  // ----- Tokens -----

  predicate TwoDashes(t: string) {
    |t| >= 2 && t[0] == '-' && t[1] == '-'
  }

  lemma DashesPrefix(t: string)
    ensures HasPrefix(t, DASHES) <==> TwoDashes(t)
    ensures TwoDashes(t) ==> t == "--" + t[2..]
  {
    if TwoDashes(t) {
      assert t[..2] == ['-', '-'] == DASHES;
    }
  }

  lemma CutTogether(s: string)
    ensures var c := CutAt(s, '='); '=' !in c.before && s == c.before + if c.found then "=" + c.after else ""
  {
    var c := CutAt(s, '=');
    if c.found {
      assert c.before + ['='] + c.after == c.before + ("=" + c.after);
    }
  }

  /** A token is positional unless it starts with two dashes, ends the flags if it is just
      those, and is otherwise a flag named up to its first '='. */
  lemma ClassifyMeans(t: string)
    ensures var k := Classify(t);
            && k.text == t
            && (k.Plain? <==> !TwoDashes(t)) && (k.Dashes? <==> t == "--")
            && (k.Flag? ==> '=' !in k.cut.before && t == "--" + (k.cut.before + if k.cut.found then "=" + k.cut.after else ""))
  {
    DashesPrefix(t);
    if TwoDashes(t) {
      CutTogether(t[2..]);
    }
  }

  /** A "--" came before token i. */
  predicate AfterDashes(toks: seq<Token>, i: nat)
    requires i <= |toks|
  {
    exists j :: 0 <= j < i && toks[j].Dashes?
  }

  predicate FlagAt(toks: seq<Token>, i: nat)
    requires i < |toks|
  {
    toks[i].Flag? && !AfterDashes(toks, i)
  }

  /** The token is neither a flag nor the "--" that ends them. */
  predicate Positional(toks: seq<Token>, i: nat)
    requires i < |toks|
  {
    toks[i].Plain? || AfterDashes(toks, i)
  }

  function Positionals(toks: seq<Token>, n: nat): set<nat>
    requires n <= |toks|
  {
    set i: nat | i < n && Positional(toks, i)
  }

  /** The declaration that counts, the last of its name, is of this shape. */
  ghost predicate DeclaredAs(flags: seq<FlagSpec>, name: string, value: bool) {
    exists i :: 0 <= i < |flags| && flags[i] == FlagSpec(name, value) && forall j :: i < j < |flags| ==> flags[j].name != name
  }

  ghost predicate GivenBefore(toks: seq<Token>, i: nat, name: string)
    requires i <= |toks|
  {
    exists j :: 0 <= j < i && FlagAt(toks, j) && toks[j].cut.before == name
  }

  /** The complaint e is justified about the flag at i. */
  ghost predicate Objects(flags: seq<FlagSpec>, toks: seq<Token>, i: nat, e: Error)
    requires i < |toks|
  {
    FlagAt(toks, i) &&
    var name, valued := toks[i].cut.before, toks[i].cut.found;
    match e
    case UnknownFlag(n) => n == name && forall f :: f in flags ==> f.name != name
    case NeedsValue(n) => n == name && DeclaredAs(flags, name, true) && !valued
    case TakesNoValue(n) => n == name && DeclaredAs(flags, name, false) && valued
    case GivenTwice(n) => n == name && DeclaredAs(flags, name, valued) && GivenBefore(toks, i, name)
    case _ => false
  }

  /** A flag about which nothing can be said: declared in its shape and not given before. */
  ghost predicate FlagFine(flags: seq<FlagSpec>, toks: seq<Token>, i: nat)
    requires i < |toks|
  {
    FlagAt(toks, i) ==> DeclaredAs(flags, toks[i].cut.before, toks[i].cut.found) && !GivenBefore(toks, i, toks[i].cut.before)
  }

  ghost predicate FlagsFine(flags: seq<FlagSpec>, toks: seq<Token>, n: nat)
    requires n <= |toks|
  {
    forall i :: 0 <= i < n ==> FlagFine(flags, toks, i)
  }

  // ----- The parser's own terms -----

  lemma {:induction false} LiteralIff(toks: seq<Token>, n: nat)
    requires n <= |toks|
    ensures Literal(toks, n) <==> AfterDashes(toks, n)
  {
    if n > 0 {
      LiteralIff(toks, n - 1);
    }
  }

  lemma {:induction false} ArgsAreCounted(toks: seq<Token>, n: nat)
    requires n <= |toks|
    ensures |RawArgs(toks, n)| == |Positionals(toks, n)|
  {
    if n > 0 {
      ArgsAreCounted(toks, n - 1);
      LiteralIff(toks, n - 1);
      assert Positionals(toks, n) == Positionals(toks, n - 1) + if Positional(toks, n - 1) then {n - 1} else {};
    }
  }

  lemma {:induction false} LastDeclaration(flags: seq<FlagSpec>, name: string) returns (i: nat)
    requires Find(flags, name).Declared?
    ensures i < |flags| && flags[i] == Find(flags, name).spec && forall j :: i < j < |flags| ==> flags[j].name != name
    decreases |flags|
  {
    var n := |flags| - 1;
    if flags[n].name == name {
      i := n;
    } else {
      i := LastDeclaration(flags[..n], name);
      assert forall j :: i < j < n ==> flags[..n][j] == flags[j];
    }
  }

  lemma FindIsLast(flags: seq<FlagSpec>, name: string)
    ensures Find(flags, name).Declared? ==> DeclaredAs(flags, name, Find(flags, name).spec.value)
  {
    if Find(flags, name).Declared? {
      var i := LastDeclaration(flags, name);
      assert flags[i] == FlagSpec(name, Find(flags, name).spec.value);
    }
  }

  lemma DeclaredOnce(flags: seq<FlagSpec>, name: string, u: bool, v: bool)
    requires DeclaredAs(flags, name, u) && DeclaredAs(flags, name, v)
    ensures u == v
  {
    var i :| 0 <= i < |flags| && flags[i] == FlagSpec(name, u) && forall j :: i < j < |flags| ==> flags[j].name != name;
    var j :| 0 <= j < |flags| && flags[j] == FlagSpec(name, v) && forall k :: j < k < |flags| ==> flags[k].name != name;
    assert i == j;
  }

  lemma {:induction false} GivenIsNamed(toks: seq<Token>, n: nat, name: string)
    requires n <= |toks|
    ensures var given := CutsOf(FlagTokens(toks, n)); Named(given, |given|, name) <==> GivenBefore(toks, n, name)
  {
    if n > 0 {
      var before, given := CutsOf(FlagTokens(toks, n - 1)), CutsOf(FlagTokens(toks, n));
      GivenIsNamed(toks, n - 1, name);
      LiteralIff(toks, n - 1);
      if FlagAt(toks, n - 1) {
        assert given == before + [toks[n - 1].cut];
        NamedStep(before, toks[n - 1].cut, name);
      } else {
        assert given == before;
      }
    }
  }

  lemma NamedStep(cuts: seq<Cut>, cut: Cut, name: string)
    ensures Named(cuts + [cut], |cuts| + 1, name) <==> Named(cuts, |cuts|, name) || cut.before == name
  {
    if Named(cuts, |cuts|, name) {
      var i :| 0 <= i < |cuts| && cuts[i].before == name;
      assert (cuts + [cut])[i].before == name;
    }
    assert (cuts + [cut])[|cuts|] == cut;
  }

  /** What the parser says about one flag is what can be said of it. */
  lemma FlagChecked(flags: seq<FlagSpec>, toks: seq<Token>, i: nat, given: map<string, string>)
    requires i < |toks| && FlagAt(toks, i)
    requires toks[i].cut.before in given <==> GivenBefore(toks, i, toks[i].cut.before)
    ensures var c := CheckFlag(flags, given, toks[i].cut);
            && (c.Fine? <==> FlagFine(flags, toks, i))
            && (forall e :: c == Bad(e) <==> Objects(flags, toks, i, e))
  {
    var name := toks[i].cut.before;
    FindIsLast(flags, name);
    if Find(flags, name).Declared? {
      var v := Find(flags, name).spec.value;
      if DeclaredAs(flags, name, !v) {
        DeclaredOnce(flags, name, v, !v);
      }
    }
  }

  lemma ChecksNext(flags: seq<FlagSpec>, before: seq<Cut>, cut: Cut)
    requires CheckFlags(flags, before, |before|).Fine?
    ensures CheckFlags(flags, before + [cut], |before| + 1) == CheckFlag(flags, FlagValues(before, |before|), cut)
  {
    SamePrefix(flags, before, before + [cut], |before|);
  }

  lemma NextChecked(flags: seq<FlagSpec>, toks: seq<Token>, n: nat, before: seq<Cut>)
    requires n < |toks| && FlagAt(toks, n) && before == CutsOf(FlagTokens(toks, n)) && CheckFlags(flags, before, |before|).Fine?
    ensures var c := CheckFlags(flags, before + [toks[n].cut], |before| + 1);
            && (c.Fine? <==> FlagFine(flags, toks, n)) && (c.Bad? ==> Objects(flags, toks, n, c.error))
  {
    ChecksNext(flags, before, toks[n].cut);
    GivenIsNamed(toks, n, toks[n].cut.before);
    ValuesAreNamed(before, |before|, toks[n].cut.before);
    FlagChecked(flags, toks, n, FlagValues(before, |before|));
  }

  lemma OneMoreGiven(toks: seq<Token>, n: nat)
    requires n < |toks| && FlagAt(toks, n)
    ensures CutsOf(FlagTokens(toks, n + 1)) == CutsOf(FlagTokens(toks, n)) + [toks[n].cut]
  {
    LiteralIff(toks, n);
  }

  lemma OneMoreChecked(flags: seq<FlagSpec>, toks: seq<Token>, n: nat)
    requires n < |toks| && FlagAt(toks, n)
    requires var before := CutsOf(FlagTokens(toks, n)); CheckFlags(flags, before, |before|).Fine?
    ensures var given := CutsOf(FlagTokens(toks, n + 1)); var c := CheckFlags(flags, given, |given|);
            && (c.Fine? <==> FlagFine(flags, toks, n)) && (c.Bad? ==> Objects(flags, toks, n, c.error))
  {
    OneMoreGiven(toks, n);
    NextChecked(flags, toks, n, CutsOf(FlagTokens(toks, n)));
  }

  lemma {:induction false} FineIffChecked(flags: seq<FlagSpec>, toks: seq<Token>, n: nat)
    requires n <= |toks|
    ensures var given := CutsOf(FlagTokens(toks, n)); CheckFlags(flags, given, |given|).Fine? <==> FlagsFine(flags, toks, n)
  {
    if n > 0 {
      var m := n - 1;
      FineIffChecked(flags, toks, m);
      if !FlagAt(toks, m) {
        LiteralIff(toks, m);
      } else if FlagsFine(flags, toks, m) {
        OneMoreChecked(flags, toks, m);
      } else {
        BadStays(flags, toks, m);
      }
    }
  }

  lemma BadStays(flags: seq<FlagSpec>, toks: seq<Token>, n: nat)
    requires n < |toks|
    requires var before := CutsOf(FlagTokens(toks, n)); CheckFlags(flags, before, |before|).Bad?
    ensures var given := CutsOf(FlagTokens(toks, n + 1)); CheckFlags(flags, given, |given|).Bad?
  {
    var before, given := CutsOf(FlagTokens(toks, n)), CutsOf(FlagTokens(toks, n + 1));
    GivenExtends(toks, n, n + 1);
    SamePrefix(flags, before, given, |before|);
    BadEarlier(flags, given, |before|, |given|);
  }

  /** The complaint about a line's flags is one about the first that deserves any. */
  lemma FirstComplaint(flags: seq<FlagSpec>, toks: seq<Token>, n: nat)
    requires n < |toks| && FlagsFine(flags, toks, n) && !FlagFine(flags, toks, n)
    ensures var given := FlagsGiven(toks); var c := CheckFlags(flags, given, |given|); c.Bad? && Objects(flags, toks, n, c.error)
  {
    FineIffChecked(flags, toks, n);
    OneMoreChecked(flags, toks, n);
    BadStaysBad(flags, toks, n + 1);
  }

  // ----- The outcome -----

  /** The positional tokens fit: no more than declared, or the last takes them all. */
  predicate ArgsFit(declared: seq<ArgSpec>, toks: seq<Token>) {
    |Positionals(toks, |toks|)| <= |declared| || (declared != [] && declared[|declared| - 1].repeated)
  }

  lemma ArgsFitIff(declared: seq<ArgSpec>, toks: seq<Token>)
    ensures |JoinRepeated(declared, RawArgs(toks, |toks|))| <= |declared| <==> ArgsFit(declared, toks)
  {
    ArgsAreCounted(toks, |toks|);
  }

  /** The first flag about which something can be said is what is complained about. */
  ghost predicate FirstIsNamed(r: Result, flags: seq<FlagSpec>, toks: seq<Token>) {
    forall i: nat :: i < |toks| && FlagsFine(flags, toks, i) && !FlagFine(flags, toks, i) ==> r.Rejected? && Objects(flags, toks, i, r.error)
  }

  /** The tokens after the words decide: the action must run, then every flag must be fine,
      then the arguments must fit; the first that fails is what is complained about. */
  ghost predicate Outcome(r: Result, cmd: Command, sub: Sub, toks: seq<Token>)
    requires sub.SubAt? ==> sub.index < |cmd.subs|
  {
    var spec := SpecOf(cmd, sub);
    var flags := AllFlags(spec);
    && (r.Accepted? <==> spec.runs && FlagsFine(flags, toks, |toks|) && ArgsFit(spec.args, toks))
    && (!spec.runs ==> r == Rejected(NeedsAction))
    && (spec.runs ==> FirstIsNamed(r, flags, toks))
    && (spec.runs && FlagsFine(flags, toks, |toks|) && !ArgsFit(spec.args, toks)
        ==> r == Rejected(if sub.NoSub? && cmd.subs != [] then NoSuchAction else TooManyArguments))
    && (r.Accepted? ==> r.action.cmd == cmd && r.action.sub == sub && Carries(r.action, spec.args, toks))
  }

  /** The positional tokens in their order. */
  ghost predicate InOrder(words: seq<string>, toks: seq<Token>) {
    && |words| == |Positionals(toks, |toks|)|
    && forall i: nat :: i < |toks| && Positional(toks, i) ==> |Positionals(toks, i)| < |words| && words[|Positionals(toks, i)|] == toks[i].text
  }

  /** What an accepted line hands to its action: the positional tokens, those too many joined
      with spaces, and each flag with its value. */
  ghost predicate Carries(a: Action, declared: seq<ArgSpec>, toks: seq<Token>) {
    && (exists words :: InOrder(words, toks) && a.args == Folded(declared, words))
    && (forall name :: name in a.flags <==> GivenBefore(toks, |toks|, name))
    && (forall i: nat :: i < |toks| && FlagAt(toks, i) ==> toks[i].cut.before in a.flags && a.flags[toks[i].cut.before] == toks[i].cut.after)
    && (a.json <==> GivenBefore(toks, |toks|, "json"))
  }

  function Folded(declared: seq<ArgSpec>, words: seq<string>): seq<string> {
    if |words| <= |declared| || declared == [] then words
    else words[..|declared| - 1] + [Join(words[|declared| - 1..], " ")]
  }

  lemma RawInOrder(toks: seq<Token>)
    ensures InOrder(RawArgs(toks, |toks|), toks)
  {
    ArgsAreCounted(toks, |toks|);
    forall i: nat | i < |toks| && Positional(toks, i)
      ensures |Positionals(toks, i)| < |RawArgs(toks, |toks|)| && RawArgs(toks, |toks|)[|Positionals(toks, i)|] == toks[i].text
    {
      ArgsAreCounted(toks, i);
      LiteralIff(toks, i);
      OneAccountedFor(toks, i);
    }
  }

  lemma FoldIsJoin(declared: seq<ArgSpec>, words: seq<string>)
    requires |JoinRepeated(declared, words)| <= |declared|
    ensures JoinRepeated(declared, words) == Folded(declared, words)
  {
    if declared != [] && |words| == |declared| {
      JoinFits(declared, words);
    }
  }

  lemma FlagKept(flags: seq<FlagSpec>, toks: seq<Token>, i: nat)
    requires i < |toks| && FlagAt(toks, i)
    requires var given := FlagsGiven(toks); CheckFlags(flags, given, |given|).Fine?
    ensures var given := FlagsGiven(toks);
            toks[i].cut.before in FlagValues(given, |given|) && FlagValues(given, |given|)[toks[i].cut.before] == toks[i].cut.after
  {
    var given := FlagsGiven(toks);
    CheckedOnce(flags, given, |given|);
    LiteralIff(toks, i);
    OneAccountedFor(toks, i);
    assert given[|FlagTokens(toks, i)|] == toks[i].cut;
  }

  lemma AcceptedCarries(cmd: Command, sub: Sub, toks: seq<Token>)
    requires (sub.SubAt? ==> sub.index < |cmd.subs|) && ParseRest(cmd, sub, toks).Accepted?
    ensures Carries(ParseRest(cmd, sub, toks).action, SpecOf(cmd, sub).args, toks)
  {
    var a, spec, given := ParseRest(cmd, sub, toks).action, SpecOf(cmd, sub), FlagsGiven(toks);
    RawInOrder(toks);
    FoldIsJoin(spec.args, RawArgs(toks, |toks|));
    forall name ensures name in a.flags <==> GivenBefore(toks, |toks|, name) {
      ValuesAreNamed(given, |given|, name);
      GivenIsNamed(toks, |toks|, name);
    }
    forall i: nat | i < |toks| && FlagAt(toks, i) ensures toks[i].cut.before in a.flags && a.flags[toks[i].cut.before] == toks[i].cut.after {
      FlagKept(AllFlags(spec), toks, i);
    }
  }

  lemma RestOutcome(cmd: Command, sub: Sub, toks: seq<Token>)
    requires sub.SubAt? ==> sub.index < |cmd.subs|
    ensures Outcome(ParseRest(cmd, sub, toks), cmd, sub, toks)
  {
    var spec, r := SpecOf(cmd, sub), ParseRest(cmd, sub, toks);
    FineIffChecked(AllFlags(spec), toks, |toks|);
    ArgsFitIff(spec.args, toks);
    if r.Accepted? {
      AcceptedCarries(cmd, sub, toks);
    }
    forall i: nat | spec.runs && i < |toks| && FlagsFine(AllFlags(spec), toks, i) && !FlagFine(AllFlags(spec), toks, i)
      ensures r.Rejected? && Objects(AllFlags(spec), toks, i, r.error)
    {
      FirstComplaint(AllFlags(spec), toks, i);
    }
  }

  /** An action takes the flags it declares and, if it answers in JSON, the switch for it. */
  lemma JsonIsASwitch(spec: Spec, name: string, value: bool)
    ensures DeclaredAs(AllFlags(spec), name, value) <==> if spec.json && name == "json" then !value else DeclaredAs(spec.flags, name, value)
  {
    var all, n := AllFlags(spec), |spec.flags|;
    assert forall i :: 0 <= i < n ==> all[i] == spec.flags[i];
    if DeclaredAs(spec.flags, name, value) && !(spec.json && name == "json") {
      var i :| 0 <= i < n && spec.flags[i] == FlagSpec(name, value) && forall j :: i < j < n ==> spec.flags[j].name != name;
      assert all[i] == FlagSpec(name, value);
    }
    if spec.json {
      assert all[n] == FlagSpec("json", false);
    }
  }

  /** The second token is the action word: the first action of that name, if there is one. */
  ghost predicate IsActionWord(cmd: Command, tokens: seq<string>, sub: Sub) {
    match sub
    case SubAt(i) =>
      |tokens| >= 2 && tokens[1] != "--" && i < |cmd.subs| && cmd.subs[i].0 == tokens[1] && forall j :: 0 <= j < i ==> cmd.subs[j].0 != tokens[1]
    case NoSub =>
      |tokens| < 2 || tokens[1] == "--" || forall j :: 0 <= j < |cmd.subs| ==> cmd.subs[j].0 != tokens[1]
  }

  lemma WordIsResolved(cmd: Command, tokens: seq<string>, sub: Sub)
    requires tokens != [] && IsActionWord(cmd, tokens, sub)
    ensures Resolve(cmd, tokens[1..]) == sub
  {
    if |tokens| >= 2 {
      assert tokens[1..][0] == tokens[1];
    }
  }

  /** The tokens after the word, or the two words. */
  function Tail(tokens: seq<string>, sub: Sub): seq<string>
    requires tokens != [] && (sub.SubAt? ==> |tokens| >= 2)
  {
    tokens[if sub.SubAt? then 2 else 1..]
  }

  lemma LineParsed(reg: Registry, tokens: seq<string>, sub: Sub)
    requires tokens != [] && tokens[0] in reg && IsActionWord(reg[tokens[0]], tokens, sub)
    ensures Parse(reg, tokens) == ParseRest(reg[tokens[0]], sub, ClassifyAll(Tail(tokens, sub)))
  {
    WordIsResolved(reg[tokens[0]], tokens, sub);
  }

  lemma UnknownWord(reg: Registry, tokens: seq<string>)
    requires tokens != [] && tokens[0] !in reg
    ensures Parse(reg, tokens) == Rejected(UnknownCommand)
  {
  }

  /** The outcome of every line: an unknown first word is said to be one; otherwise the
      action word, the flags and the number of arguments decide, in that order. */
  lemma LineOutcome(reg: Registry, tokens: seq<string>, sub: Sub)
    requires tokens != [] && (tokens[0] in reg ==> IsActionWord(reg[tokens[0]], tokens, sub))
    ensures tokens[0] !in reg ==> Parse(reg, tokens) == Rejected(UnknownCommand)
    ensures tokens[0] in reg ==> Outcome(Parse(reg, tokens), reg[tokens[0]], sub, ClassifyAll(Tail(tokens, sub)))
  {
    if tokens[0] in reg {
      LineParsed(reg, tokens, sub);
      RestOutcome(reg[tokens[0]], sub, ClassifyAll(Tail(tokens, sub)));
    } else {
      UnknownWord(reg, tokens);
    }
  }
}
