/** Custom-domain hostnames: what may be stored and how a request looks one up. */
module AliasNames {
  import opened Text
  import opened HostNames

  lemma LowerAppend(a: string, b: string)
    ensures ToLower(a + b) == ToLower(a) + ToLower(b)
  {
  }

  function TrimDot(s: string): string {
    if HasSuffix(s, ".") then s[..|s| - 1] else s
  }

  /** A hostname as the alias table's own queries normalise it. */
  function LookupName(h: string): string {
    ToLower(TrimDot(TrimSpace(h)))
  }

  /** A Host header as the proxy normalises it. */
  function AliasHost(host: string): string {
    LookupName(HostWithoutPort(host))
  }

  /** The name a Host header is looked up under: normalised by the proxy, and once more by
      the query. */
  function AliasLookup(host: string): string {
    LookupName(AliasHost(host))
  }

  datatype Reason = Empty | TooLong | NotFull | EmptyLabel | LongLabel | BadLabel | NumericEnd | OwnDomain
  datatype Verdict = Accepted(name: string) | Refused(reason: Reason)

  datatype Complaint = NoComplaint | Complaint(reason: Reason)

  function LabelComplaint(labels: seq<string>): Complaint {
    if labels == [] then NoComplaint
    else if labels[0] == "" then Complaint(EmptyLabel)
    else if |labels[0]| > 63 then Complaint(LongLabel)
    else if !IsLabel(labels[0]) then Complaint(BadLabel)
    else LabelComplaint(labels[1..])
  }

  /** A name in the gateway's own namespace. */
  predicate Under(h: string, domain: string) {
    domain != "" && (h == domain || HasSuffix(h, "." + domain))
  }

  function Normal(typed: string): string {
    TrimDot(ToLower(TrimSpace(typed)))
  }

  function ValidAliasHostname(typed: string, domain: string): Verdict {
    CheckHostname(Normal(typed), ToLower(TrimSpace(domain)))
  }

  function CheckHostname(h: string, domain: string): (v: Verdict)
    ensures v.Accepted? ==> v.name == h && !Under(h, domain)
  {
    if h == "" then Refused(Empty)
    else if |h| > 253 then Refused(TooLong)
    else if '.' !in h then Refused(NotFull)
    else
      var labels := Split(h, '.');
      var complaint := LabelComplaint(labels);
      if complaint.Complaint? then Refused(complaint.reason)
      else if AllDigits(labels[|labels| - 1]) then Refused(NumericEnd)
      else if Under(h, domain) then Refused(OwnDomain)
      else Accepted(h)
  }

  // ----- What an accepted name looks like -----

  predicate HostChar(c: char) {
    Alnum(c) || c == '-' || c == '.'
  }

  ghost predicate Plain(s: string) {
    s != "" && Alnum(s[0]) && Alnum(s[|s| - 1]) && forall i :: 0 <= i < |s| ==> HostChar(s[i])
  }

  lemma {:induction false} LabelsMakePlain(s: string)
    requires LabelComplaint(Split(s, '.')).NoComplaint?
    ensures Plain(s)
    decreases |s|
  {
    var cut := CutAt(s, '.');
    if cut.found {
      var rest := Split(cut.after, '.');
      SplitCut(s, cut.before, cut.after, '.');
      assert ([cut.before] + rest)[1..] == rest;
      LabelsMakePlain(cut.after);
      PlainJoin(cut.before, cut.after);
    }
  }

  lemma PlainJoin(first: string, rest: string)
    requires IsLabel(first) && Plain(rest)
    ensures Plain(first + ['.'] + rest)
  {
  }

  lemma LowerChar(c: char)
    ensures HostChar(c) ==> !IsSpace(c) && Lower(c) == c
    ensures HostChar(Lower(c)) ==> !IsSpace(c) && c != ':'
    ensures Alnum(Lower(c)) ==> c != '.'
  {
  }

  lemma TrimNothing(s: string)
    requires s != "" && !IsSpace(s[0]) && !IsSpace(s[|s| - 1])
    ensures TrimSpace(s) == s
  {
  }

  /** A host whose lower case is plain has nothing to trim. */
  lemma LowerIsPlain(host: string)
    requires Plain(ToLower(host))
    ensures ':' !in host && TrimDot(host) == host && TrimSpace(host) == host && TrimSpace(host + ".") == host + "."
  {
    var n, dotted := |host|, host + ".";
    forall i | 0 <= i < n ensures host[i] != ':' && !IsSpace(host[i]) {
      assert HostChar(ToLower(host)[i]);
      LowerChar(host[i]);
    }
    LowerChar(host[n - 1]);
    assert host[n - 1..] == [host[n - 1]];
    TrimNothing(host);
    assert dotted[0] == host[0] && dotted[n] == '.';
    TrimNothing(dotted);
  }

  lemma PlainIsLower(n: string)
    requires Plain(n)
    ensures ToLower(n) == n
  {
    forall i | 0 <= i < |n| ensures ToLower(n)[i] == n[i] {
      LowerChar(n[i]);
    }
  }

  /** Typing the stored form again gives the stored form. */
  lemma AcceptedIsStable(typed: string, domain: string)
    requires ValidAliasHostname(typed, domain).Accepted?
    ensures var n := ValidAliasHostname(typed, domain).name;
            Plain(n) && ToLower(n) == n && ValidAliasHostname(n, domain) == Accepted(n)
  {
    var n := Normal(typed);
    LabelsMakePlain(n);
    PlainIsLower(n);
    LowerIsPlain(n);
    assert Normal(n) == n;
  }

  /** A stored name is found by a Host header that spells it in any letter case, with or
      without the trailing dot and a port. */
  lemma AcceptedIsFound(typed: string, domain: string, host: string, port: string)
    requires ValidAliasHostname(typed, domain) == Accepted(ToLower(host)) && ':' !in port
    ensures AliasLookup(host) == AliasLookup(host + ".") == AliasLookup(host + [':'] + port) == ToLower(host)
  {
    LabelsMakePlain(ToLower(host));
    PlainIsFound(host, port);
    PlainIsItself(ToLower(host));
  }

  lemma PlainIsItself(n: string)
    requires Plain(n)
    ensures LookupName(n) == n
  {
    PlainIsLower(n);
    LowerIsPlain(n);
  }

  lemma PlainIsFound(host: string, port: string)
    requires Plain(ToLower(host)) && ':' !in port
    ensures AliasHost(host) == AliasHost(host + ".") == AliasHost(host + [':'] + port) == ToLower(host)
  {
    LowerIsPlain(host);
    CutAround(host, ':', port);
    var dotted := host + ".";
    assert dotted[..|host|] == host && dotted[|host|..] == ".";
    assert ':' !in dotted;
  }

  /** A domain written as a name is: not empty, without outer spaces or a trailing dot. */
  predicate Written(domain: string) {
    domain != "" && TrimSpace(domain) == domain && domain[|domain| - 1] != '.'
  }

  /** Whatever the domain, an accepted name is outside it as it is normalised; and when the
      domain is written as a name is, no accepted name is what a VM host is looked up as. */
  lemma AliasNeverShadows(typed: string, domain: string, host: string)
    ensures ValidAliasHostname(typed, domain).Accepted? ==> !Under(ValidAliasHostname(typed, domain).name, ToLower(TrimSpace(domain)))
    ensures Written(domain) && ExtractSubdomain(domain, host).Some? ==>
              Under(AliasLookup(host), ToLower(domain)) && ValidAliasHostname(typed, domain) != Accepted(AliasLookup(host))
  {
    if Written(domain) && ExtractSubdomain(domain, host).Some? {
      RoutedIsUnder(domain, host);
    }
  }

  lemma RoutedIsUnder(domain: string, host: string)
    requires Written(domain) && ExtractSubdomain(domain, host).Some?
    ensures Under(AliasLookup(host), ToLower(domain))
  {
    var prefix := RoutedPrefix(domain, host);
    NothingTrimmed(prefix, domain);
    LowerStaysFirm(prefix + ("." + domain), ToLower(prefix + ("." + domain)));
    LowerTwice(prefix + ("." + domain));
    NothingToTrim(ToLower(prefix + ("." + domain)));
    LowerSuffix(prefix, domain);
  }

  /** Lower case changes neither what is trimmed nor itself. */
  lemma LowerStaysFirm(h: string, low: string)
    requires low == ToLower(h) && h != "" && !IsSpace(h[0]) && !IsSpace(h[|h| - 1]) && h[|h| - 1] != '.'
    ensures low != "" && !IsSpace(low[0]) && !IsSpace(low[|low| - 1]) && low[|low| - 1] != '.'
  {
    LowerKeeps(h[0]);
    LowerKeeps(h[|h| - 1]);
  }

  lemma NothingToTrim(low: string)
    requires low != "" && !IsSpace(low[0]) && !IsSpace(low[|low| - 1]) && low[|low| - 1] != '.' && ToLower(low) == low
    ensures LookupName(low) == low
  {
    TrimNothing(low);
    NoDot(low);
  }

  lemma NoDot(s: string)
    requires s != "" && s[|s| - 1] != '.'
    ensures TrimDot(s) == s
  {
    assert s[|s| - 1..] == [s[|s| - 1]];
  }

  lemma LowerKeeps(c: char)
    ensures IsSpace(Lower(c)) == IsSpace(c) && (Lower(c) == '.' <==> c == '.') && Lower(Lower(c)) == Lower(c)
  {
  }

  lemma LowerTwice(h: string)
    ensures ToLower(ToLower(h)) == ToLower(h)
  {
    forall i | 0 <= i < |h| ensures ToLower(ToLower(h))[i] == ToLower(h)[i] {
      LowerKeeps(h[i]);
    }
  }

  lemma RoutedPrefix(domain: string, host: string) returns (prefix: string)
    requires ExtractSubdomain(domain, host).Some?
    ensures HostWithoutPort(host) == prefix + ("." + domain) && prefix != "" && !IsSpace(prefix[0])
  {
    prefix := PrefixUnder(domain, HostWithoutPort(host)).value;
    RoutedStartsFirm(prefix);
  }

  lemma NothingTrimmed(prefix: string, domain: string)
    requires prefix != "" && !IsSpace(prefix[0]) && Written(domain)
    ensures var h := prefix + ("." + domain); TrimDot(TrimSpace(h)) == h && !IsSpace(h[0]) && !IsSpace(h[|h| - 1]) && h[|h| - 1] != '.'
  {
    var h := prefix + ("." + domain);
    TrimmedEndsFirm(domain);
    assert h[0] == prefix[0] && h[|h| - 1] == domain[|domain| - 1];
    TrimNothing(h);
    assert h[|h| - 1..] == [h[|h| - 1]];
  }

  lemma LowerSuffix(prefix: string, domain: string)
    ensures HasSuffix(ToLower(prefix + ("." + domain)), "." + ToLower(domain))
  {
    LowerAppend(prefix, "." + domain);
    LowerAppend(".", domain);
    assert ToLower(".") == ".";
  }

  lemma RoutedStartsFirm(prefix: string)
    requires ParsePrefix(prefix).Some?
    ensures prefix != "" && !IsSpace(prefix[0])
  {
    var form, name := ParsedPrefixIsSpelled(prefix);
    match form
    case Bare => LowerChar(name[0]);
    case OnPort(d) =>
      assert prefix[0] == d[0] && IsDigit(d[0]);
      LowerChar(d[0]);
    case AgentHost => assert prefix[0] == 'a';
    case Legacy(s) =>
      assert prefix[0] == s[0] && (s[0] == 'p' || s[0] == 's');
  }

  lemma TrimmedEndsFirm(domain: string)
    requires domain != "" && TrimSpace(domain) == domain
    ensures !IsSpace(domain[|domain| - 1])
  {
  }
}
