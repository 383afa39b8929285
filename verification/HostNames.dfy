/** VM names and the hosts that spell a route to a VM. */
module HostNames {
  import opened Text
  import opened Basics

  const AGENT_PORT := 9000
  const DEFAULT_APP_PORT := 3000
  const AGENT_PREFIX := "agent-"

  predicate Alnum(c: char) {
    'a' <= c <= 'z' || '0' <= c <= '9'
  }

  /** A DNS label: letters, digits and inner hyphens, at most 63 of them. */
  predicate IsLabel(s: string) {
    && 1 <= |s| <= 63 && Alnum(s[0]) && Alnum(s[|s| - 1])
    && forall i :: 0 <= i < |s| ==> Alnum(s[i]) || s[i] == '-'
  }

  /** One to five digits and a hyphen at the start. */
  predicate StartsWithPort(s: string) {
    var cut := CutAt(s, '-');
    cut.found && 1 <= |cut.before| <= 5 && AllDigits(cut.before)
  }

  predicate ReservedName(name: string) {
    HasPrefix(name, AGENT_PREFIX) || StartsWithPort(name)
  }

  predicate ValidContainerName(name: string) {
    2 <= |name| <= 63 && IsLabel(name) && !ReservedName(name)
  }

  predicate ValidAppPort(port: int) {
    0 < port <= 65535 && port != AGENT_PORT
  }

  /** One to five digits and a hyphen open the name. */
  predicate PortFirst(name: string) {
    exists k :: 1 <= k <= 5 && k < |name| && name[k] == '-' && forall i :: 0 <= i < k ==> '0' <= name[i] <= '9'
  }

  lemma PortIsFirst(name: string, k: nat)
    requires 1 <= k <= 5 && k < |name| && name[k] == '-' && forall i :: 0 <= i < k ==> '0' <= name[i] <= '9'
    ensures StartsWithPort(name)
  {
    var d := name[..k];
    assert name == d + ['-'] + name[k + 1..];
    CutAround(d, '-', name[k + 1..]);
  }

  lemma PortEnds(name: string) returns (k: nat)
    requires StartsWithPort(name)
    ensures 1 <= k <= 5 && k < |name| && name[k] == '-' && forall i :: 0 <= i < k ==> '0' <= name[i] <= '9'
  {
    var d := CutAt(name, '-').before;
    k := |d|;
    forall i | 0 <= i < k ensures '0' <= name[i] <= '9' {
      assert name[i] == d[i] && IsDigit(d[i]);
    }
  }

  lemma PortFirstIff(name: string)
    ensures StartsWithPort(name) <==> PortFirst(name)
  {
    if StartsWithPort(name) {
      var k := PortEnds(name);
    } else if PortFirst(name) {
      FirstIsPort(name);
    }
  }

  lemma FirstIsPort(name: string)
    requires PortFirst(name)
    ensures StartsWithPort(name)
  {
    var k: nat :| 1 <= k <= 5 && k < |name| && name[k] == '-' && forall i :: 0 <= i < k ==> '0' <= name[i] <= '9';
    PortIsFirst(name, k);
  }

  /** Two to 63 lower-case letters, digits and inner hyphens. */
  predicate NameShaped(name: string) {
    && 2 <= |name| && |name| < 64 && name[0] != '-' && name[|name| - 1] != '-'
    && forall i :: 0 <= i < |name| ==> 'a' <= name[i] <= 'z' || '0' <= name[i] <= '9' || name[i] == '-'
  }

  lemma ShapedIff(name: string)
    ensures 2 <= |name| <= 63 && IsLabel(name) <==> NameShaped(name)
  {
  }

  /** A VM's name is shaped like one and opens neither like an agent's host nor like a port's. */
  lemma NameMeans(name: string)
    ensures ValidContainerName(name) <==> NameShaped(name) && !HasPrefix(name, "agent-") && !PortFirst(name)
  {
    ShapedIff(name);
    PortFirstIff(name);
  }

  /** Any port but 0 and the agent's can be published, and two services have legacy hosts. */
  lemma PortsAndServices(port: int, s: string)
    ensures ValidAppPort(port) <==> (1 <= port < 9000 || 9000 < port < 65536)
    ensures Service("picoclaw") && Service("shelley") && (s != "picoclaw" && s != "shelley" ==> !Service(s))
  {
  }

  // ----- Reading a host -----

  datatype Kind = App | Agent
  datatype Route = Route(name: string, kind: Kind, port: int)

  /** Drops the port of a host with exactly one colon; a bare IPv6 address has more. */
  function HostWithoutPort(host: string): string {
    var cut := CutAt(host, ':');
    if cut.found && ':' !in cut.after then cut.before else host
  }

  function NamedRoute(name: string, kind: Kind, port: int): (r: Option<Route>)
    ensures r.Some? <==> ValidContainerName(name)
    ensures r.Some? ==> r.value == Route(name, kind, port)
  {
    if ValidContainerName(name) then Some(Route(name, kind, port)) else None
  }

  predicate Service(s: string) {
    s == "picoclaw" || s == "shelley"
  }

  /** "{port}-{name}": the name is anything but a line break at this point. */
  predicate PortForm(s: string) {
    StartsWithPort(s) && CutAt(s, '-').after != "" && '\n' !in CutAt(s, '-').after
  }

  function ParsePrefix(prefix: string): Option<Route> {
    var dot, dash := CutAt(prefix, '.'), CutAt(prefix, '-');
    if dot.found then
      if Service(dot.before) then NamedRoute(dot.after, Agent, 0) else None
    else if HasPrefix(prefix, AGENT_PREFIX) then NamedRoute(prefix[|AGENT_PREFIX|..], Agent, 0)
    else if PortForm(prefix) then
      if ValidAppPort(Value(dash.before)) then NamedRoute(dash.after, App, Value(dash.before)) else None
    else NamedRoute(prefix, App, 0)
  }

  /** What stands before the domain. */
  function PrefixUnder(domain: string, h: string): (r: Option<string>)
    ensures r.Some? ==> r.value != "" && h == r.value + ("." + domain)
    ensures r.None? ==> forall p :: h == p + ("." + domain) ==> p == ""
  {
    var suffix := "." + domain;
    if !HasSuffix(h, suffix) || |h| == |suffix| then None
    else
      assert h == h[..|h| - |suffix|] + suffix;
      Some(h[..|h| - |suffix|])
  }

  function ExtractSubdomain(domain: string, host: string): Option<Route> {
    match PrefixUnder(domain, HostWithoutPort(host))
    case None => None
    case Some(prefix) => ParsePrefix(prefix)
  }

  // ----- Writing a host -----

  /** The four ways a VM's hosts are spelled. */
  datatype Form = Bare | OnPort(digits: string) | AgentHost | Legacy(service: string)

  predicate ValidForm(form: Form) {
    match form
    case OnPort(d) => 1 <= |d| <= 5 && AllDigits(d) && ValidAppPort(Value(d))
    case Legacy(s) => Service(s)
    case _ => true
  }

  function Prefix(form: Form, name: string): string {
    match form
    case Bare => name
    case OnPort(d) => d + "-" + name
    case AgentHost => AGENT_PREFIX + name
    case Legacy(s) => s + "." + name
  }

  function RouteOf(form: Form, name: string): Route
    requires ValidForm(form)
  {
    match form
    case Bare => Route(name, App, 0)
    case OnPort(d) => Route(name, App, Value(d))
    case _ => Route(name, Agent, 0)
  }

  lemma ValidNamesAreOneLabel(name: string)
    requires ValidContainerName(name)
    ensures '.' !in name && ':' !in name && '\n' !in name && !HasPrefix(name, AGENT_PREFIX) && !StartsWithPort(name)
  {
  }

  lemma PortPrefixCut(d: string, name: string)
    requires ValidForm(OnPort(d)) && ValidContainerName(name)
    ensures CutAt(d + "-" + name, '-') == Cut(d, name, true) && PortForm(d + "-" + name)
  {
    ValidNamesAreOneLabel(name);
    CutAround(d, '-', name);
    assert d + "-" + name == d + ['-'] + name;
  }

  lemma PortPrefixIsNoOther(d: string, name: string)
    requires ValidForm(OnPort(d)) && ValidContainerName(name)
    ensures !HasPrefix(d + "-" + name, AGENT_PREFIX) && '.' !in d + "-" + name
  {
    ValidNamesAreOneLabel(name);
    assert (d + "-" + name)[0] == d[0] && IsDigit(d[0]);
  }

  lemma PortPrefixParses(d: string, name: string)
    requires ValidForm(OnPort(d)) && ValidContainerName(name)
    ensures ParsePrefix(d + "-" + name) == Some(Route(name, App, Value(d)))
  {
    PortPrefixCut(d, name);
    PortPrefixIsNoOther(d, name);
  }

  lemma AgentPrefixParses(name: string)
    requires ValidContainerName(name)
    ensures ParsePrefix(AGENT_PREFIX + name) == Some(Route(name, Agent, 0))
  {
    var prefix := AGENT_PREFIX + name;
    ValidNamesAreOneLabel(name);
    assert HasPrefix(prefix, AGENT_PREFIX) && prefix[|AGENT_PREFIX|..] == name;
    assert !CutAt(prefix, '.').found;
  }

  lemma LegacyPrefixParses(service: string, name: string)
    requires Service(service) && ValidContainerName(name)
    ensures ParsePrefix(service + "." + name) == Some(Route(name, Agent, 0))
  {
    assert '.' !in service;
    CutAround(service, '.', name);
    assert service + "." + name == service + ['.'] + name;
  }

  lemma SpelledPrefixParses(form: Form, name: string)
    requires ValidForm(form) && ValidContainerName(name)
    ensures ParsePrefix(Prefix(form, name)) == Some(RouteOf(form, name))
  {
    match form
    case Bare =>
      ValidNamesAreOneLabel(name);
      assert !CutAt(name, '.').found;
    case OnPort(d) => PortPrefixParses(d, name);
    case AgentHost => AgentPrefixParses(name);
    case Legacy(s) => LegacyPrefixParses(s, name);
  }

  lemma ParsedPrefixIsSpelled(prefix: string) returns (form: Form, name: string)
    requires ParsePrefix(prefix).Some?
    ensures ValidForm(form) && ValidContainerName(name) && prefix == Prefix(form, name)
    ensures ParsePrefix(prefix).value == RouteOf(form, name)
  {
    var dot, dash := CutAt(prefix, '.'), CutAt(prefix, '-');
    if dot.found {
      form, name := Legacy(dot.before), dot.after;
    } else if HasPrefix(prefix, AGENT_PREFIX) {
      form, name := AgentHost, prefix[|AGENT_PREFIX|..];
      assert prefix == prefix[..|AGENT_PREFIX|] + name;
    } else if PortForm(prefix) {
      form, name := OnPort(dash.before), dash.after;
    } else {
      form, name := Bare, prefix;
    }
  }

  /** A host is routed exactly when it spells a route to a valid name under the domain,
      and then to that route: no host has two readings. */
  lemma HostParsesIffSpelled(domain: string, host: string, route: Route)
    ensures ExtractSubdomain(domain, host) == Some(route) <==>
            exists form, name :: ValidForm(form) && ValidContainerName(name) && RouteOf(form, name) == route
                                 && HostWithoutPort(host) == Prefix(form, name) + ("." + domain)
  {
    if ExtractSubdomain(domain, host) == Some(route) {
      var form, name := ParsedHostIsSpelled(domain, host);
    }
    if form, name :| ValidForm(form) && ValidContainerName(name) && RouteOf(form, name) == route && HostWithoutPort(host) == Prefix(form, name) + ("." + domain) {
      SpelledHostParses(domain, host, form, name);
    }
  }

  lemma ParsedHostIsSpelled(domain: string, host: string) returns (form: Form, name: string)
    requires ExtractSubdomain(domain, host).Some?
    ensures ValidForm(form) && ValidContainerName(name) && RouteOf(form, name) == ExtractSubdomain(domain, host).value
    ensures HostWithoutPort(host) == Prefix(form, name) + ("." + domain)
  {
    var prefix := PrefixUnder(domain, HostWithoutPort(host)).value;
    form, name := ParsedPrefixIsSpelled(prefix);
  }

  lemma OnlyPrefix(prefix: string, domain: string)
    requires prefix != ""
    ensures PrefixUnder(domain, prefix + ("." + domain)) == Some(prefix)
  {
    var h := prefix + ("." + domain);
    assert h[|prefix|..] == "." + domain && h[..|prefix|] == prefix;
  }

  lemma SpelledHostParses(domain: string, host: string, form: Form, name: string)
    requires ValidForm(form) && ValidContainerName(name) && HostWithoutPort(host) == Prefix(form, name) + ("." + domain)
    ensures ExtractSubdomain(domain, host) == Some(RouteOf(form, name))
  {
    var prefix := Prefix(form, name);
    assert prefix != "";
    OnlyPrefix(prefix, domain);
    SpelledPrefixParses(form, name);
  }

  /** A port in decimal is a spelling of it. */
  lemma PortSpelling(port: int)
    requires ValidAppPort(port)
    ensures ValidForm(OnPort(Decimal(port))) && Value(Decimal(port)) == port
  {
    ValueOfDecimal(port);
    DecimalLength(port, 5);
  }

  lemma {:induction false} DecimalLength(n: nat, k: nat)
    requires 0 < k && n < Pow10(k)
    ensures |Decimal(n)| <= k
  {
    if n >= 10 {
      assert k > 1;
      DecimalLength(n / 10, k - 1);
    }
  }

  function Pow10(k: nat): nat {
    if k == 0 then 1 else 10 * Pow10(k - 1)
  }

  predicate OneColon(s: string) {
    CutAt(s, ':').found && ':' !in CutAt(s, ':').after
  }

  lemma PrefixHasNoColon(form: Form, name: string)
    requires ValidForm(form) && ValidContainerName(name)
    ensures ':' !in Prefix(form, name)
  {
    ValidNamesAreOneLabel(name);
    if form.Legacy? {
      assert ':' !in form.service;
    }
  }

  lemma ColonsOfTail(a: string, b: string)
    requires ':' !in a
    ensures CutAt(a + b, ':').found == CutAt(b, ':').found && CutAt(a + b, ':').after == CutAt(b, ':').after
  {
    var cut := CutAt(b, ':');
    if cut.found {
      assert a + b == a + cut.before + [':'] + cut.after;
      CutAround(a + cut.before, ':', cut.after);
    } else {
      assert ':' !in a + b;
    }
  }

  /** Every form of every valid name under the domain parses back to exactly that route,
      if and only if the configured domain does not itself look like "host:port". */
  lemma PrintedHostParsesBack(domain: string, form: Form, name: string)
    requires ValidForm(form) && ValidContainerName(name)
    ensures var host := Prefix(form, name) + ("." + domain);
            ExtractSubdomain(domain, host) == Some(RouteOf(form, name)) <==> !OneColon(domain)
  {
    var prefix, host := Prefix(form, name), Prefix(form, name) + ("." + domain);
    PrefixHasNoColon(form, name);
    ColonsOfTail(prefix + ".", domain);
    assert host == prefix + "." + domain;
    if OneColon(domain) {
      assert ':' !in HostWithoutPort(host);
      assert ':' in "." + domain;
    } else {
      SpelledHostParses(domain, host, form, name);
    }
  }

  /** The ":port" a browser appends makes no difference. */
  lemma PortSuffixIsIgnored(domain: string, form: Form, name: string, port: string)
    requires ':' !in domain && ':' !in port && ValidForm(form) && ValidContainerName(name)
    ensures ExtractSubdomain(domain, Prefix(form, name) + ("." + domain) + [':'] + port) == Some(RouteOf(form, name))
  {
    var host := Prefix(form, name) + ("." + domain);
    PrefixHasNoColon(form, name);
    CutAround(host, ':', port);
    SpelledHostParses(domain, host + [':'] + port, form, name);
  }

  /** Every parsed route has a valid name and, if it names a port, a valid one. */
  lemma ParsedRouteIsValid(domain: string, host: string)
    requires ExtractSubdomain(domain, host).Some?
    ensures var r := ExtractSubdomain(domain, host).value;
            ValidContainerName(r.name) && (r.port == 0 || ValidAppPort(r.port)) && (r.kind == Agent ==> r.port == 0)
  {
    var form, name := ParsedHostIsSpelled(domain, host);
  }
}
