/** The proxy's decision: which VM and port a request is forwarded to, if any. */
module Proxy {
  import opened Text
  import opened Basics
  import opened HostNames
  import opened AliasNames
  import opened AccessTable

  // ----- What a query may see -----

  datatype Vm = Vm(id: string, row: Container)

  /** One query's view: the tables at that moment with the VMs in some order, or an
      error. Writers may run between the queries of one request, so each has its own. */
  datatype View = Saw(db: Db, vms: seq<Vm>) | Broke

  ghost predicate Listing(db: Db, vms: seq<Vm>) {
    && (forall i, j :: 0 <= i < j < |vms| ==> vms[i].id != vms[j].id)
    && (forall i :: 0 <= i < |vms| ==> vms[i].id in db.containers && db.containers[vms[i].id] == vms[i].row)
    && (forall id :: id in db.containers ==> Vm(id, db.containers[id]) in vms)
  }

  ghost predicate Credible(v: View) {
    v.Saw? ==> Reachable(v.db) && Listing(v.db, v.vms)
  }

  datatype Fetch = Found(vm: Vm) | NoRows | Failed

  predicate Accessible(db: Db, user: string, vm: Vm) {
    vm.row.owner == user || (vm.id, user) in db.access
  }

  function ListAccessible(db: Db, vms: seq<Vm>, user: string): (r: seq<Vm>)
    ensures forall vm :: vm in r <==> vm in vms && Accessible(db, user, vm)
  {
    if vms == [] then []
    else
      var front, last := ListAccessible(db, vms[..|vms| - 1], user), vms[|vms| - 1];
      assert vms == vms[..|vms| - 1] + [last];
      if Accessible(db, user, last) then front + [last] else front
  }

  /** The VMs of that name, in order. */
  function Named(vms: seq<Vm>, name: string): (r: seq<Vm>)
    ensures forall vm :: vm in r <==> vm in vms && vm.row.name == name
  {
    if vms == [] then []
    else
      var front, last := Named(vms[..|vms| - 1], name), vms[|vms| - 1];
      assert vms == vms[..|vms| - 1] + [last];
      if last.row.name == name then front + [last] else front
  }

  /** The one VM of that name; a second makes the name ambiguous. */
  function Unique(vms: seq<Vm>, name: string): Fetch {
    var named := Named(vms, name);
    if named == [] then NoRows else if |named| == 1 then Found(named[0]) else Failed
  }

  method UniqueAccessibleName(vms: seq<Vm>, name: string) returns (r: Fetch)
    ensures r == Unique(vms, name)
  {
    r := NoRows;
    for i := 0 to |vms|
      invariant r == Unique(vms[..i], name) && !r.Failed?
    {
      NamedStep(vms, name, i);
      if vms[i].row.name == name {
        if r.Found? {
          NamedGrows(vms, name, i + 1);
          return Failed;
        }
        r := Found(vms[i]);
      }
    }
    assert vms[..|vms|] == vms;
  }

  lemma NamedStep(vms: seq<Vm>, name: string, i: nat)
    requires i < |vms|
    ensures Named(vms[..i + 1], name) == Named(vms[..i], name) + if vms[i].row.name == name then [vms[i]] else []
  {
    assert vms[..i + 1][..i] == vms[..i];
  }

  lemma {:induction false} NamedGrows(vms: seq<Vm>, name: string, n: nat)
    requires n <= |vms|
    ensures |Named(vms[..n], name)| <= |Named(vms, name)|
    decreases |vms| - n
  {
    if n == |vms| {
      assert vms[..n] == vms;
    } else {
      NamedStep(vms, name, n);
      NamedGrows(vms, name, n + 1);
    }
  }

  lemma {:induction false} FiltersKeepDistinct(db: Db, vms: seq<Vm>, user: string, name: string)
    requires Distinct(vms)
    ensures Distinct(ListAccessible(db, vms, user)) && Distinct(Named(vms, name))
  {
    if vms != [] {
      assert vms[|vms| - 1] !in vms[..|vms| - 1];
      FiltersKeepDistinct(db, vms[..|vms| - 1], user, name);
    }
  }

  /** A user's name for a VM resolves to it exactly when it is the only VM of that name
      the user owns or was granted, whatever order the rows come in. */
  lemma ResolvedIffOnlyOne(db: Db, vms: seq<Vm>, user: string, name: string, vm: Vm)
    requires Listing(db, vms)
    ensures Unique(ListAccessible(db, vms, user), name) == Found(vm) <==>
            && vm in vms && Accessible(db, user, vm) && vm.row.name == name
            && forall other :: other in vms && Accessible(db, user, other) && other.row.name == name ==> other == vm
  {
    var list := ListAccessible(db, vms, user);
    FiltersKeepDistinct(db, vms, user, name);
    FiltersKeepDistinct(db, list, user, name);
    SingleOf(Named(list, name), vm);
  }

  lemma SingleOf(named: seq<Vm>, vm: Vm)
    requires Distinct(named)
    ensures |named| == 1 && named[0] == vm <==> vm in named && forall other :: other in named ==> other == vm
  {
    if |named| > 1 {
      assert named[0] != named[1] && named[0] in named && named[1] in named;
    }
    if named != [] {
      assert named[0] in named;
    }
  }

  // ----- The decision -----

  /** What a request brings: the session's user or "", and a share token or "". */
  datatype Request = Request(host: string, user: string, share: string, path: string, html: bool)

  /** The views of the queries a request may make, the clock, and the address the runtime
      reports for a VM without one. */
  datatype Reads = Reads(public: View, link: View, row: View, list: View, grant: View, alias: View, now: int, addr: string)

  ghost predicate CredibleReads(rd: Reads) {
    && Credible(rd.public) && Credible(rd.link) && Credible(rd.row) && Credible(rd.list) && Credible(rd.grant) && Credible(rd.alias)
  }

  datatype Outcome =
    | BadHost | UnknownHost | NotFound | Forbidden | Unauthorized | Login | InternalError | Unavailable
    | AgentUpdate(vm: Vm) | Forwarded(vm: Vm, port: int)

  function ByNameOnly(v: View, name: string): Fetch {
    if v.Broke? then Failed else if Named(v.vms, name) == [] then NoRows else Found(Named(v.vms, name)[0])
  }

  function ById(v: View, id: string): Fetch {
    if v.Broke? then Failed else if id in v.db.containers then Found(Vm(id, v.db.containers[id])) else NoRows
  }

  function ByName(v: View, name: string, user: string): Fetch {
    if v.Broke? then Failed else Unique(ListAccessible(v.db, v.vms, user), name)
  }

  /** A share link that has not expired. */
  function LiveLink(v: View, token: string, now: int): Option<Link> {
    if v.Broke? || token !in v.db.links then None
    else
      var link := v.db.links[token];
      if link.expires.Some? && link.expires.value <= now then None else Some(link)
  }

  predicate CanUse(v: View, id: string, user: string) {
    && v.Saw? && id in v.db.containers && user in v.db.people.users
    && (v.db.containers[id].owner == user || (id, user) in v.db.access)
  }

  /** Only a running VM with a known address is forwarded to. */
  function Send(vm: Vm, port: int, addr: string): Outcome {
    if !vm.row.running || (vm.row.ip == "" && addr == "") then Unavailable else Forwarded(vm, port)
  }

  const VERSION_CHECK := "/version-check"
  const UPGRADE := "/upgrade"

  predicate Published(route: Route, req: Request, rd: Reads) {
    && route.kind == App && route.port == 0 && req.user == ""
    && var f := ByNameOnly(rd.public, route.name); f.Found? && f.vm.row.appPublic
  }

  function DecideRoute(route: Route, req: Request, rd: Reads): Outcome {
    if Published(route, req, rd) then
      var vm := ByNameOnly(rd.public, route.name).vm;
      Send(vm, vm.row.appPort, rd.addr)
    else if req.share != "" && route.kind == Agent then Forbidden
    else if req.share != "" then
      var link := LiveLink(rd.link, req.share, rd.now);
      if link.None? then Forbidden
      else
        match ById(rd.row, link.value.container)
        case NoRows => Forbidden
        case Failed => InternalError
        case Found(vm) => if vm.row.name != route.name then Forbidden else Admit(route, req, vm, rd)
    else if req.user != "" then
      match ByName(rd.list, route.name, req.user)
      case NoRows => NotFound
      case Failed => InternalError
      case Found(vm) => Admit(route, req, vm, rd)
    else if req.html then Login
    else Unauthorized
  }

  /** The VM is known; what is left is the agent's own updates, a grant withdrawn since,
      and the port. */
  function Admit(route: Route, req: Request, vm: Vm, rd: Reads): Outcome {
    if route.kind == Agent && (req.path == VERSION_CHECK || req.path == UPGRADE) then
      if vm.row.owner != req.user && req.path == UPGRADE then Forbidden else AgentUpdate(vm)
    else if req.user != "" && vm.row.owner != req.user && req.share == "" && !CanUse(rd.grant, vm.id, req.user) then Forbidden
    else Send(vm, if route.kind == Agent then AGENT_PORT else if route.port != 0 then route.port else vm.row.appPort, rd.addr)
  }

  function DecideAlias(host: string, req: Request, rd: Reads): Outcome {
    var name := LookupName(host);
    if rd.alias.Broke? then InternalError
    else if name !in rd.alias.db.aliases then UnknownHost
    else
      match ById(rd.row, rd.alias.db.aliases[name])
      case NoRows => UnknownHost
      case Failed => InternalError
      case Found(vm) =>
        if vm.row.appPublic then Send(vm, vm.row.appPort, rd.addr)
        else
          var link := LiveLink(rd.link, req.share, rd.now);
          if req.share != "" && link.Some? && link.value.container == vm.id then Send(vm, vm.row.appPort, rd.addr) else Forbidden
  }

  function Decide(domain: string, req: Request, rd: Reads): Outcome {
    DecideHost(ExtractSubdomain(domain, req.host), AliasHost(req.host), ToLower(domain), req, rd)
  }

  /** The decision for a host that parses as a VM host or is looked up as a custom one. */
  function DecideHost(info: Option<Route>, host: string, domain: string, req: Request, rd: Reads): Outcome {
    match info
    case Some(route) => DecideRoute(route, req, rd)
    case None => if Under(host, domain) then BadHost else DecideAlias(host, req, rd)
  }

  /** A VM host is decided without a look at the custom domains: no row there can take
      over or withhold a VM's own host, whatever the domain is. */
  lemma VmHostsIgnoreAliases(domain: string, req: Request, rd: Reads, other: View)
    requires ExtractSubdomain(domain, req.host).Some?
    ensures Decide(domain, req, rd) == Decide(domain, req, rd.(alias := other))
  {
    RouteIgnoresAliases(ExtractSubdomain(domain, req.host).value, req, rd, rd.(alias := other));
  }

  lemma RouteIgnoresAliases(route: Route, req: Request, rd: Reads, rd': Reads)
    requires rd' == rd.(alias := rd'.alias)
    ensures DecideRoute(route, req, rd) == DecideRoute(route, req, rd')
  {
    assert Published(route, req, rd) == Published(route, req, rd');
    assert forall vm :: Admit(route, req, vm, rd) == Admit(route, req, vm, rd');
  }

  // ----- Who is let in -----

  /** How a request came to be forwarded: by publication, by a share link, or by a user
      who owns the VM or holds a grant that was still there when it was looked at again. */
  ghost predicate ByPublication(req: Request, vm: Vm) {
    req.user == "" && vm.row.appPublic
  }

  ghost predicate ByShare(req: Request, vm: Vm, rd: Reads) {
    req.share != "" && LinkOpens(rd, req.share, vm.id)
  }

  /** The token names a link to this VM that has not expired. */
  ghost predicate LinkOpens(rd: Reads, token: string, id: string) {
    && rd.link.Saw? && token in rd.link.db.links && rd.link.db.links[token].container == id
    && (rd.link.db.links[token].expires.None? || rd.now < rd.link.db.links[token].expires.value)
  }

  ghost predicate ByUser(req: Request, vm: Vm, rd: Reads) {
    && req.user != "" && req.share == ""
    && (vm.row.owner == req.user || (rd.list.Saw? && (vm.id, req.user) in rd.list.db.access && StillGranted(rd, req.user, vm.id)))
  }

  /** The user is there and may use the VM when it is looked at again. */
  ghost predicate StillGranted(rd: Reads, user: string, id: string) {
    && rd.grant.Saw? && id in rd.grant.db.containers && user in rd.grant.db.people.users
    && (rd.grant.db.containers[id].owner == user || (id, user) in rd.grant.db.access)
  }

  lemma RowsAreValid(v: View, vm: Vm)
    requires Credible(v) && v.Saw? && (vm in v.vms || (vm.id in v.db.containers && v.db.containers[vm.id] == vm.row))
    ensures ValidAppPort(vm.row.appPort)
  {
    var ops :| Run(ops) == v.db;
    RunsKeepInv(ops);
  }

  lemma FoundIsValid(v: View, f: Fetch, name: string, user: string, id: string)
    requires Credible(v) && f.Found? && (f == ByNameOnly(v, name) || f == ByName(v, name, user) || f == ById(v, id))
    ensures ValidAppPort(f.vm.row.appPort)
    ensures f == ByName(v, name, user) ==> v.Saw? && Accessible(v.db, user, f.vm) && f.vm.row.name == name
    ensures f == ByNameOnly(v, name) ==> f.vm.row.name == name
  {
    if f == ById(v, id) {
      RowsAreValid(v, f.vm);
    } else if f == ByNameOnly(v, name) {
      assert f.vm in Named(v.vms, name);
      RowsAreValid(v, f.vm);
    }
    if f == ByName(v, name, user) {
      assert f.vm in Named(ListAccessible(v.db, v.vms, user), name);
      RowsAreValid(v, f.vm);
    }
  }

  /** On a VM host, whatever writers did between the queries: the agent's port is reached
      exactly by agent routes, and then only for a session user who owns the VM or was
      granted it, without a share token; every other forward uses a valid port, and
      publication opens the bare host alone. */
  lemma RouteForwardIsAuthorised(route: Route, req: Request, rd: Reads)
    requires CredibleReads(rd) && DecideRoute(route, req, rd).Forwarded? && (route.port == 0 || ValidAppPort(route.port))
    ensures var o := DecideRoute(route, req, rd);
            && o.vm.row.name == route.name && o.vm.row.running
            && (o.port == AGENT_PORT <==> route.kind == Agent)
            && (route.kind == Agent ==> ByUser(req, o.vm, rd))
            && (route.kind == App ==> ValidAppPort(o.port) && o.port == if route.port != 0 then route.port else o.vm.row.appPort)
            && (ByUser(req, o.vm, rd) || ByShare(req, o.vm, rd) || (ByPublication(req, o.vm) && route == Route(o.vm.row.name, App, 0)))
  {
    if Published(route, req, rd) {
      FoundIsValid(rd.public, ByNameOnly(rd.public, route.name), route.name, "", "");
    } else if req.share != "" {
      var id := LiveLink(rd.link, req.share, rd.now).value.container;
      FoundIsValid(rd.row, ById(rd.row, id), "", "", id);
    } else {
      FoundIsValid(rd.list, ByName(rd.list, route.name, req.user), route.name, req.user, "");
    }
  }

  /** The access rule over every host and every reachable state. */
  lemma AgentPortIsGuarded(domain: string, req: Request, rd: Reads)
    requires CredibleReads(rd) && Decide(domain, req, rd).Forwarded?
    ensures var o, route := Decide(domain, req, rd), ExtractSubdomain(domain, req.host);
            && (o.port == AGENT_PORT ==> route.Some? && route.value.kind == Agent && ByUser(req, o.vm, rd))
            && (o.port != AGENT_PORT ==> ValidAppPort(o.port))
            && (route.None? ==> o.port == o.vm.row.appPort && (o.vm.row.appPublic || ByShare(req, o.vm, rd)))
  {
    match ExtractSubdomain(domain, req.host)
    case Some(route) =>
      ParsedRouteIsValid(domain, req.host);
      RouteForwardIsAuthorised(route, req, rd);
    case None =>
      var id := rd.alias.db.aliases[AliasLookup(req.host)];
      FoundIsValid(rd.row, ById(rd.row, id), "", "", id);
  }

  /** On tables that stand still, a signed-in user without a share token reaches the agent
      of a VM exactly when it is the only VM of that name they own or were granted, their
      account exists if they are not its owner, and the VM is up. */
  lemma AgentReachedIff(name: string, req: Request, rd: Reads, vm: Vm)
    requires rd.list.Saw? && rd.grant == rd.list && Listing(rd.list.db, rd.list.vms)
    requires req.user != "" && req.share == "" && req.path != VERSION_CHECK && req.path != UPGRADE
    ensures var db, vms := rd.list.db, rd.list.vms;
            DecideRoute(Route(name, Agent, 0), req, rd) == Forwarded(vm, AGENT_PORT) <==>
            && vm in vms && Accessible(db, req.user, vm) && vm.row.name == name
            && (forall other :: other in vms && Accessible(db, req.user, other) && other.row.name == name ==> other == vm)
            && (vm.row.owner == req.user || req.user in db.people.users)
            && vm.row.running && (vm.row.ip != "" || rd.addr != "")
  {
    ResolvedIffOnlyOne(rd.list.db, rd.list.vms, req.user, name, vm);
    var f := ByName(rd.list, name, req.user);
    if f.Found? {
      ResolvedIffOnlyOne(rd.list.db, rd.list.vms, req.user, name, f.vm);
    }
  }

  /** Only the owner's request starts an upgrade of the agent, and never with a share token. */
  lemma UpgradeIsTheOwners(domain: string, req: Request, rd: Reads)
    requires CredibleReads(rd) && Decide(domain, req, rd).AgentUpdate?
    ensures var vm := Decide(domain, req, rd).vm;
            && req.user != "" && req.share == "" && rd.list.Saw? && Accessible(rd.list.db, req.user, vm)
            && (req.path == UPGRADE ==> vm.row.owner == req.user)
  {
    match ExtractSubdomain(domain, req.host)
    case Some(route) => RouteUpdate(route, req, rd);
    case None =>
  }

  lemma RouteUpdate(route: Route, req: Request, rd: Reads)
    requires CredibleReads(rd) && DecideRoute(route, req, rd).AgentUpdate?
    ensures var vm := DecideRoute(route, req, rd).vm;
            && req.user != "" && req.share == "" && rd.list.Saw? && Accessible(rd.list.db, req.user, vm)
            && (req.path == UPGRADE ==> vm.row.owner == req.user)
  {
    FoundIsValid(rd.list, ByName(rd.list, route.name, req.user), route.name, req.user, "");
  }

  /** A forward that neither publication nor a session explains. */
  ghost predicate AdmittedByShare(info: Option<Route>, req: Request, rd: Reads, o: Outcome) {
    o.Forwarded? && req.share != "" && if info.Some? then !Published(info.value, req, rd) else !o.vm.row.appPublic
  }

  // ----- The handler -----

  const USER_HEADER := "X-ExeDev-Userid"
  const EMAIL_HEADER := "X-ExeDev-Email"
  const SHARE := "share"

  /** A request while it is handled: its headers and query change before it is sent on. */
  class Exchange {
    const host: string
    const path: string
    const html: bool
    const user: string
    const cookie: string
    var headers: map<string, string>
    var query: map<string, string>
    var handedOut: string

    constructor (host: string, path: string, html: bool, user: string, cookie: string, headers: map<string, string>, query: map<string, string>)
      ensures this.host == host && this.path == path && this.html == html && this.user == user && this.cookie == cookie
      ensures this.headers == headers && this.query == query && handedOut == ""
    {
      this.host, this.path, this.html, this.user, this.cookie := host, path, html, user, cookie;
      this.headers, this.query, handedOut := headers, query, "";
    }

    function QueryToken(): string
      reads this
    {
      if SHARE in query then query[SHARE] else ""
    }

    function ShareToken(): string
      reads this
    {
      if QueryToken() != "" then QueryToken() else cookie
    }

    function Facts(): Request
      reads this
    {
      Request(host, user, ShareToken(), path, html)
    }

    method AcceptShareCookie(token: string)
      modifies this
      ensures headers == old(headers)
      ensures if old(QueryToken()) != "" then handedOut == token && query == old(query) - {SHARE} else handedOut == old(handedOut) && query == old(query)
    {
      if QueryToken() == "" {
        return;
      }
      handedOut := token;
      query := query - {SHARE};
    }

    /** The workload never sees an identity header, nor the share token it was opened with;
        the agent sees the session's user and no one else. */
    method ServeHTTP(domain: string, rd: Reads) returns (o: Outcome)
      modifies this
      ensures var token := if SHARE in old(query) && old(query)[SHARE] != "" then old(query)[SHARE] else cookie;
              o == Decide(domain, Request(host, user, token, path, html), rd)
      ensures o.Forwarded? ==> headers == Cleaned(old(headers), ExtractSubdomain(domain, host))
      ensures AdmittedByShare(ExtractSubdomain(domain, host), old(Facts()), rd, o) ==>
                QueryToken() == "" && (old(QueryToken()) != "" ==> handedOut == old(QueryToken()))
    {
      o := ServeHost(ExtractSubdomain(domain, host), AliasHost(host), ToLower(domain), rd);
    }

    /** The headers as they are sent on: only the agent is told who the session's user is. */
    function Cleaned(sent: map<string, string>, info: Option<Route>): (r: map<string, string>)
      ensures "X-ExeDev-Email" !in r && ("X-ExeDev-Userid" in r <==> info.Some? && info.value.kind == Agent)
      ensures "X-ExeDev-Userid" in r ==> r["X-ExeDev-Userid"] == user
      ensures forall h :: h != "X-ExeDev-Userid" && h != "X-ExeDev-Email" ==> (h in r <==> h in sent) && (h in r ==> r[h] == sent[h])
    {
      (sent - {USER_HEADER, EMAIL_HEADER}) + if info.Some? && info.value.kind == Agent then map[USER_HEADER := user] else map[]
    }

    method ServeHost(info: Option<Route>, h: string, domain: string, rd: Reads) returns (o: Outcome)
      modifies this
      ensures o == DecideHost(info, h, domain, old(Facts()), rd)
      ensures o.Forwarded? ==> headers == Cleaned(old(headers), info)
      ensures AdmittedByShare(info, old(Facts()), rd, o) ==>
                QueryToken() == "" && (old(QueryToken()) != "" ==> handedOut == old(QueryToken()))
    {
      if info.None? {
        if Under(h, domain) {
          return BadHost;
        }
        o := ServeAlias(h, rd);
      } else {
        o := ServeRoute(info.value, rd);
      }
    }

    method ServeRoute(route: Route, rd: Reads) returns (o: Outcome)
      modifies this
      ensures o == DecideRoute(route, old(Facts()), rd)
      ensures o.Forwarded? ==> headers == (old(headers) - {USER_HEADER, EMAIL_HEADER}) + if route.kind == Agent then map[USER_HEADER := user] else map[]
      ensures o.Forwarded? && old(ShareToken()) != "" && !Published(route, old(Facts()), rd) ==>
                QueryToken() == "" && (old(QueryToken()) != "" ==> handedOut == old(QueryToken()))
    {
      headers := headers - {USER_HEADER, EMAIL_HEADER};
      if route.kind == App && route.port == 0 && user == "" {
        var public := ByNameOnly(rd.public, route.name);
        if public.Found? && public.vm.row.appPublic {
          return Send(public.vm, public.vm.row.appPort, rd.addr);
        }
      }
      var share := ShareToken();
      if share != "" && route.kind == Agent {
        return Forbidden;
      }
      var fetched: Fetch;
      if share != "" {
        var link := LiveLink(rd.link, share, rd.now);
        if link.None? {
          return Forbidden;
        }
        fetched := ById(rd.row, link.value.container);
        if fetched.NoRows? {
          return Forbidden;
        }
        if fetched.Failed? {
          return InternalError;
        }
        if fetched.vm.row.name != route.name {
          return Forbidden;
        }
        AcceptShareCookie(share);
      } else if user != "" {
        var list := [];
        if rd.list.Saw? {
          list := ListAccessible(rd.list.db, rd.list.vms, user);
          fetched := UniqueAccessibleName(list, route.name);
        } else {
          fetched := Failed;
        }
        if fetched.NoRows? {
          return NotFound;
        }
        if fetched.Failed? {
          return InternalError;
        }
        if route.kind == Agent {
          headers := headers[USER_HEADER := user];
        }
      } else {
        return if html then Login else Unauthorized;
      }
      o := AdmitTo(route, fetched.vm, share, rd);
    }

    method AdmitTo(route: Route, vm: Vm, share: string, rd: Reads) returns (o: Outcome)
      ensures o == Admit(route, Request(host, user, share, path, html), vm, rd)
    {
      if route.kind == Agent && (path == VERSION_CHECK || path == UPGRADE) {
        if vm.row.owner != user && path == UPGRADE {
          return Forbidden;
        }
        return AgentUpdate(vm);
      }
      if user != "" && vm.row.owner != user && share == "" {
        if !CanUse(rd.grant, vm.id, user) {
          return Forbidden;
        }
      }
      var port := AGENT_PORT;
      if route.kind == App {
        port := vm.row.appPort;
        if route.port != 0 {
          port := route.port;
        }
      }
      return Send(vm, port, rd.addr);
    }

    method ServeAlias(h: string, rd: Reads) returns (o: Outcome)
      modifies this
      ensures o == DecideAlias(h, old(Facts()), rd)
      ensures headers == old(headers) - {USER_HEADER, EMAIL_HEADER}
      ensures o.Forwarded? && !o.vm.row.appPublic ==>
                QueryToken() == "" && (old(QueryToken()) != "" ==> handedOut == old(QueryToken()))
    {
      headers := headers - {USER_HEADER, EMAIL_HEADER};
      if rd.alias.Broke? {
        return InternalError;
      }
      var name := LookupName(h);
      if name !in rd.alias.db.aliases {
        return UnknownHost;
      }
      var fetched := ById(rd.row, rd.alias.db.aliases[name]);
      if fetched.NoRows? {
        return UnknownHost;
      }
      if fetched.Failed? {
        return InternalError;
      }
      var vm := fetched.vm;
      if vm.row.appPublic {
        return Send(vm, vm.row.appPort, rd.addr);
      }
      var token := ShareToken();
      if token != "" {
        var link := LiveLink(rd.link, token, rd.now);
        if link.Some? && link.value.container == vm.id {
          AcceptShareCookie(token);
          return Send(vm, vm.row.appPort, rd.addr);
        }
      }
      return Forbidden;
    }
  }
}
