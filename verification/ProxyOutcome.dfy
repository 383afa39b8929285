/** What becomes of every request, said of the tables its queries saw: who is forwarded
    where, and how everybody else is refused. */
module ProxyOutcome {
  import opened Basics
  import opened Text
  import opened HostNames
  import opened AliasNames
  import opened AccessTable
  import opened Proxy

  // ----- The tables -----

  /** The first row of that name, as a query without an order finds it. */
  ghost predicate FirstOfName(vms: seq<Vm>, name: string, vm: Vm) {
    exists i :: 0 <= i < |vms| && vms[i] == vm && vm.row.name == name && forall j :: 0 <= j < i ==> vms[j].row.name != name
  }

  /** The bare host of a published VM, asked for without a session. */
  ghost predicate PublicVm(route: Route, req: Request, rd: Reads, vm: Vm) {
    && req.user == "" && route.kind == App && route.port == 0
    && rd.public.Saw? && FirstOfName(rd.public.vms, route.name, vm) && vm.row.appPublic
  }

  /** The VM's row as it is read by id. */
  ghost predicate RowIs(rd: Reads, vm: Vm) {
    rd.row.Saw? && vm.id in rd.row.db.containers && rd.row.db.containers[vm.id] == vm.row
  }

  /** A VM of this name which the user owns or was granted. */
  ghost predicate OfUser(rd: Reads, user: string, name: string, vm: Vm)
    requires rd.list.Saw?
  {
    vm in rd.list.vms && vm.row.name == name && (vm.row.owner == user || (vm.id, user) in rd.list.db.access)
  }

  ghost predicate OnlyOne(rd: Reads, user: string, name: string, vm: Vm)
    requires rd.list.Saw?
  {
    OfUser(rd, user, name, vm) && forall other :: OfUser(rd, user, name, other) ==> other == vm
  }

  /** Sent on to a running VM with a known address, and not otherwise. */
  ghost predicate SentTo(o: Outcome, vm: Vm, port: int, rd: Reads) {
    o == if vm.row.running && (vm.row.ip != "" || rd.addr != "") then Forwarded(vm, port) else Unavailable
  }

  function AppPort(route: Route, vm: Vm): int {
    if route.port == 0 then vm.row.appPort else route.port
  }

  // ----- The proxy's own terms -----

  lemma {:induction false} FirstIndex(vms: seq<Vm>, name: string, n: nat) returns (i: nat)
    requires n <= |vms|
    ensures if Named(vms[..n], name) == [] then i == n else i < n && vms[i] == Named(vms[..n], name)[0] && vms[i].row.name == name
    ensures forall j :: 0 <= j < i ==> vms[j].row.name != name
  {
    if n == 0 {
      i := 0;
    } else {
      NamedStep(vms, name, n - 1);
      i := FirstIndex(vms, name, n - 1);
      if i == n - 1 && vms[n - 1].row.name != name {
        i := n;
      }
    }
  }

  lemma FirstNamed(vms: seq<Vm>, name: string)
    ensures Named(vms, name) != [] ==> FirstOfName(vms, name, Named(vms, name)[0])
    ensures Named(vms, name) == [] ==> forall i :: 0 <= i < |vms| ==> vms[i].row.name != name
  {
    var i := FirstIndex(vms, name, |vms|);
    assert vms[..|vms|] == vms;
  }

  lemma FirstIsOne(vms: seq<Vm>, name: string, vm: Vm, other: Vm)
    requires FirstOfName(vms, name, vm) && FirstOfName(vms, name, other)
    ensures vm == other
  {
    var i :| 0 <= i < |vms| && vms[i] == vm && forall j :: 0 <= j < i ==> vms[j].row.name != name;
    var j :| 0 <= j < |vms| && vms[j] == other && forall k :: 0 <= k < j ==> vms[k].row.name != name;
    assert i == j;
  }

  lemma PublishedIff(route: Route, req: Request, rd: Reads, vm: Vm)
    ensures PublicVm(route, req, rd, vm) <==> Published(route, req, rd) && ByNameOnly(rd.public, route.name).vm == vm
  {
    if rd.public.Saw? {
      FirstNamed(rd.public.vms, route.name);
      var named := Named(rd.public.vms, route.name);
      if PublicVm(route, req, rd, vm) {
        assert named != [];
        FirstIsOne(rd.public.vms, route.name, vm, named[0]);
      }
    }
  }

  lemma LiveIff(rd: Reads, token: string, id: string)
    ensures LinkOpens(rd, token, id) <==> LiveLink(rd.link, token, rd.now).Some? && LiveLink(rd.link, token, rd.now).value.container == id
  {
  }

  // ----- VM hosts -----

  /** The bare host of a published VM is open to everybody. */
  lemma PublicOutcome(route: Route, req: Request, rd: Reads, vm: Vm)
    requires PublicVm(route, req, rd, vm)
    ensures SentTo(DecideRoute(route, req, rd), vm, vm.row.appPort, rd)
  {
    PublishedIff(route, req, rd, vm);
  }

  ghost predicate NotPublic(route: Route, req: Request, rd: Reads) {
    forall vm :: !PublicVm(route, req, rd, vm)
  }

  lemma NotPublished(route: Route, req: Request, rd: Reads)
    requires NotPublic(route, req, rd)
    ensures !Published(route, req, rd)
  {
    if Published(route, req, rd) {
      PublishedIff(route, req, rd, ByNameOnly(rd.public, route.name).vm);
    }
  }

  /** The VM a share token opens under this name. */
  ghost predicate ShareVm(rd: Reads, token: string, name: string, vm: Vm) {
    LinkOpens(rd, token, vm.id) && RowIs(rd, vm) && vm.row.name == name
  }

  /** The link is live but its VM's row could not be read. */
  ghost predicate RowUnread(rd: Reads, token: string) {
    rd.row.Broke? && exists id :: LinkOpens(rd, token, id)
  }

  /** A share token opens the workload of the VM whose link it names, under its own name and
      until the link expires, and nothing else; never the agent. */
  lemma ShareOutcome(route: Route, req: Request, rd: Reads)
    requires NotPublic(route, req, rd) && req.share != ""
    ensures var o := DecideRoute(route, req, rd);
            if route.kind == Agent then o == Forbidden
            else if RowUnread(rd, req.share) then o == InternalError
            else if exists vm :: ShareVm(rd, req.share, route.name, vm) then
              forall vm :: ShareVm(rd, req.share, route.name, vm) ==> SentTo(o, vm, AppPort(route, vm), rd)
            else o == Forbidden
  {
    NotPublished(route, req, rd);
    forall id ensures LinkOpens(rd, req.share, id) <==> LiveLink(rd.link, req.share, rd.now).Some? && LiveLink(rd.link, req.share, rd.now).value.container == id {
      LiveIff(rd, req.share, id);
    }
    var link := LiveLink(rd.link, req.share, rd.now);
    assert link.Some? ==> LinkOpens(rd, req.share, link.value.container);
    if link.Some? && rd.row.Saw? && link.value.container in rd.row.db.containers {
      var vm := Vm(link.value.container, rd.row.db.containers[link.value.container]);
      assert vm.row.name == route.name ==> ShareVm(rd, req.share, route.name, vm);
    }
  }

  /** What a user is answered about the only VM of that name they may use: the agent's own
      updates, a grant withdrawn since, or the forward. */
  ghost predicate UserServed(o: Outcome, route: Route, req: Request, rd: Reads, vm: Vm) {
    if route.kind == Agent && req.path == "/upgrade" && vm.row.owner != req.user then o == Forbidden
    else if route.kind == Agent && (req.path == "/upgrade" || req.path == "/version-check") then o == AgentUpdate(vm)
    else if vm.row.owner != req.user && !StillGranted(rd, req.user, vm.id) then o == Forbidden
    else SentTo(o, vm, if route.kind == Agent then 9000 else AppPort(route, vm), rd)
  }

  /** A session without a share token reaches the one VM of that name its user owns or was
      granted; a name that is nobody's is not found and one of several VMs is an error. */
  lemma UserOutcome(route: Route, req: Request, rd: Reads)
    requires req.user != "" && req.share == "" && (rd.list.Saw? ==> Listing(rd.list.db, rd.list.vms))
    ensures var o := DecideRoute(route, req, rd);
            if rd.list.Broke? then o == InternalError
            else if exists vm :: OnlyOne(rd, req.user, route.name, vm) then
              forall vm :: OnlyOne(rd, req.user, route.name, vm) ==> UserServed(o, route, req, rd, vm)
            else if exists vm :: OfUser(rd, req.user, route.name, vm) then o == InternalError
            else o == NotFound
  {
    if rd.list.Saw? {
      var f := ByName(rd.list, route.name, req.user);
      forall vm ensures OnlyOne(rd, req.user, route.name, vm) <==> f == Found(vm) {
        ResolvedIffOnlyOne(rd.list.db, rd.list.vms, req.user, route.name, vm);
        assert forall other :: OfUser(rd, req.user, route.name, other) <==> other in rd.list.vms && Accessible(rd.list.db, req.user, other) && other.row.name == route.name;
      }
      NobodysName(rd, req.user, route.name);
      if f.Found? {
        assert OnlyOne(rd, req.user, route.name, f.vm);
      }
    }
  }

  lemma NobodysName(rd: Reads, user: string, name: string)
    requires rd.list.Saw?
    ensures ByName(rd.list, name, user) == NoRows <==> forall vm :: !OfUser(rd, user, name, vm)
  {
    var named := Named(ListAccessible(rd.list.db, rd.list.vms, user), name);
    forall vm ensures vm in named <==> OfUser(rd, user, name, vm) {
    }
    if named != [] {
      assert named[0] in named;
    }
  }

  /** Without a session or a token there is only publication. */
  lemma StrangerOutcome(route: Route, req: Request, rd: Reads)
    requires NotPublic(route, req, rd) && req.share == "" && req.user == ""
    ensures DecideRoute(route, req, rd) == if req.html then Login else Unauthorized
  {
    NotPublished(route, req, rd);
  }

  // ----- Custom domains -----

  /** A custom domain's VM is forwarded to when it is published or a live link of its own is
      brought; every other answer says which table stood in the way. */
  lemma AliasOutcome(host: string, req: Request, rd: Reads)
    ensures var o, name := DecideAlias(host, req, rd), LookupName(host);
            if rd.alias.Broke? then o == InternalError
            else if name !in rd.alias.db.aliases then o == UnknownHost
            else if rd.row.Broke? then o == InternalError
            else if rd.alias.db.aliases[name] !in rd.row.db.containers then o == UnknownHost
            else
              var id := rd.alias.db.aliases[name];
              var vm := Vm(id, rd.row.db.containers[id]);
              if vm.row.appPublic || (req.share != "" && LinkOpens(rd, req.share, id)) then SentTo(o, vm, vm.row.appPort, rd) else o == Forbidden
  {
    if rd.alias.Saw? && LookupName(host) in rd.alias.db.aliases {
      LiveIff(rd, req.share, rd.alias.db.aliases[LookupName(host)]);
    }
  }

  /** A host that is no VM's is a custom domain, unless it lies inside the gateway's own. */
  lemma HostOutcome(domain: string, req: Request, rd: Reads)
    ensures var o, route := Decide(domain, req, rd), ExtractSubdomain(domain, req.host);
            var host, own := AliasHost(req.host), ToLower(domain);
            && (route.Some? ==> o == DecideRoute(route.value, req, rd))
            && (route.None? && own != "" && (host == own || HasSuffix(host, "." + own)) ==> o == BadHost)
            && (route.None? && !(own != "" && (host == own || HasSuffix(host, "." + own))) ==> o == DecideAlias(host, req, rd))
  {
  }
}
