/** Attributing a source address to a VM through a cached view of the runtime. */
module Resolver {
  import opened Basics
  import opened NetAddr

  type Name = string

  /** One instance as the runtime lists it; `ip` is None when empty or unparseable. */
  datatype Instance = Instance(id: Name, ip: Option<Addr>, mac: string, filtered: bool)
  type Listing = seq<Option<Instance>>

  datatype Holder = Holder(name: Name, mac: string)
  type Holders = map<Addr, Holder>

  /** What the platform knows about a VM, and the caller's own address. */
  datatype Identity = Identity(name: Name, ipv4: Addr, mac: string, facts: string)

  const MAX_STALE := 6

  // ----- The snapshot -----

  /** Entry k of the listing is a pinned instance holding address a. */
  predicate Claims(live: Listing, k: nat, a: Addr)
    requires k < |live|
  {
    live[k].Some? && live[k].value.filtered && live[k].value.ip.Some? && Unmap(live[k].value.ip.value) == a
  }

  ghost predicate SoleClaim(live: Listing, k: nat, a: Addr) {
    k < |live| && Claims(live, k, a) && forall j :: 0 <= j < |live| && Claims(live, j, a) ==> j == k
  }

  function HolderAt(live: Listing, k: nat): Holder
    requires k < |live| && live[k].Some?
  {
    Holder(live[k].value.id, live[k].value.mac)
  }

  /** An address is attributed exactly when one pinned entry claims it. */
  ghost predicate IsView(live: Listing, holders: Holders) {
    && (forall a :: a in holders ==> exists k: nat :: SoleClaim(live, k, a) && holders[a] == HolderAt(live, k))
    && (forall a, k: nat :: SoleClaim(live, k, a) ==> a in holders)
  }

  /** The first n entries: the addresses claimed once, by whom, and those claimed twice. */
  ghost predicate Scanned(live: Listing, n: nat, holders: Holders, sole: map<Addr, nat>, twice: map<Addr, (nat, nat)>)
    requires n <= |live|
  {
    && sole.Keys == holders.Keys && sole.Keys !! twice.Keys
    && (forall a :: a in sole ==> sole[a] < n && Claims(live, sole[a], a) && holders[a] == HolderAt(live, sole[a]))
    && (forall a, k :: 0 <= k < n && Claims(live, k, a) ==> (a in sole && sole[a] == k) || a in twice)
    && (forall a :: a in twice ==> twice[a].0 < twice[a].1 < n && Claims(live, twice[a].0, a) && Claims(live, twice[a].1, a))
  }

  /** An entry that claims no address, or one already claimed twice, changes nothing. */
  lemma ScanSkip(live: Listing, n: nat, holders: Holders, sole: map<Addr, nat>, twice: map<Addr, (nat, nat)>)
    requires n < |live| && Scanned(live, n, holders, sole, twice)
    requires forall a :: Claims(live, n, a) ==> a in twice
    ensures Scanned(live, n + 1, holders, sole, twice)
  {
  }

  lemma ScanAgain(live: Listing, n: nat, holders: Holders, sole: map<Addr, nat>, twice: map<Addr, (nat, nat)>, addr: Addr)
    requires n < |live| && Scanned(live, n, holders, sole, twice) && Claims(live, n, addr) && addr in holders
    ensures Scanned(live, n + 1, holders - {addr}, sole - {addr}, twice[addr := (sole[addr], n)])
  {
  }

  lemma ScanFirst(live: Listing, n: nat, holders: Holders, sole: map<Addr, nat>, twice: map<Addr, (nat, nat)>, addr: Addr)
    requires n < |live| && Scanned(live, n, holders, sole, twice) && Claims(live, n, addr) && addr !in holders && addr !in twice
    ensures Scanned(live, n + 1, holders[addr := HolderAt(live, n)], sole[addr := n], twice)
  {
  }

  lemma ScanIsView(live: Listing, holders: Holders, sole: map<Addr, nat>, twice: map<Addr, (nat, nat)>)
    requires Scanned(live, |live|, holders, sole, twice)
    ensures IsView(live, holders)
  {
    forall a | a in holders ensures exists k: nat :: SoleClaim(live, k, a) && holders[a] == HolderAt(live, k) {
      assert SoleClaim(live, sole[a], a);
    }
  }

  lemma SoleClaimMoves(live: Listing, other: Listing, perm: seq<nat>, inv: seq<nat>, k: nat, a: Addr)
    requires |perm| == |live| == |other| == |inv|
    requires forall i :: 0 <= i < |live| ==> perm[i] < |live| && inv[i] < |live| && perm[inv[i]] == i && inv[perm[i]] == i
    requires forall i :: 0 <= i < |live| ==> other[perm[i]] == live[i]
    requires SoleClaim(live, k, a)
    ensures SoleClaim(other, perm[k], a) && HolderAt(other, perm[k]) == HolderAt(live, k)
  {
    forall j | 0 <= j < |other| && Claims(other, j, a) ensures j == perm[k] {
      assert other[perm[inv[j]]] == live[inv[j]];
      assert Claims(live, inv[j], a);
    }
  }

  ghost predicate Reorders(live: Listing, other: Listing, perm: seq<nat>, inv: seq<nat>) {
    && |perm| == |live| == |other| == |inv|
    && (forall i :: 0 <= i < |live| ==> perm[i] < |live| && inv[i] < |live| && perm[inv[i]] == i && inv[perm[i]] == i)
    && (forall i :: 0 <= i < |live| ==> other[perm[i]] == live[i])
  }

  lemma ReordersBack(live: Listing, other: Listing, perm: seq<nat>, inv: seq<nat>)
    requires Reorders(live, other, perm, inv)
    ensures Reorders(other, live, inv, perm)
  {
    forall i | 0 <= i < |live| ensures live[inv[i]] == other[i] {
      assert other[perm[inv[i]]] == live[inv[i]];
    }
  }

  lemma HolderMoves(live: Listing, other: Listing, perm: seq<nat>, inv: seq<nat>, v: Holders, w: Holders, a: Addr)
    requires Reorders(live, other, perm, inv) && IsView(live, v) && IsView(other, w) && a in v
    ensures a in w && w[a] == v[a]
  {
    var k: nat :| SoleClaim(live, k, a) && v[a] == HolderAt(live, k);
    SoleClaimMoves(live, other, perm, inv, k, a);
    var k': nat :| SoleClaim(other, k', a) && w[a] == HolderAt(other, k');
  }

  /** The view does not depend on the order of the listing. */
  lemma ViewIgnoresOrder(live: Listing, other: Listing, perm: seq<nat>, inv: seq<nat>, v: Holders, w: Holders)
    requires Reorders(live, other, perm, inv) && IsView(live, v) && IsView(other, w)
    ensures v == w
  {
    ReordersBack(live, other, perm, inv);
    forall a | a in v ensures a in w && w[a] == v[a] {
      HolderMoves(live, other, perm, inv, v, w, a);
    }
    forall a | a in w ensures a in v {
      HolderMoves(other, live, inv, perm, w, v, a);
    }
  }

  // ----- The cached view -----

  /** The fields guarded by the mutex. Times are nanoseconds. */
  datatype View = View(holders: Holders, fetched: int, loaded: bool, staleFor: nat, identities: map<Name, Identity>)

  /** One request's clock readings and, should it refresh, the runtime's answer. */
  datatype Ask = Ask(at: int, done: int, listed: Option<Holders>)

  datatype Answer = Served(holder: Holder, cached: Option<Identity>) | Unknown | Stale | Unavailable

  predicate Refreshes(v: View, ttl: int, at: int) {
    !v.loaded || at - v.fetched >= ttl
  }

  function Refreshed(v: View, ttl: int, ask: Ask): View {
    if !Refreshes(v, ttl, ask.at) then v
    else if ask.listed.Some? then View(ask.listed.value, ask.done, true, 0, map[])
    else if !v.loaded then v.(fetched := ask.done)
    else v.(fetched := ask.done, staleFor := v.staleFor + 1)
  }

  function AnswerFrom(v: View, a: Addr): Answer {
    if !v.loaded then Unavailable
    else if v.staleFor > MAX_STALE then Stale
    else if a !in v.holders then Unknown
    else Served(v.holders[a], if v.holders[a].name in v.identities then Some(v.identities[v.holders[a].name]) else None)
  }

  class RuntimeResolver {
    const ttl: int
    var view: View
    var warned: set<Name>

    constructor (ttl: int)
      ensures this.ttl == ttl && view == View(map[], 0, false, 0, map[]) && warned == {}
    {
      this.ttl := ttl;
      view := View(map[], 0, false, 0, map[]);
      warned := {};
    }

    method AddressIsPinned(inst: Instance) returns (pinned: bool)
      modifies this`warned
      ensures pinned == inst.filtered
      ensures warned == old(warned) + (if pinned then {} else {inst.id})
    {
      if inst.filtered {
        return true;
      }
      if inst.id !in warned {
        warned := warned + {inst.id};
      }
      return false;
    }

    /** Builds the address view from a listing. */
    method Snapshot(live: Listing) returns (holders: Holders)
      modifies this`warned
      ensures IsView(live, holders)
    {
      holders := map[];
      var ambiguous: set<Addr> := {};
      ghost var sole: map<Addr, nat> := map[];
      ghost var twice: map<Addr, (nat, nat)> := map[];
      for i := 0 to |live|
        invariant twice.Keys == ambiguous && Scanned(live, i, holders, sole, twice)
      {
        if live[i].None? || live[i].value.ip.None? {
          ScanSkip(live, i, holders, sole, twice);
          continue;
        }
        var inst := live[i].value;
        var addr := Unmap(inst.ip.value);
        if addr in ambiguous {
          ScanSkip(live, i, holders, sole, twice);
          continue;
        }
        var pinned := AddressIsPinned(inst);
        if !pinned {
          ScanSkip(live, i, holders, sole, twice);
          continue;
        }
        if addr in holders {
          ScanAgain(live, i, holders, sole, twice, addr);
          twice := twice[addr := (sole[addr], i)];
          sole := sole - {addr};
          holders := holders - {addr};
          ambiguous := ambiguous + {addr};
          continue;
        }
        ScanFirst(live, i, holders, sole, twice, addr);
        sole := sole[addr := i];
        holders := holders[addr := Holder(inst.id, inst.mac)];
      }
      ScanIsView(live, holders, sole, twice);
    }

    /** The runtime's answer for an address, under the lock: the view is refreshed at
        most once per window, and one too stale is refused. */
    method HolderOf(addr: Addr, at: int, done: int, listed: Option<Listing>) returns (r: Answer, ghost ask: Ask)
      modifies this
      ensures ask.at == at && ask.done == done
      ensures Refreshes(old(view), ttl, at) ==>
                (ask.listed.Some? <==> listed.Some?) && (listed.Some? ==> IsView(listed.value, ask.listed.value))
      ensures view == Refreshed(old(view), ttl, ask)
      ensures r == AnswerFrom(view, Unmap(addr))
      ensures !Refreshes(old(view), ttl, at) ==> warned == old(warned)
    {
      var a := Unmap(addr);
      ask := Ask(at, done, None);
      if !view.loaded || at - view.fetched >= ttl {
        view := view.(fetched := done);
        if listed.Some? {
          var holders := Snapshot(listed.value);
          ask := Ask(at, done, Some(holders));
          view := view.(holders := holders, loaded := true, staleFor := 0);
          view := view.(identities := map[]);
        } else if !view.loaded {
          return Unavailable, ask;
        } else {
          view := view.(staleFor := view.staleFor + 1);
        }
      }
      if view.staleFor > MAX_STALE {
        return Stale, ask;
      }
      if a !in view.holders {
        return Unknown, ask;
      }
      var h := view.holders[a];
      return Served(h, if h.name in view.identities then Some(view.identities[h.name]) else None), ask;
    }

    method Remember(name: Name, id: Identity)
      modifies this`view
      ensures view == old(view).(identities := old(view).identities[name := id])
    {
      view := view.(identities := view.identities[name := id]);
    }
  }

  // ----- Staleness over whole runs -----

  /** The view before request n, starting from a resolver that has seen nothing. */
  function ViewAt(ttl: int, asks: seq<Ask>, n: nat): View
    requires n <= |asks|
  {
    if n == 0 then View(map[], 0, false, 0, map[]) else Refreshed(ViewAt(ttl, asks, n - 1), ttl, asks[n - 1])
  }

  /** Request k called the runtime. */
  predicate Lists(ttl: int, asks: seq<Ask>, k: nat)
    requires k < |asks|
  {
    Refreshes(ViewAt(ttl, asks, k), ttl, asks[k].at)
  }

  /** When request k was answered: after its refresh, if it made one. */
  function AnsweredAt(ttl: int, asks: seq<Ask>, k: nat): int
    requires k < |asks|
  {
    if Lists(ttl, asks, k) then asks[k].done else asks[k].at
  }

  /** Request k came no earlier than the answer before it and at most g later. */
  ghost predicate InPace(ttl: int, asks: seq<Ask>, g: nat, k: nat)
    requires 0 < k < |asks|
  {
    AnsweredAt(ttl, asks, k - 1) <= asks[k].at <= AnsweredAt(ttl, asks, k - 1) + g
  }

  /** Requests follow one another under the mutex; a refresh takes at most d, and at
      most g passes from one answer to the next request. */
  ghost predicate Paced(ttl: int, asks: seq<Ask>, g: nat, d: nat) {
    && (forall k :: 0 <= k < |asks| ==> asks[k].at <= asks[k].done <= asks[k].at + d)
    && (forall k :: 0 < k < |asks| ==> InPace(ttl, asks, g, k))
  }

  /** How many requests in [lo, hi) called the runtime and failed. */
  function Failures(ttl: int, asks: seq<Ask>, lo: nat, hi: nat): nat
    requires lo <= hi <= |asks|
  {
    if lo == hi then 0
    else Failures(ttl, asks, lo, hi - 1) + (if Lists(ttl, asks, hi - 1) && asks[hi - 1].listed.None? then 1 else 0)
  }

  /** Request j is the last successful refresh before request n, and the view rests on it. */
  ghost predicate RestsOn(ttl: int, asks: seq<Ask>, n: nat, j: nat) {
    && j < n <= |asks|
    && Lists(ttl, asks, j) && asks[j].listed.Some?
    && (forall k :: j < k < n && Lists(ttl, asks, k) ==> asks[k].listed.None?)
    && var v := ViewAt(ttl, asks, n);
       v.loaded && v.holders == asks[j].listed.value && v.staleFor == Failures(ttl, asks, j + 1, n)
  }

  /** The window of the view: fetched drifts by at most one period per failure. */
  ghost predicate Drift(ttl: int, asks: seq<Ask>, n: nat, j: nat, period: int)
    requires j < n <= |asks|
  {
    var v := ViewAt(ttl, asks, n);
    && v.fetched - asks[j].done <= v.staleFor * period
    && v.fetched <= AnsweredAt(ttl, asks, n - 1) < v.fetched + ttl
  }

  /** One more request without a successful refresh. */
  lemma DriftStep(v: View, ttl: int, ask: Ask, prev: int, origin: int, g: nat, d: nat)
    requires ttl > 0 && v.loaded && v.fetched - origin <= v.staleFor * (ttl - 1 + g + d) && v.fetched <= prev < v.fetched + ttl
    requires prev <= ask.at <= prev + g && ask.at <= ask.done <= ask.at + d
    requires Refreshes(v, ttl, ask.at) ==> ask.listed.None?
    ensures var v' := Refreshed(v, ttl, ask);
            && v'.fetched - origin <= v'.staleFor * (ttl - 1 + g + d)
            && v'.fetched <= (if Refreshes(v, ttl, ask.at) then ask.done else ask.at) < v'.fetched + ttl
  {
    assert (v.staleFor + 1) * (ttl - 1 + g + d) == v.staleFor * (ttl - 1 + g + d) + (ttl - 1 + g + d);
  }

  lemma {:induction false} ViewRests(ttl: int, asks: seq<Ask>, n: nat) returns (j: nat)
    requires n <= |asks| && ViewAt(ttl, asks, n).loaded
    ensures RestsOn(ttl, asks, n, j)
  {
    if Lists(ttl, asks, n - 1) && asks[n - 1].listed.Some? {
      j := n - 1;
    } else {
      j := ViewRests(ttl, asks, n - 1);
    }
  }

  lemma {:induction false} ViewDrifts(ttl: int, asks: seq<Ask>, n: nat, j: nat, g: nat, d: nat)
    requires ttl > 0 && j < n <= |asks| && Paced(ttl, asks, g, d)
    requires Lists(ttl, asks, j) && asks[j].listed.Some?
    requires forall k :: j < k < n && Lists(ttl, asks, k) ==> asks[k].listed.None?
    ensures ViewAt(ttl, asks, n).loaded && Drift(ttl, asks, n, j, ttl - 1 + g + d)
  {
    if n > j + 1 {
      ViewDrifts(ttl, asks, n - 1, j, g, d);
      assert InPace(ttl, asks, g, n - 1);
      DriftStep(ViewAt(ttl, asks, n - 1), ttl, asks[n - 1], AnsweredAt(ttl, asks, n - 2), asks[j].done, g, d);
    }
  }

  /** What a request does to the view: outside its window it asks the runtime and starts a new
      one, whatever the answer; a listing replaces the view and clears what was cached with
      it, a failure keeps both and counts once there is something to keep. */
  lemma RefreshMeans(v: View, ttl: int, ask: Ask)
    ensures var v' := Refreshed(v, ttl, ask);
            if v.loaded && ask.at < v.fetched + ttl then v' == v
            else if ask.listed.Some? then v' == View(ask.listed.value, ask.done, true, 0, map[])
            else v' == View(v.holders, ask.done, v.loaded, if v.loaded then v.staleFor + 1 else v.staleFor, v.identities)
  {
  }

  lemma LastIsOne(ttl: int, asks: seq<Ask>, n: nat, i: nat, j: nat)
    requires RestsOn(ttl, asks, n, i) && RestsOn(ttl, asks, n, j)
    ensures i == j
  {
  }

  /** The answer to the request before n: served exactly when the last listing had the address
      and at most six refreshes failed since; stale after more; refused before the first. */
  lemma AnsweredIff(ttl: int, asks: seq<Ask>, n: nat, a: Addr)
    requires n <= |asks|
    ensures var r := AnswerFrom(ViewAt(ttl, asks, n), a);
            && (r.Served? <==> exists j: nat :: RestsOn(ttl, asks, n, j) && Failures(ttl, asks, j + 1, n) <= 6 && a in asks[j].listed.value)
            && (r.Stale? <==> exists j: nat :: RestsOn(ttl, asks, n, j) && Failures(ttl, asks, j + 1, n) > 6)
            && (r.Unavailable? <==> forall j: nat :: !RestsOn(ttl, asks, n, j))
  {
    if ViewAt(ttl, asks, n).loaded {
      var j := ViewRests(ttl, asks, n);
      forall i: nat | RestsOn(ttl, asks, n, i) ensures i == j {
        LastIsOne(ttl, asks, n, i, j);
      }
    }
  }

  /** What is served is the holder the view names and what is cached under its name. */
  lemma AnswerMeans(v: View, a: Addr)
    ensures var r := AnswerFrom(v, a);
            r.Served? ==> a in v.holders && r.holder == v.holders[a] && (r.cached == if r.holder.name in v.identities then Some(v.identities[r.holder.name]) else None)
  {
  }

  /** An identity served through the cache rests on the last successful view: at most six
      refreshes failed since, it was stored less than 7*ttl + 6*(g + d) ago, and the
      runtime was asked for it less than 7*ttl + 6*g + 7*d ago. */
  lemma ServedViewIsFresh(ttl: int, asks: seq<Ask>, n: nat, g: nat, d: nat, a: Addr) returns (j: nat)
    requires ttl > 0 && n < |asks| && Paced(ttl, asks, g, d)
    requires AnswerFrom(ViewAt(ttl, asks, n + 1), a).Served?
    ensures RestsOn(ttl, asks, n + 1, j)
    ensures a in asks[j].listed.value && AnswerFrom(ViewAt(ttl, asks, n + 1), a).holder == asks[j].listed.value[a]
    ensures Failures(ttl, asks, j + 1, n + 1) <= MAX_STALE
    ensures AnsweredAt(ttl, asks, n) - asks[j].done <= 7 * (ttl - 1) + 6 * (g + d) < 7 * ttl + 6 * (g + d)
    ensures AnsweredAt(ttl, asks, n) - asks[j].at <= 7 * (ttl - 1) + 6 * g + 7 * d < 7 * ttl + 6 * g + 7 * d
  {
    j := ViewRests(ttl, asks, n + 1);
    ViewDrifts(ttl, asks, n + 1, j, g, d);
    var v := ViewAt(ttl, asks, n + 1);
    Multiple(v.staleFor, MAX_STALE, ttl - 1 + g + d);
  }

  lemma Multiple(n: nat, m: nat, period: nat)
    requires n <= m
    ensures n * period <= m * period
  {
  }

  // ----- The bound is attained -----

  lemma {:induction false} SamePast(ttl: int, asks: seq<Ask>, x: Ask, n: nat)
    requires n <= |asks|
    ensures ViewAt(ttl, asks + [x], n) == ViewAt(ttl, asks, n)
  {
    if n > 0 {
      SamePast(ttl, asks, x, n - 1);
    }
  }

  lemma SameAnswer(ttl: int, asks: seq<Ask>, x: Ask, k: nat)
    requires k < |asks|
    ensures AnsweredAt(ttl, asks + [x], k) == AnsweredAt(ttl, asks, k)
  {
    SamePast(ttl, asks, x, k);
  }

  lemma InPaceOnceMore(ttl: int, asks: seq<Ask>, x: Ask, g: nat, k: nat)
    requires 0 < k <= |asks| && (k < |asks| ==> InPace(ttl, asks, g, k))
    requires k == |asks| ==> AnsweredAt(ttl, asks, k - 1) <= x.at <= AnsweredAt(ttl, asks, k - 1) + g
    ensures InPace(ttl, asks + [x], g, k)
  {
    SameAnswer(ttl, asks, x, k - 1);
  }

  lemma PacedOnceMore(ttl: int, asks: seq<Ask>, x: Ask, g: nat, d: nat)
    requires asks != [] && Paced(ttl, asks, g, d) && x.at <= x.done <= x.at + d
    requires var t := AnsweredAt(ttl, asks, |asks| - 1); t <= x.at <= t + g
    ensures Paced(ttl, asks + [x], g, d)
  {
    forall k | 0 < k < |asks + [x]| ensures InPace(ttl, asks + [x], g, k) {
      InPaceOnceMore(ttl, asks, x, g, k);
    }
  }

  /** A paced run whose only success was its first request, made at time 0: the view was
      last refreshed at `fetched` after k failures, and the last answer came at t. */
  ghost predicate Worn(ttl: int, asks: seq<Ask>, g: nat, d: nat, holders: Holders, fetched: int, k: nat, t: int) {
    && asks != [] && Paced(ttl, asks, g, d)
    && asks[0].at == 0 && asks[0].listed == Some(holders) && (forall i :: 0 < i < |asks| ==> asks[i].listed.None?)
    && ViewAt(ttl, asks, |asks|) == View(holders, fetched, true, k, map[])
    && AnsweredAt(ttl, asks, |asks| - 1) == t
  }

  lemma WornOnce(ttl: int, asks: seq<Ask>, g: nat, d: nat, holders: Holders, fetched: int, k: nat, t: int, x: Ask)
    requires Worn(ttl, asks, g, d, holders, fetched, k, t)
    requires x.listed.None? && t <= x.at <= t + g && x.at <= x.done <= x.at + d
    ensures var late := x.at - fetched >= ttl;
            Worn(ttl, asks + [x], g, d, holders, if late then x.done else fetched, if late then k + 1 else k, if late then x.done else x.at)
  {
    PacedOnceMore(ttl, asks, x, g, d);
    SamePast(ttl, asks, x, |asks|);
  }

  /** m requests one tick apart, all within the window. */
  lemma {:induction false} WornByHits(ttl: int, asks: seq<Ask>, g: nat, d: nat, holders: Holders, fetched: int, k: nat, t: int, m: nat) returns (more: seq<Ask>)
    requires g >= 1 && Worn(ttl, asks, g, d, holders, fetched, k, t) && t + m < fetched + ttl
    ensures Worn(ttl, more, g, d, holders, fetched, k, t + m)
    decreases m
  {
    if m == 0 {
      more := asks;
    } else {
      var x := Ask(t + 1, t + 1, None);
      WornOnce(ttl, asks, g, d, holders, fetched, k, t, x);
      more := WornByHits(ttl, asks + [x], g, d, holders, fetched, k, t + 1, m - 1);
    }
  }

  /** k whole windows, each ended by a refresh that comes and fails as late as it may. */
  lemma {:induction false} WornByMisses(ttl: int, g: nat, d: nat, holders: Holders, k: nat) returns (asks: seq<Ask>)
    requires ttl > 0 && g >= 1
    ensures var f := d + k * (ttl - 1 + g + d); Worn(ttl, asks, g, d, holders, f, k, f)
  {
    if k == 0 {
      asks := [Ask(0, d, Some(holders))];
      assert ViewAt(ttl, asks, 1) == Refreshed(ViewAt(ttl, asks, 0), ttl, asks[0]);
    } else {
      var f, period := d + (k - 1) * (ttl - 1 + g + d), ttl - 1 + g + d;
      var before := WornByMisses(ttl, g, d, holders, k - 1);
      var full := WornByHits(ttl, before, g, d, holders, f, k - 1, f, ttl - 1);
      var x := Ask(f + ttl - 1 + g, f + ttl - 1 + g + d, None);
      WornOnce(ttl, full, g, d, holders, f, k - 1, f + ttl - 1, x);
      asks := full + [x];
      assert k * period == (k - 1) * period + period;
    }
  }

  /** Views as old as the bound allows are served. */
  lemma AgeIsAttained(ttl: int, g: nat, d: nat, a: Addr, h: Holder) returns (asks: seq<Ask>)
    requires ttl > 0 && g >= 1
    ensures asks != [] && Paced(ttl, asks, g, d) && asks[0].listed == Some(map[a := h]) && forall i :: 0 < i < |asks| ==> asks[i].listed.None?
    ensures AnswerFrom(ViewAt(ttl, asks, |asks|), a) == Served(h, None)
    ensures AnsweredAt(ttl, asks, |asks| - 1) - asks[0].at == 7 * (ttl - 1) + 6 * g + 7 * d
  {
    var f := d + MAX_STALE * (ttl - 1 + g + d);
    var worn := WornByMisses(ttl, g, d, map[a := h], MAX_STALE);
    asks := WornByHits(ttl, worn, g, d, map[a := h], f, MAX_STALE, f, ttl - 1);
  }

  /** Past six failures every request is refused until a refresh succeeds. */
  lemma RefusedUntilRefreshed(ttl: int, asks: seq<Ask>, n: nat, j: nat, a: Addr)
    requires RestsOn(ttl, asks, n, j)
    requires Failures(ttl, asks, j + 1, n) > MAX_STALE
    ensures AnswerFrom(ViewAt(ttl, asks, n), a) == Stale
  {
  }

  lemma {:induction false} FetchedIsLatest(ttl: int, asks: seq<Ask>, n: nat, i: nat, g: nat, d: nat)
    requires i < n <= |asks| && Paced(ttl, asks, g, d) && Lists(ttl, asks, i)
    ensures asks[i].done <= ViewAt(ttl, asks, n).fetched
  {
    var v := ViewAt(ttl, asks, n - 1);
    if Lists(ttl, asks, n - 1) {
      AnswersAscend(ttl, asks, i, n - 1, g, d);
    } else {
      FetchedIsLatest(ttl, asks, n - 1, i, g, d);
    }
  }

  lemma {:induction false} AnswersAscend(ttl: int, asks: seq<Ask>, i: nat, k: nat, g: nat, d: nat)
    requires i <= k < |asks| && Paced(ttl, asks, g, d)
    ensures AnsweredAt(ttl, asks, i) <= AnsweredAt(ttl, asks, k)
  {
    if i < k {
      AnswersAscend(ttl, asks, i, k - 1, g, d);
      assert InPace(ttl, asks, g, k);
    }
  }

  /** Once a first view has loaded, the runtime is listed at most once per window. */
  lemma OneListPerWindow(ttl: int, asks: seq<Ask>, i: nat, k: nat, g: nat, d: nat)
    requires ttl > 0 && i < k < |asks| && Paced(ttl, asks, g, d)
    requires Lists(ttl, asks, i) && Lists(ttl, asks, k) && ViewAt(ttl, asks, k).loaded
    ensures asks[k].at - asks[i].done >= ttl
  {
    FetchedIsLatest(ttl, asks, k, i, g, d);
  }

  // ----- Every interleaving of Resolve calls -----

  /** A call between its lock acquisitions; `h` is what the view gave it. */
  datatype Call =
    | Asking(addr: Addr)
    | Identifying(addr: Addr, h: Holder)
    | Remembering(addr: Addr, h: Holder, id: Identity)
    | Returned(addr: Addr, h: Holder, id: Identity)
    | Refused(addr: Addr)

  /** The shared view, the calls, every database row read (instance name and facts),
      and every attribution the view has given to a call. */
  datatype World = World(view: View, calls: map<nat, Call>, looked: set<(Name, string)>, given: set<(nat, Addr, Holder)>)

  datatype Step =
    | Begin(tid: nat, addr: Addr)
    | Lookup(tid: nat, ask: Ask)
    | Identify(tid: nat, facts: Option<string>)
    | Store(tid: nat)

  predicate Enabled(w: World, s: Step) {
    match s
    case Begin(tid, _) => tid !in w.calls
    case Lookup(tid, _) => tid in w.calls && w.calls[tid].Asking?
    case Identify(tid, _) => tid in w.calls && w.calls[tid].Identifying?
    case Store(tid) => tid in w.calls && w.calls[tid].Remembering?
  }

  function Next(w: World, ttl: int, s: Step): World
    requires Enabled(w, s)
  {
    match s
    case Begin(tid, addr) => w.(calls := w.calls[tid := Asking(addr)])
    case Lookup(tid, ask) =>
      var addr := w.calls[tid].addr;
      var view := Refreshed(w.view, ttl, ask);
      (match AnswerFrom(view, Unmap(addr))
       case Served(h, None) =>
         World(view, w.calls[tid := Identifying(addr, h)], w.looked, w.given + {(tid, Unmap(addr), h)})
       case Served(h, Some(cached)) =>
         World(view, w.calls[tid := Returned(addr, h, cached.(ipv4 := Unmap(addr), mac := h.mac))], w.looked, w.given + {(tid, Unmap(addr), h)})
       case _ => w.(view := view, calls := w.calls[tid := Refused(addr)]))
    case Identify(tid, facts) =>
      var c := w.calls[tid];
      if facts.None? then w.(calls := w.calls[tid := Refused(c.addr)])
      else w.(calls := w.calls[tid := Remembering(c.addr, c.h, Identity(c.h.name, Unmap(c.addr), c.h.mac, facts.value))],
              looked := w.looked + {(c.h.name, facts.value)})
    case Store(tid) =>
      var c := w.calls[tid];
      w.(view := w.view.(identities := w.view.identities[c.h.name := c.id]), calls := w.calls[tid := Returned(c.addr, c.h, c.id)])
  }

  /** An identity is the instance's own: its name, the caller's address, the view's MAC
      and facts the database gave for that very instance. */
  ghost predicate Attributed(w: World, tid: nat, addr: Addr, h: Holder, id: Identity) {
    && (tid, Unmap(addr), h) in w.given
    && id.name == h.name && id.ipv4 == Unmap(addr) && id.mac == h.mac
    && (h.name, id.facts) in w.looked
  }

  ghost predicate Inv(w: World) {
    && (forall n :: n in w.view.identities ==> w.view.identities[n].name == n && (n, w.view.identities[n].facts) in w.looked)
    && (forall t :: t in w.calls && w.calls[t].Identifying? ==> (t, Unmap(w.calls[t].addr), w.calls[t].h) in w.given)
    && (forall t :: t in w.calls && (w.calls[t].Remembering? || w.calls[t].Returned?) ==>
          Attributed(w, t, w.calls[t].addr, w.calls[t].h, w.calls[t].id))
  }

  /** What is given and looked up only grows, so what was attributed stays so. */
  lemma OtherCallsKept(w: World, ttl: int, s: Step, t: nat)
    requires Inv(w) && Enabled(w, s) && t != s.tid && t in Next(w, ttl, s).calls
    ensures var w' := Next(w, ttl, s);
            && t in w.calls && w'.calls[t] == w.calls[t] && w.given <= w'.given && w.looked <= w'.looked
            && (w'.calls[t].Remembering? || w'.calls[t].Returned? ==> Attributed(w', t, w'.calls[t].addr, w'.calls[t].h, w'.calls[t].id))
  {
  }

  lemma OwnCallAttributed(w: World, ttl: int, s: Step)
    requires Inv(w) && Enabled(w, s)
    ensures var w', t := Next(w, ttl, s), s.tid;
            && (t in w'.calls && w'.calls[t].Identifying? ==> (t, Unmap(w'.calls[t].addr), w'.calls[t].h) in w'.given)
            && (t in w'.calls && (w'.calls[t].Remembering? || w'.calls[t].Returned?) ==> Attributed(w', t, w'.calls[t].addr, w'.calls[t].h, w'.calls[t].id))
  {
  }

  lemma CacheAttributed(w: World, ttl: int, s: Step)
    requires Inv(w) && Enabled(w, s)
    ensures var w' := Next(w, ttl, s);
            forall n :: n in w'.view.identities ==> w'.view.identities[n].name == n && (n, w'.view.identities[n].facts) in w'.looked
  {
  }

  lemma NextKeepsInv(w: World, ttl: int, s: Step)
    requires Inv(w) && Enabled(w, s)
    ensures Inv(Next(w, ttl, s))
  {
    var w' := Next(w, ttl, s);
    OwnCallAttributed(w, ttl, s);
    CacheAttributed(w, ttl, s);
    forall t | t in w'.calls && t != s.tid
      ensures t in w.calls && w'.calls[t] == w.calls[t] && w.given <= w'.given
      ensures w'.calls[t].Remembering? || w'.calls[t].Returned? ==> Attributed(w', t, w'.calls[t].addr, w'.calls[t].h, w'.calls[t].id)
    {
      OtherCallsKept(w, ttl, s, t);
    }
  }

  /** A step that attributes an address reads the attribution from the view. */
  lemma NewAttribution(w: World, ttl: int, s: Step, x: (nat, Addr, Holder))
    requires Enabled(w, s) && x in Next(w, ttl, s).given && x !in w.given
    ensures s.Lookup? && x.0 == s.tid && x.1 in Next(w, ttl, s).view.holders && Next(w, ttl, s).view.holders[x.1] == x.2
  {
  }

  const IDLE := World(View(map[], 0, false, 0, map[]), map[], {}, {})

  ghost predicate IsRun(ws: seq<World>, ss: seq<Step>, ttl: int) {
    && |ws| == |ss| + 1 && ws[0] == IDLE
    && forall i :: 0 <= i < |ss| ==> Enabled(ws[i], ss[i]) && ws[i + 1] == Next(ws[i], ttl, ss[i])
  }

  lemma {:induction false} RunsKeepInv(ws: seq<World>, ss: seq<Step>, ttl: int, n: nat)
    requires IsRun(ws, ss, ttl) && n < |ws|
    ensures Inv(ws[n])
  {
    if n > 0 {
      RunsKeepInv(ws, ss, ttl, n - 1);
      NextKeepsInv(ws[n - 1], ttl, ss[n - 1]);
    }
  }

  /** Every attribution a call ever used was read by that call from the view. */
  lemma {:induction false} GivenByTheView(ws: seq<World>, ss: seq<Step>, ttl: int, n: nat, tid: nat, a: Addr, h: Holder) returns (i: nat)
    requires IsRun(ws, ss, ttl) && n < |ws| && (tid, a, h) in ws[n].given
    ensures i < n && ss[i].Lookup? && ss[i].tid == tid && a in ws[i + 1].view.holders && ws[i + 1].view.holders[a] == h
  {
    if (tid, a, h) in ws[n - 1].given {
      i := GivenByTheView(ws, ss, ttl, n - 1, tid, a, h);
    } else {
      i := n - 1;
      NewAttribution(ws[i], ttl, ss[i], (tid, a, h));
    }
  }

  /** Under every interleaving, the identity a call returns carries the instance name
      and MAC the view gave it for its own address, and no other VM's facts. */
  lemma ReturnedIdentityIsOwn(ws: seq<World>, ss: seq<Step>, ttl: int, n: nat, tid: nat) returns (i: nat)
    requires IsRun(ws, ss, ttl) && n < |ws| && tid in ws[n].calls && ws[n].calls[tid].Returned?
    ensures var c := ws[n].calls[tid]; var a := Unmap(c.addr);
            && i < n && ss[i].Lookup? && ss[i].tid == tid
            && a in ws[i + 1].view.holders
            && c.id.name == ws[i + 1].view.holders[a].name && c.id.mac == ws[i + 1].view.holders[a].mac
            && c.id.ipv4 == a && (c.id.name, c.id.facts) in ws[n].looked
  {
    RunsKeepInv(ws, ss, ttl, n);
    var c := ws[n].calls[tid];
    assert Attributed(ws[n], tid, c.addr, c.h, c.id);
    i := GivenByTheView(ws, ss, ttl, n, tid, Unmap(c.addr), c.h);
  }
}
