/** How old the database facts in a returned identity may be: they are read outside the
    lock, and a refresh may clear the cache before they are stored in it. */
module ResolverFacts {
  import opened Basics
  import opened NetAddr
  import opened Resolver

  /** Step i replaced the view and cleared the cached identities. */
  ghost predicate Renews(ws: seq<World>, ss: seq<Step>, ttl: int, i: nat)
    requires i < |ss| && |ws| == |ss| + 1
  {
    ss[i].Lookup? && Refreshes(ws[i].view, ttl, ss[i].ask.at) && ss[i].ask.listed.Some?
  }

  /** The view was not replaced by any step from lo up to, not including, hi. */
  ghost predicate SameView(ws: seq<World>, ss: seq<Step>, ttl: int, lo: nat, hi: nat)
    requires hi <= |ss| && |ws| == |ss| + 1
  {
    forall i :: lo <= i < hi ==> !Renews(ws, ss, ttl, i)
  }

  /** By step r call tid read these facts about the instance. */
  ghost predicate ReadsFacts(ws: seq<World>, ss: seq<Step>, r: nat, tid: nat, name: Name, facts: string)
    requires r < |ss| && |ws| == |ss| + 1
  {
    ss[r] == Identify(tid, Some(facts)) && tid in ws[r].calls && ws[r].calls[tid].Identifying? && ws[r].calls[tid].h.name == name
  }

  lemma RememberStep(w: World, ttl: int, s: Step, tid: nat)
    requires Enabled(w, s) && tid in Next(w, ttl, s).calls && Next(w, ttl, s).calls[tid].Remembering?
    ensures tid in w.calls
    ensures var c, c' := w.calls[tid], Next(w, ttl, s).calls[tid];
            c' == c || (s == Identify(tid, Some(c'.id.facts)) && c.Identifying? && c.h == c'.h)
  {
  }

  lemma {:induction false} RememberedWasRead(ws: seq<World>, ss: seq<Step>, ttl: int, n: nat, tid: nat) returns (r: nat)
    requires IsRun(ws, ss, ttl) && n < |ws| && tid in ws[n].calls && ws[n].calls[tid].Remembering?
    ensures r < n && ReadsFacts(ws, ss, r, tid, ws[n].calls[tid].h.name, ws[n].calls[tid].id.facts)
  {
    assert n > 0 && ws[n] == Next(ws[n - 1], ttl, ss[n - 1]);
    RememberStep(ws[n - 1], ttl, ss[n - 1], tid);
    if ws[n - 1].calls[tid].Remembering? {
      r := RememberedWasRead(ws, ss, ttl, n - 1, tid);
    } else {
      r := n - 1;
    }
  }

  lemma CacheStep(w: World, ttl: int, s: Step, name: Name)
    requires Enabled(w, s) && name in Next(w, ttl, s).view.identities
    ensures || (s.Store? && w.calls[s.tid].h.name == name && Next(w, ttl, s).view.identities[name] == w.calls[s.tid].id)
            || (name in w.view.identities && w.view.identities[name] == Next(w, ttl, s).view.identities[name]
                && !(s.Lookup? && Refreshes(w.view, ttl, s.ask.at) && s.ask.listed.Some?))
  {
  }

  /** What is cached was read by some call and stored by it since the view was last
      replaced. */
  lemma {:induction false} CachedWasStored(ws: seq<World>, ss: seq<Step>, ttl: int, n: nat, name: Name) returns (r: nat, s: nat, writer: nat)
    requires IsRun(ws, ss, ttl) && n < |ws| && name in ws[n].view.identities
    ensures r < s < n && ss[s] == Store(writer) && ReadsFacts(ws, ss, r, writer, name, ws[n].view.identities[name].facts)
    ensures SameView(ws, ss, ttl, s, n)
  {
    CacheStep(ws[n - 1], ttl, ss[n - 1], name);
    if ss[n - 1].Store? && ws[n - 1].calls[ss[n - 1].tid].h.name == name {
      s, writer := n - 1, ss[n - 1].tid;
      r := RememberedWasRead(ws, ss, ttl, s, writer);
    } else {
      r, s, writer := CachedWasStored(ws, ss, ttl, n - 1, name);
    }
  }

  /** Facts served from the cache were read under the view they are served with if and
      only if the view was not replaced while their reader was on its way to storing them. */
  lemma ServedFactsAreCurrentIff(ws: seq<World>, ss: seq<Step>, ttl: int, n: nat) returns (r: nat, s: nat, writer: nat)
    requires IsRun(ws, ss, ttl) && n < |ss| && ss[n].Lookup? && ws[n + 1].calls[ss[n].tid].Returned?
    ensures var id := ws[n + 1].calls[ss[n].tid].id;
            && r < s < n && ss[s] == Store(writer) && ReadsFacts(ws, ss, r, writer, id.name, id.facts)
            && (SameView(ws, ss, ttl, r, n + 1) <==> SameView(ws, ss, ttl, r, s))
  {
    var w, ask := ws[n], ss[n].ask;
    var h := ws[n + 1].calls[ss[n].tid].h;
    assert Refreshed(w.view, ttl, ask).identities == w.view.identities && !Renews(ws, ss, ttl, n);
    RunsKeepInv(ws, ss, ttl, n);
    r, s, writer := CachedWasStored(ws, ss, ttl, n, h.name);
    assert forall i :: s <= i < n + 1 ==> !Renews(ws, ss, ttl, i);
  }

  /** A caller that read the database itself got facts no older than the view it was given. */
  lemma OwnFactsAreCurrent(ws: seq<World>, ss: seq<Step>, ttl: int, n: nat) returns (l: nat, r: nat)
    requires IsRun(ws, ss, ttl) && n < |ss| && ss[n].Store?
    ensures var tid := ss[n].tid; var c := ws[n].calls[tid];
            l < r < n && ss[l].Lookup? && ss[l].tid == tid && ReadsFacts(ws, ss, r, tid, c.h.name, c.id.facts)
  {
    r := RememberedWasRead(ws, ss, ttl, n, ss[n].tid);
    l := IdentifyingLookedUp(ws, ss, ttl, r, ss[n].tid);
  }

  lemma {:induction false} IdentifyingLookedUp(ws: seq<World>, ss: seq<Step>, ttl: int, n: nat, tid: nat) returns (l: nat)
    requires IsRun(ws, ss, ttl) && n < |ws| && tid in ws[n].calls && ws[n].calls[tid].Identifying?
    ensures l < n && ss[l].Lookup? && ss[l].tid == tid
  {
    if tid in ws[n - 1].calls && ws[n - 1].calls[tid].Identifying? {
      l := IdentifyingLookedUp(ws, ss, ttl, n - 1, tid);
    } else {
      l := n - 1;
    }
  }

  lemma OneStepMore(ws: seq<World>, ss: seq<Step>, ttl: int, s: Step)
    requires IsRun(ws, ss, ttl) && Enabled(ws[|ss|], s)
    ensures IsRun(ws + [Next(ws[|ss|], ttl, s)], ss + [s], ttl)
  {
  }

  /** A call has read its facts and not stored them yet, and another one is asking. */
  lemma FactsInHand(a: Addr, h: Holder, facts: string) returns (ws: seq<World>, ss: seq<Step>)
    requires Unmap(a) == a
    ensures IsRun(ws, ss, 1) && |ss| == 4 && ReadsFacts(ws, ss, 2, 0, h.name, facts)
    ensures ws[4].view == View(map[a := h], 0, true, 0, map[])
    ensures ws[4].calls == map[0 := Remembering(a, h, Identity(h.name, a, h.mac, facts)), 1 := Asking(a)]
  {
    var view := map[a := h];
    ss := [Begin(0, a), Lookup(0, Ask(0, 0, Some(view))), Identify(0, Some(facts)), Begin(1, a)];
    var w1 := Next(IDLE, 1, ss[0]);
    var w2 := Next(w1, 1, ss[1]);
    assert w2.calls == map[0 := Identifying(a, h)] && w2.view == View(view, 0, true, 0, map[]);
    var w3 := Next(w2, 1, ss[2]);
    ws := [IDLE, w1, w2, w3, Next(w3, 1, ss[3])];
  }

  /** The failing case happens: facts read under one view are stored after the next one
      was loaded, and served with it. */
  lemma OldFactsAreServed(a: Addr, h: Holder, facts: string) returns (ws: seq<World>, ss: seq<Step>)
    requires Unmap(a) == a
    ensures IsRun(ws, ss, 1) && |ss| == 8 && ss[7] == Lookup(2, Ask(1, 1, None))
    ensures 2 in ws[8].calls && ws[8].calls[2] == Returned(a, h, Identity(h.name, a, h.mac, facts))
    ensures ReadsFacts(ws, ss, 2, 0, h.name, facts) && Renews(ws, ss, 1, 4) && ss[5] == Store(0)
  {
    var view, id := map[a := h], Identity(h.name, a, h.mac, facts);
    ws, ss := FactsInHand(a, h, facts);
    var w5 := Next(ws[4], 1, Lookup(1, Ask(1, 1, Some(view))));
    assert w5.view == View(view, 1, true, 0, map[]) && w5.calls == map[0 := Remembering(a, h, id), 1 := Identifying(a, h)];
    OneStepMore(ws, ss, 1, Lookup(1, Ask(1, 1, Some(view))));
    ws, ss := ws + [w5], ss + [Lookup(1, Ask(1, 1, Some(view)))];
    var w6 := Next(w5, 1, Store(0));
    assert w6.view == View(view, 1, true, 0, map[h.name := id]);
    OneStepMore(ws, ss, 1, Store(0));
    ws, ss := ws + [w6], ss + [Store(0)];
    var w7 := Next(w6, 1, Begin(2, a));
    OneStepMore(ws, ss, 1, Begin(2, a));
    ws, ss := ws + [w7], ss + [Begin(2, a)];
    OneStepMore(ws, ss, 1, Lookup(2, Ask(1, 1, None)));
    ws, ss := ws + [Next(w7, 1, Lookup(2, Ask(1, 1, None)))], ss + [Lookup(2, Ask(1, 1, None))];
  }
}
