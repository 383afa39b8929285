/** The periodic re-check of every routed custom domain. */
module AliasSweep {
  import opened Basics
  import opened NetAddr
  import opened AliasTable
  import opened AliasManager
  import opened DnsCheck

  /** What the environment answers while the sweep looks at one row: the clock, the
      gateway's own lookup, the hostname's lookup, and whether the write succeeds. */
  datatype Probe = Probe(now: int, stored: int, own: Reply, host: Reply, writes: bool)

  function CacheAt(fixed: seq<Addr>, domain: string, cache: Cache, probes: seq<Probe>, i: nat): Cache
    requires i <= |probes|
  {
    if i == 0 then cache
    else
      var p := probes[i - 1];
      Remembered(fixed, domain, CacheAt(fixed, domain, cache, probes, i - 1), p.now, p.stored, p.own)
  }

  /** The gateway's trusted set when the sweep reaches row i. */
  function GatewayAt(fixed: seq<Addr>, domain: string, cache: Cache, probes: seq<Probe>, i: nat): Option<seq<Addr>>
    requires i < |probes|
  {
    Gateway(fixed, domain, CacheAt(fixed, domain, cache, probes, i), probes[i].now, probes[i].own)
  }

  /** Row i is one DNS answered for, and the answer was somebody else. */
  ghost predicate Moved(fixed: seq<Addr>, domain: string, cache: Cache, probes: seq<Probe>, i: nat)
    requires i < |probes|
  {
    var gateway := GatewayAt(fixed, domain, cache, probes, i);
    gateway.Some? && probes[i].host.Answer? && SomeUsable(probes[i].host.ips) && !Overlap(gateway.value, probes[i].host.ips)
  }

  ghost predicate Lists(db: Db, listing: seq<Id>) {
    && (forall k :: k in listing <==> k in db.aliases && db.aliases[k].verified)
    && (forall i, j :: 0 <= i < j < |listing| ==> listing[i] != listing[j])
  }

  ghost predicate UnmappedCache(cache: Cache) {
    cache.Known? ==> forall g :: g in cache.ips ==> Unmap(g) in cache.ips
  }

  lemma {:induction false} CacheStaysUnmapped(fixed: seq<Addr>, domain: string, cache: Cache, probes: seq<Probe>, i: nat)
    requires i <= |probes| && UnmappedCache(cache)
    ensures UnmappedCache(CacheAt(fixed, domain, cache, probes, i))
  {
    if i > 0 {
      CacheStaysUnmapped(fixed, domain, cache, probes, i - 1);
      if probes[i - 1].own.Answer? {
        ResolvedSetsAreUnmapped(probes[i - 1].own.ips);
      }
    }
  }

  lemma MovedIsElsewhere(fixed: seq<Addr>, domain: string, cache: Cache, probes: seq<Probe>, i: nat)
    requires i < |probes| && UnmappedCache(cache) && forall g :: g in fixed ==> Unmap(g) in fixed
    ensures Moved(fixed, domain, cache, probes, i) <==>
            Judge(GatewayAt(fixed, domain, cache, probes, i), probes[i].host) == Elsewhere
  {
    CacheStaysUnmapped(fixed, domain, cache, probes, i);
    if probes[i].own.Answer? {
      ResolvedSetsAreUnmapped(probes[i].own.ips);
    }
    JudgeMeaning(GatewayAt(fixed, domain, cache, probes, i), probes[i].host);
  }

  function Withdrawn(row: Alias): Alias {
    row.(verified := false, lastError := MovedAway)
  }

  /** `after` is `before` with exactly the listed rows marked in `gone` withdrawn. */
  ghost predicate Swept(before: Db, after: Db, listing: seq<Id>, gone: seq<bool>)
    requires |gone| == |listing|
  {
    && after.owners == before.owners && after.aliases.Keys == before.aliases.Keys
    && (forall i :: 0 <= i < |listing| && listing[i] in before.aliases ==>
          after.aliases[listing[i]] == if gone[i] then Withdrawn(before.aliases[listing[i]]) else before.aliases[listing[i]])
    && (forall k :: k in after.aliases && k !in listing ==> after.aliases[k] == before.aliases[k])
  }

  lemma SweptStep(before: Db, after: Db, listing: seq<Id>, gone: seq<bool>, i: nat)
    requires Lists(before, listing) && |gone| == |listing| && i < |listing| && !gone[i]
    requires Swept(before, after, listing, gone)
    ensures Swept(before, Clear(after, listing[i], MovedAway), listing, gone[i := true])
  {
    assert listing[i] in listing;
  }

  /** A sweep only ever takes rows out of routing. */
  lemma SweepNeverPromotes(before: Db, after: Db, listing: seq<Id>, gone: seq<bool>)
    requires |gone| == |listing| && Swept(before, after, listing, gone)
    ensures OnlyWithdraws(before, after)
    ensures (forall i :: 0 <= i < |gone| ==> !gone[i]) ==> after == before
  {
    forall k | k in after.aliases
      ensures after.aliases[k] == before.aliases[k] || after.aliases[k] == Withdrawn(before.aliases[k])
      ensures (forall i :: 0 <= i < |gone| ==> !gone[i]) ==> after.aliases[k] == before.aliases[k]
    {
      if k in listing {
        var i :| 0 <= i < |listing| && listing[i] == k;
      }
    }
  }

  /** The first n rows were judged, the rest not looked at yet. */
  ghost predicate Decided(fixed: seq<Addr>, domain: string, cache: Cache, probes: seq<Probe>, gone: seq<bool>, n: nat) {
    && |gone| == |probes|
    && forall k :: 0 <= k < |probes| ==>
         gone[k] == (k < n && probes[k].writes && Judge(GatewayAt(fixed, domain, cache, probes, k), probes[k].host) == Elsewhere)
  }

  /** A sweep over the verified rows, cut short after `stop` of them. It withdraws
      exactly the rows whose name definitely moved and whose write succeeded; every
      other row, and every name it could not find out about, is left as it was. */
  method ReverifyOnce(store: AliasStore, verifier: Verifier, listing: seq<Id>, probes: seq<Probe>, stop: nat)
    returns (gone: seq<bool>)
    requires Lists(store.db, listing) && |probes| == |listing| && stop <= |listing|
    requires UnmappedCache(verifier.cache) && forall g :: g in verifier.staticIPs ==> Unmap(g) in verifier.staticIPs
    modifies store, verifier
    ensures |gone| == |listing| && Swept(old(store.db), store.db, listing, gone)
    ensures forall i :: 0 <= i < |listing| ==>
              gone[i] == (i < stop && probes[i].writes && Moved(verifier.staticIPs, verifier.domain, old(verifier.cache), probes, i))
  {
    ghost var before, cache := store.db, verifier.cache;
    gone := seq(|listing|, i => false);
    for i := 0 to stop
      invariant verifier.cache == CacheAt(verifier.staticIPs, verifier.domain, cache, probes, i)
      invariant |gone| == |listing| && Swept(before, store.db, listing, gone)
      invariant Decided(verifier.staticIPs, verifier.domain, cache, probes, gone, i)
    {
      var moved := Recheck(verifier, probes[i], cache, probes, i);
      if moved && probes[i].writes {
        SweptStep(before, store.db, listing, gone, i);
        Demote(store, listing[i]);
        gone := gone[i := true];
      }
      assert Decided(verifier.staticIPs, verifier.domain, cache, probes, gone, i + 1);
    }
    MovedRows(verifier.staticIPs, verifier.domain, cache, probes);
  }

  lemma MovedRows(fixed: seq<Addr>, domain: string, cache: Cache, probes: seq<Probe>)
    requires UnmappedCache(cache) && forall g :: g in fixed ==> Unmap(g) in fixed
    ensures forall i :: 0 <= i < |probes| ==>
              (Moved(fixed, domain, cache, probes, i) <==> Judge(GatewayAt(fixed, domain, cache, probes, i), probes[i].host) == Elsewhere)
  {
    forall i | 0 <= i < |probes|
      ensures Moved(fixed, domain, cache, probes, i) <==> Judge(GatewayAt(fixed, domain, cache, probes, i), probes[i].host) == Elsewhere
    {
      MovedIsElsewhere(fixed, domain, cache, probes, i);
    }
  }

  method Recheck(verifier: Verifier, p: Probe, ghost cache: Cache, ghost probes: seq<Probe>, ghost i: nat) returns (moved: bool)
    requires i < |probes| && probes[i] == p
    requires verifier.cache == CacheAt(verifier.staticIPs, verifier.domain, cache, probes, i)
    modifies verifier
    ensures moved == (Judge(GatewayAt(verifier.staticIPs, verifier.domain, cache, probes, i), p.host) == Elsewhere)
    ensures verifier.cache == CacheAt(verifier.staticIPs, verifier.domain, cache, probes, i + 1)
  {
    var verdict := verifier.Verify(p.now, p.stored, p.own, p.host);
    moved := verdict == Elsewhere;
  }

  method Demote(store: AliasStore, id: Id)
    modifies store
    ensures store.db == Clear(old(store.db), id, MovedAway)
  {
    var taken := store.SetAliasVerification(id, false, MovedAway);
  }
}
