/** Whether a hostname resolves to this gateway. */
module DnsCheck {
  import opened Basics
  import opened NetAddr

  /** A resolver's answer: a failure, or raw addresses. */
  datatype Reply = Failed | Answer(ips: seq<seq<Byte>>)

  /** Only Elsewhere says where a name points instead; Unknown says nothing. */
  datatype Outcome = Here | Elsewhere | Unknown

  /** The gateway's own resolved addresses and when they were resolved. */
  datatype Cache = Empty | Known(ips: seq<Addr>, at: int)

  /** Five minutes. */
  const GATEWAY_TTL := 300 * SECOND

  /** The readable addresses of an answer, in order. */
  function Usable(ips: seq<seq<Byte>>): (r: seq<Addr>)
    ensures forall a :: a in r ==> !Mapped(a)
  {
    if ips == [] then []
    else
      var rest := Usable(ips[1..]);
      match ToAddr(ips[0])
      case Some(a) => [a] + rest
      case None => rest
  }

  lemma {:induction false} UsableAppend(ips: seq<seq<Byte>>, ip: seq<Byte>)
    ensures Usable(ips + [ip]) == Usable(ips) + (match ToAddr(ip) case Some(a) => [a] case None => [])
  {
    if ips != [] {
      assert (ips + [ip])[1..] == ips[1..] + [ip];
      UsableAppend(ips[1..], ip);
    }
  }

  // ----- The decision -----

  predicate Fresh(cache: Cache, now: int) {
    cache.Known? && now - cache.at < GATEWAY_TTL
  }

  /** The address set the gateway trusts at `now`; `reply` is what resolving its own
      domain would answer. */
  function Gateway(fixed: seq<Addr>, domain: string, cache: Cache, now: int, reply: Reply): Option<seq<Addr>> {
    if fixed != [] then Some(fixed)
    else if domain == "" then None
    else if Fresh(cache, now) then Some(cache.ips)
    else if reply.Answer? && Usable(reply.ips) != [] then Some(Usable(reply.ips))
    else None
  }

  /** The cache afterwards: a failed lookup is not remembered. */
  function Remembered(fixed: seq<Addr>, domain: string, cache: Cache, now: int, stored: int, reply: Reply): Cache {
    if fixed == [] && domain != "" && !Fresh(cache, now) && reply.Answer? && Usable(reply.ips) != []
    then Known(Usable(reply.ips), stored)
    else cache
  }

  /** What a check concludes from the trusted set and the hostname's own answer. */
  function Judge(gateway: Option<seq<Addr>>, host: Reply): Outcome {
    if gateway.None? || host.Failed? || Usable(host.ips) == [] then Unknown
    else if exists a :: a in Usable(host.ips) && a in gateway.value then Here
    else Elsewhere
  }

  class Verifier {
    const domain: string
    const staticIPs: seq<Addr>
    var cache: Cache

    constructor (domain: string, staticIPs: seq<Addr>)
      ensures this.domain == domain && this.staticIPs == staticIPs && cache == Empty
    {
      this.domain := domain;
      this.staticIPs := staticIPs;
      cache := Empty;
    }

    method GatewayAddrs(now: int, stored: int, reply: Reply) returns (r: Option<seq<Addr>>)
      modifies this
      ensures r == Gateway(staticIPs, domain, old(cache), now, reply)
      ensures cache == Remembered(staticIPs, domain, old(cache), now, stored, reply)
      ensures Trusts(staticIPs, domain, old(cache), now, stored, reply, r, cache)
    {
      TrustedSet(staticIPs, domain, cache, now, stored, reply);
      if |staticIPs| > 0 {
        return Some(staticIPs);
      }
      if domain == "" {
        return None;
      }
      if cache.Known? && now - cache.at < GATEWAY_TTL {
        return Some(cache.ips);
      }
      if reply.Failed? {
        return None;
      }
      var addrs := Readable(reply.ips);
      if |addrs| == 0 {
        return None;
      }
      cache := Known(addrs, stored);
      return Some(addrs);
    }

    method Readable(ips: seq<seq<Byte>>) returns (addrs: seq<Addr>)
      ensures addrs == Usable(ips)
    {
      addrs := [];
      for i := 0 to |ips|
        invariant addrs == Usable(ips[..i])
      {
        UsableAppend(ips[..i], ips[i]);
        assert ips[..i + 1] == ips[..i] + [ips[i]];
        var addr := ToAddr(ips[i]);
        if addr.Some? {
          addrs := addrs + [addr.value];
        }
      }
      assert ips[..|ips|] == ips;
    }

    method Verify(now: int, stored: int, own: Reply, host: Reply) returns (r: Outcome)
      modifies this
      ensures r == Judge(Gateway(staticIPs, domain, old(cache), now, own), host)
      ensures cache == Remembered(staticIPs, domain, old(cache), now, stored, own)
    {
      var gateway := GatewayAddrs(now, stored, own);
      if gateway.None? || host.Failed? || |host.ips| == 0 {
        return Unknown;
      }
      var addrs := Readable(host.ips);
      if |addrs| == 0 {
        return Unknown;
      }
      for i := 0 to |addrs|
        invariant forall k :: 0 <= k < i ==> addrs[k] !in gateway.value
      {
        for j := 0 to |gateway.value|
          invariant addrs[i] !in gateway.value[..j]
        {
          if addrs[i] == gateway.value[j] {
            assert addrs[i] in Usable(host.ips);
            return Here;
          }
        }
      }
      return Elsewhere;
    }
  }

  // ----- What the decision means -----

  /** The two sets share a host, whichever form either address is written in. */
  ghost predicate Overlap(gateway: seq<Addr>, ips: seq<seq<Byte>>) {
    exists i, g :: 0 <= i < |ips| && g in gateway && ToAddr(ips[i]) == Some(Unmap(g))
  }

  ghost predicate SomeUsable(ips: seq<seq<Byte>>) {
    exists i :: 0 <= i < |ips| && ToAddr(ips[i]).Some?
  }

  lemma {:induction false} UsableMembers(ips: seq<seq<Byte>>, a: Addr)
    ensures a in Usable(ips) <==> exists i :: 0 <= i < |ips| && ToAddr(ips[i]) == Some(a)
  {
    if ips != [] {
      UsableMembers(ips[1..], a);
      assert forall i :: 0 < i < |ips| ==> ips[i] == ips[1..][i - 1];
      if a in Usable(ips[1..]) {
        var i :| 0 <= i < |ips[1..]| && ToAddr(ips[1..][i]) == Some(a);
        assert ToAddr(ips[i + 1]) == Some(a);
      }
      if ToAddr(ips[0]) == Some(a) {
        assert a in Usable(ips);
      }
    }
  }

  lemma UsableNonEmpty(ips: seq<seq<Byte>>)
    ensures Usable(ips) != [] <==> SomeUsable(ips)
  {
    if Usable(ips) != [] {
      UsableMembers(ips, Usable(ips)[0]);
    }
    if SomeUsable(ips) {
      var i :| 0 <= i < |ips| && ToAddr(ips[i]).Some?;
      UsableMembers(ips, ToAddr(ips[i]).value);
    }
  }

  /** Over a set in unmapped form the verdict is exactly what the addresses say:
      elsewhere only when the gateway knows itself, the name had a readable address
      and the two sets are disjoint. */
  lemma JudgeMeaning(gateway: Option<seq<Addr>>, host: Reply)
    requires gateway.Some? ==> forall g :: g in gateway.value ==> Unmap(g) in gateway.value
    ensures Judge(gateway, host) == Elsewhere <==>
            gateway.Some? && host.Answer? && SomeUsable(host.ips) && !Overlap(gateway.value, host.ips)
    ensures Judge(gateway, host) == Here <==> gateway.Some? && host.Answer? && Overlap(gateway.value, host.ips)
  {
    if gateway.Some? && host.Answer? {
      UsableNonEmpty(host.ips);
      if Overlap(gateway.value, host.ips) {
        var i, g :| 0 <= i < |host.ips| && g in gateway.value && ToAddr(host.ips[i]) == Some(Unmap(g));
        UsableMembers(host.ips, Unmap(g));
      }
      if a :| a in Usable(host.ips) && a in gateway.value {
        UsableMembers(host.ips, a);
        var i :| 0 <= i < |host.ips| && ToAddr(host.ips[i]) == Some(a);
        assert Unmap(a) == a;
      }
    }
  }

  /** A resolved set is always in unmapped form, so only static addresses can break it. */
  lemma ResolvedSetsAreUnmapped(ips: seq<seq<Byte>>)
    ensures forall g :: g in Usable(ips) ==> Unmap(g) in Usable(ips)
  {
    forall g | g in Usable(ips) ensures Unmap(g) == g {
      assert !Mapped(g);
    }
  }

  /** The trusted set is exactly what an answer could be read as. */
  ghost predicate ReadFrom(ips: seq<Addr>, reply: Reply) {
    reply.Answer? && SomeUsable(reply.ips) && forall a :: a in ips <==> exists i :: 0 <= i < |reply.ips| && ToAddr(reply.ips[i]) == Some(a)
  }

  /** The operator's addresses come first; a resolved set is trusted for less than five
      minutes from when it was stored; only an answer with a readable address replaces it. */
  ghost predicate Trusts(fixed: seq<Addr>, domain: string, before: Cache, now: int, stored: int, reply: Reply, r: Option<seq<Addr>>, after: Cache) {
    if fixed != [] then r == Some(fixed) && after == before
    else if domain == "" then r == None && after == before
    else if before.Known? && now < before.at + 300_000_000_000 then r == Some(before.ips) && after == before
    else if reply.Answer? && SomeUsable(reply.ips) then r.Some? && ReadFrom(r.value, reply) && after == Known(r.value, stored)
    else r == None && after == before
  }

  lemma TrustedSet(fixed: seq<Addr>, domain: string, cache: Cache, now: int, stored: int, reply: Reply)
    ensures Trusts(fixed, domain, cache, now, stored, reply, Gateway(fixed, domain, cache, now, reply), Remembered(fixed, domain, cache, now, stored, reply))
  {
    if reply.Answer? {
      UsableNonEmpty(reply.ips);
      forall a ensures a in Usable(reply.ips) <==> exists i :: 0 <= i < |reply.ips| && ToAddr(reply.ips[i]) == Some(a) {
        UsableMembers(reply.ips, a);
      }
    }
  }

  ghost predicate JudgesRight(fixed: seq<Addr>, host: Reply) {
    Judge(Some(fixed), host) == Here <==> host.Answer? && Overlap(fixed, host.ips)
  }

  /** The operator's static addresses are compared verbatim: every name pointing at
      the gateway is recognised if and only if each address is also listed unmapped. */
  lemma StaticFormDecides(fixed: seq<Addr>)
    ensures (forall host :: JudgesRight(fixed, host)) <==> (forall g :: g in fixed ==> Unmap(g) in fixed)
  {
    if forall g :: g in fixed ==> Unmap(g) in fixed {
      forall host ensures JudgesRight(fixed, host) {
        JudgeMeaning(Some(fixed), host);
      }
    } else {
      var g :| g in fixed && Unmap(g) !in fixed;
      var host := Answer([g]);
      assert ToAddr(host.ips[0]) == Some(Unmap(g));
      assert Overlap(fixed, host.ips);
      assert Usable(host.ips) == [Unmap(g)];
      assert !JudgesRight(fixed, host);
    }
  }
}
