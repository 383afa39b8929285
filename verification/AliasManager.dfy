/** The alias manager's calls, each run to its end before the next one starts. */
module AliasManager {
  import Basics
  import opened AliasTable
  import opened AliasRuns
  import AliasNames

  datatype Error = TooMany | HostnameTaken | AlreadyOnVm | NotFound | Invalid(reason: AliasNames.Reason)
  datatype Result = Done | Created(id: Id) | Removed(count: nat) | Refused(error: Error)

  /** One whole call as its caller sees it: names are as typed, verdicts are what DNS said
      during it. */
  datatype Call =
    | CreateVm(c: Id, owner: Id)
    | Add(c: Id, typed: string, newId: Id, dns: Verdict)
    | Recheck(c: Id, id: Id, dns: Verdict)
    | Remove(c: Id, id: Id)
    | Release(typed: string)
    | DeleteVm(c: Id)
    | DeleteAccount(u: Id)
    | Sweep(demoted: seq<Id>)

  // ----- What each call leaves behind -----

  /** A check: verified only when DNS points here and no other row holds the name. */
  function Checked(db: Db, id: Id, dns: Verdict): Db {
    if !dns.PointsHere? then Clear(db, id, CheckFailed)
    else
      match Prove(db, id)
      case Stored(after) => after
      case UniqueViolation => Clear(db, id, TakenByOther)
  }

  function Refusal(db: Db, c: Id, h: Host): (r: Result)
    ensures r == Done <==> |RowsOf(db, c)| < MAX_ALIASES && !HeldByOther(db, c, h) && Listed(db, c, h) == {}
  {
    if |RowsOf(db, c)| >= MAX_ALIASES then Refused(TooMany)
    else if HeldByOther(db, c, h) then Refused(HostnameTaken)
    else if Listed(db, c, h) != {} then Refused(AlreadyOnVm)
    else Done
  }

  predicate Owns(db: Db, c: Id, id: Id) {
    c in db.owners && id in db.aliases && db.aliases[id].container == c
  }

  function Demoted(db: Db, ids: seq<Id>): Db
    decreases |ids|
  {
    if ids == [] then db else Demoted(Clear(db, ids[0], MovedAway), ids[1..])
  }

  /** A claim on a name in its normal form. */
  function Claimed(db: Db, c: Id, h: Host, newId: Id, dns: Verdict): Db {
    if c !in db.owners || newId in db.aliases || Refusal(db, c, h) != Done then db
    else Checked(db.(aliases := db.aliases[newId := Alias(c, h, false, Clean)]), newId, dns)
  }

  function Added(db: Db, v: AliasNames.Verdict, c: Id, newId: Id, dns: Verdict): Db {
    if v.Accepted? then Claimed(db, c, v.name, newId, dns) else db
  }

  function Released(db: Db, h: Host): Db {
    Delete(db, ClaimsOn(db, h))
  }

  function Apply(domain: string, db: Db, call: Call): Db {
    match call
    case CreateVm(c, owner) => if c in db.owners then db else db.(owners := db.owners[c := owner])
    case Add(c, typed, newId, dns) =>
      Added(db, AliasNames.ValidAliasHostname(typed, domain), c, newId, dns)
    case Recheck(c, id, dns) => if Owns(db, c, id) then Checked(db, id, dns) else db
    case Remove(c, id) => if Owns(db, c, id) then Delete(db, {id}) else db
    case Release(typed) => Released(db, AliasNames.LookupName(typed))
    case DeleteVm(c) => DropContainer(db, c)
    case DeleteAccount(u) => DropUser(db, u)
    case Sweep(demoted) => Demoted(db, demoted)
  }

  // ----- The tables before and after -----

  /** A claim that may be made is stored and checked, and any other changes nothing. */
  ghost predicate ClaimLeaves(before: Db, after: Db, c: Id, h: Host, newId: Id, dns: Verdict, r: Result) {
    if MayClaim(before, c, h)
    then r == Created(newId) && CheckLeaves(before.(aliases := before.aliases[newId := Alias(c, h, false, Clean)]), after, newId, dns)
    else r == Refusal(before, c, h) && after == before
  }

  /** Exactly these rows are left of those there were, unchanged. */
  ghost predicate Leaves(before: Db, after: Db, kept: Alias -> bool) {
    forall k :: (k in after.aliases <==> k in before.aliases && kept(before.aliases[k])) && (k in after.aliases ==> after.aliases[k] == before.aliases[k])
  }

  /** Nothing but this row has changed, and it has become this. */
  ghost predicate OnlyBecomes(before: Db, after: Db, id: Id, row: Alias) {
    && after.owners == before.owners && id in after.aliases && after.aliases[id] == row
    && forall k :: k != id ==> (k in after.aliases <==> k in before.aliases) && (k in after.aliases ==> after.aliases[k] == before.aliases[k])
  }

  /** Another row is verified on the same hostname. */
  ghost predicate Beaten(db: Db, id: Id)
    requires id in db.aliases
  {
    exists k :: k in db.aliases && k != id && db.aliases[k].verified && db.aliases[k].hostname == db.aliases[id].hostname
  }

  /** The row is proved: it is verified, and the pending rows of other VMs on its hostname are
      gone. */
  ghost predicate Proved(before: Db, after: Db, id: Id)
    requires id in before.aliases
  {
    var row := before.aliases[id];
    && after.owners == before.owners && id in after.aliases && after.aliases[id] == row.(verified := true, lastError := Clean)
    && forall k :: k != id ==>
         && (k in after.aliases <==> k in before.aliases && (before.aliases[k].hostname != row.hostname || before.aliases[k].container == row.container || before.aliases[k].verified))
         && (k in after.aliases ==> after.aliases[k] == before.aliases[k])
  }

  /** After a check a row is verified if and only if DNS points here and no other row was
      verified on the name; any other answer takes it out of routing and says why. */
  ghost predicate CheckLeaves(before: Db, after: Db, id: Id, dns: Verdict) {
    if id !in before.aliases then after == before
    else if !dns.PointsHere? then OnlyBecomes(before, after, id, before.aliases[id].(verified := false, lastError := CheckFailed))
    else if Beaten(before, id) then OnlyBecomes(before, after, id, before.aliases[id].(verified := false, lastError := TakenByOther))
    else Proved(before, after, id)
  }

  lemma CheckedLeaves(db: Db, id: Id, dns: Verdict)
    ensures CheckLeaves(db, Checked(db, id, dns), id, dns)
  {
    if id in db.aliases && dns.PointsHere? {
      BeatenIff(db, id);
      if !Beaten(db, id) {
        ProveEffect(db, id);
      }
    }
  }

  lemma BeatenIff(db: Db, id: Id)
    requires id in db.aliases
    ensures Beaten(db, id) <==> Prove(db, id).UniqueViolation?
  {
    if Beaten(db, id) {
      var k :| k in db.aliases && k != id && db.aliases[k].verified && db.aliases[k].hostname == db.aliases[id].hostname;
      assert k in VerifiedOn(db, db.aliases[id].hostname);
    }
  }

  /** A VM may list a name when it has fewer than ten, no other VM is verified on it and this
      one does not list it yet. */
  ghost predicate MayClaim(db: Db, c: Id, h: Host) {
    && |RowsOf(db, c)| < 10
    && forall k :: k in db.aliases && db.aliases[k].hostname == h ==> db.aliases[k].container != c && !db.aliases[k].verified
  }

  lemma MayClaimIff(db: Db, c: Id, h: Host)
    ensures Refusal(db, c, h) == Done <==> MayClaim(db, c, h)
    ensures Refusal(db, c, h) != Done ==>
              Refusal(db, c, h) == if |RowsOf(db, c)| >= 10 then Refused(TooMany)
                                   else if exists k :: k in db.aliases && db.aliases[k].hostname == h && db.aliases[k].verified && db.aliases[k].container != c
                                   then Refused(HostnameTaken) else Refused(AlreadyOnVm)
  {
    if exists k :: k in db.aliases && db.aliases[k].hostname == h && db.aliases[k].verified && db.aliases[k].container != c {
      var k :| k in db.aliases && db.aliases[k].hostname == h && db.aliases[k].verified && db.aliases[k].container != c;
      assert k in VerifiedOn(db, h);
    }
    if k :| k in db.aliases && db.aliases[k].hostname == h && db.aliases[k].container == c {
      assert k in Listed(db, c, h);
    }
    if Refusal(db, c, h) == Done {
      forall k | k in db.aliases && db.aliases[k].hostname == h ensures db.aliases[k].container != c && !db.aliases[k].verified {
        assert k !in Listed(db, c, h) && (k in VerifiedOn(db, h) <==> db.aliases[k].verified);
      }
    }
  }

  /** The calls as the code makes them, statement by statement. */
  class AliasStore {
    var db: Db

    constructor ()
      ensures db == Db(map[], map[])
    {
      db := Db(map[], map[]);
    }

    method CreateContainerAlias(c: Id, h: Host, newId: Id) returns (r: Result)
      requires newId !in db.aliases
      modifies this
      ensures r == if Refusal(old(db), c, h) == Done then Created(newId) else Refusal(old(db), c, h)
      ensures db == if r.Created? then old(db).(aliases := old(db).aliases[newId := Alias(c, h, false, Clean)]) else old(db)
    {
      if |RowsOf(db, c)| >= MAX_ALIASES {
        return Refused(TooMany);
      }
      if HeldByOther(db, c, h) {
        return Refused(HostnameTaken);
      }
      if Listed(db, c, h) != {} {
        return Refused(AlreadyOnVm);
      }
      match Insert(db, newId, c, h)
      case UniqueViolation => assert false;
      case Stored(after) =>
        db := after;
        r := Created(newId);
    }

    method SetAliasVerification(id: Id, verified: bool, reason: Note) returns (taken: bool)
      modifies this
      ensures !verified ==> !taken && db == Clear(old(db), id, reason)
      ensures verified ==> taken == Prove(old(db), id).UniqueViolation?
      ensures verified ==> db == if taken then old(db) else Prove(old(db), id).db
    {
      taken := false;
      if !verified {
        db := Clear(db, id, reason);
      } else {
        match Prove(db, id)
        case UniqueViolation => taken := true;
        case Stored(after) => db := after;
      }
    }

    /** Stores the DNS verdict; losing the race to another VM is recorded as a failed check. */
    method Check(id: Id, dns: Verdict)
      modifies this
      ensures db == Checked(old(db), id, dns) && CheckLeaves(old(db), db, id, dns)
    {
      CheckedLeaves(db, id, dns);
      var taken := SetAliasVerification(id, dns.PointsHere?, CheckFailed);
      if taken {
        var _ := SetAliasVerification(id, false, TakenByOther);
      }
    }

    /** A typed hostname is refused with its reason or claimed in its normal form. */
    method Add(domain: string, c: Id, typed: string, newId: Id, dns: Verdict) returns (r: Result)
      requires c in db.owners && newId !in db.aliases
      modifies this
      ensures db == Apply(domain, old(db), Call.Add(c, typed, newId, dns))
      ensures match AliasNames.ValidAliasHostname(typed, domain)
              case Refused(reason) => r == Refused(Invalid(reason)) && db == old(db)
              case Accepted(h) => ClaimLeaves(old(db), db, c, h, newId, dns, r)
    {
      match AliasNames.ValidAliasHostname(typed, domain) {
        case Refused(reason) => r := Refused(Invalid(reason));
        case Accepted(h) => r := AddName(c, h, newId, dns);
      }
    }

    method AddName(c: Id, h: Host, newId: Id, dns: Verdict) returns (r: Result)
      requires c in db.owners && newId !in db.aliases
      modifies this
      ensures db == Claimed(old(db), c, h, newId, dns)
      ensures r == if Refusal(old(db), c, h) == Done then Created(newId) else Refusal(old(db), c, h)
      ensures ClaimLeaves(old(db), db, c, h, newId, dns, r)
    {
      MayClaimIff(db, c, h);
      r := CreateContainerAlias(c, h, newId);
      if r.Created? {
        Check(newId, dns);
      }
    }

    method Recheck(c: Id, id: Id, dns: Verdict) returns (r: Result)
      requires c in db.owners
      modifies this
      ensures db == if Owns(old(db), c, id) then Checked(old(db), id, dns) else old(db)
      ensures if id in old(db).aliases && old(db).aliases[id].container == c then CheckLeaves(old(db), db, id, dns) else db == old(db)
      ensures r == if Owns(old(db), c, id) then Done else Refused(NotFound)
    {
      if id !in db.aliases || db.aliases[id].container != c {
        return Refused(NotFound);
      }
      Check(id, dns);
      r := Done;
    }

    method Remove(c: Id, id: Id) returns (r: Result)
      requires c in db.owners
      modifies this
      ensures db == if Owns(old(db), c, id) then Delete(old(db), {id}) else old(db)
      ensures if id in old(db).aliases && old(db).aliases[id].container == c then db == Db(old(db).aliases - {id}, old(db).owners) else db == old(db)
      ensures r == if Owns(old(db), c, id) then Done else Refused(NotFound)
    {
      if id !in db.aliases || db.aliases[id].container != c {
        return Refused(NotFound);
      }
      db := Delete(db, {id});
      r := Done;
    }

    /** The operator's spelling is normalised as every lookup is. */
    method Release(typed: string) returns (r: Result)
      modifies this
      ensures var h := AliasNames.LookupName(typed);
              && db == Released(old(db), h) && Leaves(old(db), db, (a: Alias) => a.hostname != h) && db.owners == old(db).owners
              && r == if ClaimsOn(old(db), h) == {} then Refused(NotFound) else Removed(|ClaimsOn(old(db), h)|)
    {
      r := ReleaseName(AliasNames.LookupName(typed));
    }

    method ReleaseName(h: Host) returns (r: Result)
      modifies this
      ensures db == Released(old(db), h)
      ensures r == if ClaimsOn(old(db), h) == {} then Refused(NotFound) else Removed(|ClaimsOn(old(db), h)|)
    {
      var claims := ClaimsOn(db, h);
      if claims == {} {
        assert db.aliases - claims == db.aliases;
        return Refused(NotFound);
      }
      db := Delete(db, claims);
      r := Removed(|claims|);
    }

    method DeleteContainer(c: Id)
      modifies this
      ensures db == DropContainer(old(db), c)
      ensures Leaves(old(db), db, (a: Alias) => a.container != c) && db.owners == old(db).owners - {c}
    {
      db := Delete(db, RowsOf(db, c));
      db := db.(owners := db.owners - {c});
    }

    method DeleteUser(u: Id)
      modifies this
      ensures db == DropUser(old(db), u)
      ensures forall c :: c in db.owners <==> c in old(db).owners && old(db).owners[c] != u
      ensures forall c :: c in db.owners ==> db.owners[c] == old(db).owners[c]
      ensures forall k :: (k in db.aliases <==> k in old(db).aliases && !(old(db).aliases[k].container in old(db).owners && old(db).owners[old(db).aliases[k].container] == u))
      ensures forall k :: k in db.aliases ==> db.aliases[k] == old(db).aliases[k]
    {
      db := Delete(db, set k | k in db.aliases && db.aliases[k].container in VmsOf(db, u));
      db := db.(owners := db.owners - VmsOf(db, u));
    }
  }

  // ----- What every sequence of whole calls keeps -----

  /** A verified hostname has exactly one row platform-wide. */
  ghost predicate VerifiedAlone(db: Db) {
    forall v, k | v in db.aliases && k in db.aliases && db.aliases[v].verified
      :: db.aliases[k].hostname == db.aliases[v].hostname ==> k == v
  }

  ghost predicate WithinLimit(db: Db) {
    forall c :: |RowsOf(db, c)| <= MAX_ALIASES
  }

  /** No alias outlives its VM. */
  ghost predicate NoOrphan(db: Db) {
    forall k :: k in db.aliases ==> db.aliases[k].container in db.owners
  }

  ghost predicate Sound(db: Db) {
    VerifiedAlone(db) && ListedOnce(db) && WithinLimit(db) && NoOrphan(db)
  }

  lemma FewerRows(a: Db, b: Db)
    requires WithinLimit(a)
    requires forall k :: k in b.aliases ==> k in a.aliases && b.aliases[k].container == a.aliases[k].container
    ensures WithinLimit(b)
  {
    forall c ensures |RowsOf(b, c)| <= MAX_ALIASES {
      assert RowsOf(b, c) <= RowsOf(a, c);
      Basics.SubsetSize(RowsOf(b, c), RowsOf(a, c));
    }
  }

  lemma WithdrawalIsSound(a: Db, b: Db)
    requires Sound(a) && OnlyWithdraws(a, b) && NoOrphan(b)
    ensures Sound(b)
  {
    WithdrawalKeeps(a, b);
    FewerRows(a, b);
    forall v, k | v in b.aliases && k in b.aliases && b.aliases[v].verified && b.aliases[k].hostname == b.aliases[v].hostname
      ensures k == v
    {
      assert a.aliases[v].verified;
    }
  }

  lemma CheckedIsSound(db: Db, id: Id, dns: Verdict)
    requires Sound(db)
    ensures Sound(Checked(db, id, dns))
  {
    if dns.PointsHere? && Prove(db, id).Stored? {
      if id in db.aliases {
        ProveEffect(db, id);
        ProveKeeps(db, id);
        var after := Prove(db, id).db;
        FewerRows(db, after);
      }
    } else {
      WithdrawalIsSound(db, Checked(db, id, dns));
    }
  }

  lemma AdmittedIsSound(db: Db, c: Id, h: Host, newId: Id)
    requires Sound(db) && c in db.owners && newId !in db.aliases && Refusal(db, c, h) == Done
    ensures Sound(db.(aliases := db.aliases[newId := Alias(c, h, false, Clean)]))
  {
    var after := db.(aliases := db.aliases[newId := Alias(c, h, false, Clean)]);
    InsertKeeps(db, newId, c, h);
    forall k | k in db.aliases && db.aliases[k].hostname == h ensures !db.aliases[k].verified && db.aliases[k].container != c {
      assert k !in Listed(db, c, h);
      assert db.aliases[k].verified ==> k in VerifiedOn(db, h);
    }
    OneMoreRow(db, c, h, newId);
  }

  lemma OneMoreRow(db: Db, c: Id, h: Host, newId: Id)
    requires WithinLimit(db) && newId !in db.aliases && |RowsOf(db, c)| < MAX_ALIASES
    ensures WithinLimit(db.(aliases := db.aliases[newId := Alias(c, h, false, Clean)]))
  {
    var after := db.(aliases := db.aliases[newId := Alias(c, h, false, Clean)]);
    assert RowsOf(after, c) == RowsOf(db, c) + {newId};
    forall x | x != c ensures |RowsOf(after, x)| <= MAX_ALIASES {
      assert RowsOf(after, x) == RowsOf(db, x);
    }
  }

  lemma {:induction false} DemotedIsSound(db: Db, ids: seq<Id>)
    requires Sound(db)
    ensures Sound(Demoted(db, ids))
    decreases |ids|
  {
    if ids != [] {
      WithdrawalIsSound(db, Clear(db, ids[0], MovedAway));
      DemotedIsSound(Clear(db, ids[0], MovedAway), ids[1..]);
    }
  }

  lemma ClaimedIsSound(db: Db, c: Id, h: Host, newId: Id, dns: Verdict)
    requires Sound(db)
    ensures Sound(Claimed(db, c, h, newId, dns))
  {
    if !(c !in db.owners || newId in db.aliases || Refusal(db, c, h) != Done) {
      AdmittedIsSound(db, c, h, newId);
      CheckedIsSound(db.(aliases := db.aliases[newId := Alias(c, h, false, Clean)]), newId, dns);
    }
  }

  lemma AddIsSound(db: Db, v: AliasNames.Verdict, c: Id, newId: Id, dns: Verdict)
    requires Sound(db)
    ensures Sound(Added(db, v, c, newId, dns))
  {
    if v.Accepted? {
      ClaimedIsSound(db, c, v.name, newId, dns);
    }
  }

  lemma ApplyIsSound(domain: string, db: Db, call: Call)
    requires Sound(db)
    ensures Sound(Apply(domain, db, call))
  {
    match call {
      case CreateVm(c, owner) => WithdrawalIsSound(db, Apply(domain, db, call));
      case Add(c, typed, newId, dns) => AddIsSound(db, AliasNames.ValidAliasHostname(typed, domain), c, newId, dns);
      case Recheck(c, id, dns) => CheckedIsSound(db, id, dns);
      case Remove(c, id) => WithdrawalIsSound(db, Apply(domain, db, call));
      case Release(typed) => WithdrawalIsSound(db, Released(db, AliasNames.LookupName(typed)));
      case DeleteVm(c) => WithdrawalIsSound(db, Apply(domain, db, call));
      case DeleteAccount(u) => WithdrawalIsSound(db, Apply(domain, db, call));
      case Sweep(ids) => DemotedIsSound(db, ids);
    }
  }

  function AfterCalls(domain: string, calls: seq<Call>): Db
    decreases |calls|
  {
    if calls == [] then Db(map[], map[]) else Apply(domain, AfterCalls(domain, calls[..|calls| - 1]), calls[|calls| - 1])
  }

  /** Whatever whole calls were made, every verified hostname has exactly one row, no
      VM lists a hostname twice or has more than ten rows, and no row outlives its VM. */
  lemma {:induction false} EveryCallSequenceIsSound(domain: string, calls: seq<Call>)
    ensures Sound(AfterCalls(domain, calls))
    decreases |calls|
  {
    if calls == [] {
      assert forall c :: RowsOf(AfterCalls(domain, calls), c) == {};
    } else {
      EveryCallSequenceIsSound(domain, calls[..|calls| - 1]);
      ApplyIsSound(domain, AfterCalls(domain, calls[..|calls| - 1]), calls[|calls| - 1]);
    }
  }

  // ----- Names -----

  lemma {:induction false} DemotedKeepsNames(db: Db, ids: seq<Id>, k: Id)
    requires k in Demoted(db, ids).aliases
    ensures k in db.aliases && Demoted(db, ids).aliases[k].hostname == db.aliases[k].hostname
    decreases |ids|
  {
    if ids != [] {
      DemotedKeepsNames(Clear(db, ids[0], MovedAway), ids[1..], k);
    }
  }

  lemma ClaimKeepsNames(db: Db, c: Id, h: Host, newId: Id, dns: Verdict, k: Id)
    requires k in Claimed(db, c, h, newId, dns).aliases
    ensures Claimed(db, c, h, newId, dns).aliases[k].hostname == if k in db.aliases then db.aliases[k].hostname else h
  {
  }

  /** A call gives a row the normal form of the name it was called with, and changes no
      other row's name. */
  lemma ApplyKeepsNames(domain: string, db: Db, call: Call, k: Id)
    requires k in Apply(domain, db, call).aliases
    ensures var h := Apply(domain, db, call).aliases[k].hostname;
            if k in db.aliases then h == db.aliases[k].hostname
            else call.Add? && AliasNames.ValidAliasHostname(call.typed, domain) == AliasNames.Accepted(h)
  {
    if call.Sweep? {
      DemotedKeepsNames(db, call.demoted, k);
    } else if call.Add? {
      var v := AliasNames.ValidAliasHostname(call.typed, domain);
      if v.Accepted? {
        ClaimKeepsNames(db, call.c, v.name, call.newId, call.dns, k);
      }
    }
  }

  ghost predicate Normal(h: Host, domain: string) {
    AliasNames.ValidAliasHostname(h, domain) == AliasNames.Accepted(h)
  }

  /** Whatever was typed, every stored hostname is valid and in its normal form: what is
      looked up for a Host header is the stored spelling. */
  lemma {:induction false} StoredNamesAreNormal(domain: string, calls: seq<Call>, k: Id)
    requires k in AfterCalls(domain, calls).aliases
    ensures Normal(AfterCalls(domain, calls).aliases[k].hostname, domain)
    decreases |calls|
  {
    var front, last := calls[..|calls| - 1], calls[|calls| - 1];
    ApplyKeepsNames(domain, AfterCalls(domain, front), last, k);
    if k in AfterCalls(domain, front).aliases {
      StoredNamesAreNormal(domain, front, k);
    } else {
      AliasNames.AcceptedIsStable(last.typed, domain);
    }
  }
}
