/** Every interleaving of the single statements and transactions behind Add,
    Recheck, Remove, Release, VM and account deletion and the periodic sweep. */
module AliasRuns {
  import opened AliasTable

  /** What a DNS check says about a hostname. */
  datatype Verdict = PointsHere | PointsElsewhere | CannotTell

  /** Where one call stands between two statements. `seen` is the moment the
      lookup of CreateContainerAlias ran. */
  datatype Proc =
    | AddCount(c: Id, h: Host)
    | AddLookup(c: Id, h: Host)
    | AddMine(c: Id, h: Host, seen: nat)
    | AddInsert(c: Id, h: Host, seen: nat)
    | AddReread(id: Id)
    | CheckDns(id: Id)
    | CheckWrite(id: Id, ok: bool)
    | CheckTaken(id: Id)
    | CheckReread(id: Id)
    | RecheckOwned(c: Id, id: Id)
    | RemoveOwned(c: Id, id: Id)
    | RemoveDelete(id: Id)
    | ReleaseList(h: Host)
    | ReleaseDelete(h: Host)
    | ContainerDeletion(c: Id)
    | UserDeletion(u: Id)
    | SweepList
    | SweepNext(todo: seq<Id>)
    | SweepDemote(id: Id, todo: seq<Id>)
    | Finished

  /** The database, the calls in flight and, for each row, the moment of the lookup
      that admitted it and of its last verification. */
  datatype World = World(db: Db, procs: map<nat, Proc>, clock: nat, used: set<Id>,
                         admitted: map<Id, nat>, proved: map<Id, nat>)

  /** One step: a call starts, a VM is created, or a call in flight runs its next
      statement. Failing SQL, the DNS answer, the new row id and the order of a
      listing are the environment's to choose. */
  datatype Label =
    | Start(tid: nat, proc: Proc)
    | NewVm(c: Id, owner: Id)
    | Run(tid: nat, sqlFails: bool, dns: Verdict, newId: Id, listing: seq<Id>)

  predicate IsEntry(p: Proc) {
    p.AddCount? || p.RecheckOwned? || p.RemoveOwned? || p.ReleaseList? || p.ContainerDeletion? || p.UserDeletion? || p.SweepList?
  }

  predicate Enabled(w: World, l: Label) {
    match l
    case Start(tid, p) => tid !in w.procs && IsEntry(p)
    case NewVm(c, owner) => c !in w.db.owners
    case Run(tid, _, _, newId, _) => tid in w.procs && newId !in w.used && newId !in w.db.aliases
  }

  function Goto(w: World, tid: nat, p: Proc): World {
    w.(procs := w.procs[tid := p], clock := w.clock + 1)
  }

  function Write(w: World, tid: nat, p: Proc, db: Db): World {
    Goto(w.(db := db), tid, p)
  }

  function Next(w: World, l: Label): (w': World)
    requires Enabled(w, l)
    ensures w'.clock == w.clock + 1
  {
    match l
    case Start(tid, p) => Goto(w, tid, p)
    case NewVm(c, owner) => w.(db := w.db.(owners := w.db.owners[c := owner]), clock := w.clock + 1)
    case Run(tid, sqlFails, dns, newId, listing) =>
      if sqlFails then Goto(w, tid, AfterFailure(w.procs[tid]))
      else RunStatement(w, tid, dns, newId, listing)
  }

  /** A failed statement or transaction changes nothing and ends the call, except
      that the sweep goes on to its next row. */
  function AfterFailure(p: Proc): Proc {
    if p.SweepDemote? then SweepNext(p.todo) else Finished
  }

  /** An Add that has passed the count and not inserted yet. */
  predicate Checking(p: Proc) {
    p.AddLookup? || p.AddMine? || p.AddInsert?
  }

  predicate AboutToCheck(w: World, p: Proc, c: Id) {
    (Checking(p) && p.c == c) || (p.AddCount? && p.c == c && |RowsOf(w.db, c)| < MAX_ALIASES)
  }

  function RunStatement(w: World, tid: nat, dns: Verdict, newId: Id, listing: seq<Id>): (w': World)
    requires tid in w.procs && newId !in w.used && newId !in w.db.aliases
    ensures w'.clock == w.clock + 1 && tid in w'.procs && w'.procs == w.procs[tid := w'.procs[tid]]
    ensures Checking(w'.procs[tid]) ==> AboutToCheck(w, w.procs[tid], w'.procs[tid].c)
  {
    match w.procs[tid]
    case AddCount(c, h) =>
      Goto(w, tid, if |RowsOf(w.db, c)| >= MAX_ALIASES then Finished else AddLookup(c, h))
    case AddLookup(c, h) =>
      Goto(w, tid, if HeldByOther(w.db, c, h) then Finished else AddMine(c, h, w.clock))
    case AddMine(c, h, seen) =>
      Goto(w, tid, if Listed(w.db, c, h) != {} then Finished else AddInsert(c, h, seen))
    case AddInsert(c, h, seen) =>
      (match Insert(w.db, newId, c, h)
       case UniqueViolation => Goto(w, tid, Finished)
       case Stored(db) =>
         Write(w, tid, AddReread(newId), db).(used := w.used + {newId}, admitted := w.admitted[newId := seen]))
    case AddReread(id) => Goto(w, tid, if id in w.db.aliases then CheckDns(id) else Finished)
    case CheckDns(id) => Goto(w, tid, CheckWrite(id, dns.PointsHere?))
    case CheckWrite(id, false) => Write(w, tid, CheckReread(id), Clear(w.db, id, CheckFailed))
    case CheckWrite(id, true) =>
      (match Prove(w.db, id)
       case UniqueViolation => Goto(w, tid, CheckTaken(id))
       case Stored(db) =>
         Write(w, tid, CheckReread(id), db).(proved := Restamped(w, id)))
    case CheckTaken(id) => Write(w, tid, CheckReread(id), Clear(w.db, id, TakenByOther))
    case CheckReread(id) => Goto(w, tid, Finished)
    case RecheckOwned(c, id) =>
      Goto(w, tid, if id in w.db.aliases && w.db.aliases[id].container == c then CheckDns(id) else Finished)
    case RemoveOwned(c, id) =>
      Goto(w, tid, if id in w.db.aliases && w.db.aliases[id].container == c then RemoveDelete(id) else Finished)
    case RemoveDelete(id) => Write(w, tid, Finished, Delete(w.db, {id}))
    case ReleaseList(h) => Goto(w, tid, if ClaimsOn(w.db, h) == {} then Finished else ReleaseDelete(h))
    case ReleaseDelete(h) => Write(w, tid, Finished, Delete(w.db, ClaimsOn(w.db, h)))
    case ContainerDeletion(c) => Write(w, tid, Finished, DropContainer(w.db, c))
    case UserDeletion(u) => Write(w, tid, Finished, DropUser(w.db, u))
    case SweepList => Goto(w, tid, SweepNext(listing))
    case SweepNext(todo) =>
      if todo == [] then Goto(w, tid, Finished)
      else if dns.PointsElsewhere? then Goto(w, tid, SweepDemote(todo[0], todo[1..]))
      else Goto(w, tid, SweepNext(todo[1..]))
    case SweepDemote(id, todo) => Write(w, tid, SweepNext(todo), Clear(w.db, id, MovedAway))
    case Finished => Goto(w, tid, Finished)
  }

  /** A verification is stamped when it makes the row verified, not when it repeats one. */
  function Restamped(w: World, id: Id): map<Id, nat> {
    if id in w.db.aliases && !w.db.aliases[id].verified then w.proved[id := w.clock] else w.proved
  }

  const EMPTY := World(Db(map[], map[]), map[], 0, {}, map[], map[])

  /** A run from the empty platform: ws[i + 1] is ws[i] after step ls[i]. */
  ghost predicate IsRun(ws: seq<World>, ls: seq<Label>) {
    && |ws| == |ls| + 1
    && ws[0] == EMPTY
    && forall i :: 0 <= i < |ls| ==> Enabled(ws[i], ls[i]) && ws[i + 1] == Next(ws[i], ls[i])
  }

  // ----- The invariant -----

  /** Every row has the moment it was admitted, every verified row the moment it
      was verified, all of them in the past. */
  ghost predicate Stamped(w: World) {
    && (forall k :: k in w.db.aliases ==> k in w.used && k in w.admitted && w.admitted[k] < w.clock)
    && (forall k :: k in w.db.aliases && w.db.aliases[k].verified ==> k in w.proved && w.proved[k] < w.clock)
  }

  /** A claim looked up at `seen` on `h` by VM `c` predates every verification
      another VM now holds on that hostname. */
  ghost predicate Predates(w: World, c: Id, h: Host, seen: nat) {
    forall v | v in w.db.aliases && w.db.aliases[v].verified && w.db.aliases[v].hostname == h
      :: w.db.aliases[v].container != c ==> v in w.proved && seen < w.proved[v]
  }

  ghost predicate RowsPredate(w: World) {
    forall p :: p in w.db.aliases && !w.db.aliases[p].verified ==>
      p in w.admitted && Predates(w, w.db.aliases[p].container, w.db.aliases[p].hostname, w.admitted[p])
  }

  ghost predicate ProcPredates(w: World, p: Proc) {
    p.AddMine? || p.AddInsert? ==> p.seen < w.clock && Predates(w, p.c, p.h, p.seen)
  }

  ghost predicate Inv(w: World) {
    && OneVerified(w.db) && ListedOnce(w.db)
    && Stamped(w) && RowsPredate(w)
    && forall t :: t in w.procs ==> ProcPredates(w, w.procs[t])
  }

  /** A step that verifies nothing new and adds no row keeps the invariant. */
  lemma WithdrawalStep(w: World, tid: nat, p: Proc, db: Db)
    requires Inv(w) && OnlyWithdraws(w.db, db) && ProcPredates(w, p)
    requires forall k :: k in db.aliases && !db.aliases[k].verified && w.db.aliases[k].verified ==>
               forall v :: v in db.aliases && db.aliases[v].verified ==> !Competing(db.aliases[v], db.aliases[k])
    ensures Inv(Write(w, tid, p, db))
  {
    var w' := Write(w, tid, p, db);
    WithdrawalKeeps(w.db, db);
    forall k | k in db.aliases && !db.aliases[k].verified
      ensures Predates(w', db.aliases[k].container, db.aliases[k].hostname, w.admitted[k])
    {
      if !w.db.aliases[k].verified {
        assert Predates(w, w.db.aliases[k].container, w.db.aliases[k].hostname, w.admitted[k]);
      }
    }
    forall t | t in w'.procs ensures ProcPredates(w', w'.procs[t]) {
      assert t != tid ==> ProcPredates(w, w.procs[t]);
    }
  }

  lemma ClearStep(w: World, tid: nat, p: Proc, id: Id, reason: Note)
    requires Inv(w) && ProcPredates(w, p)
    ensures Inv(Write(w, tid, p, Clear(w.db, id, reason)))
  {
    var db := Clear(w.db, id, reason);
    forall k, v | k in db.aliases && !db.aliases[k].verified && w.db.aliases[k].verified && v in db.aliases && db.aliases[v].verified
      ensures !Competing(db.aliases[v], db.aliases[k])
    {
      assert k == id && v != id && w.db.aliases[v].verified;
    }
    WithdrawalStep(w, tid, p, db);
  }

  lemma DeleteStep(w: World, tid: nat, db: Db)
    requires Inv(w)
    requires forall k :: k in db.aliases ==> k in w.db.aliases && db.aliases[k] == w.db.aliases[k]
    ensures Inv(Write(w, tid, Finished, db))
  {
    WithdrawalStep(w, tid, Finished, db);
  }

  lemma InsertStep(w: World, tid: nat, p: Proc, newId: Id)
    requires Inv(w) && p.AddInsert? && ProcPredates(w, p) && newId !in w.used
    requires Insert(w.db, newId, p.c, p.h).Stored?
    ensures Inv(Write(w, tid, AddReread(newId), Insert(w.db, newId, p.c, p.h).db)
                .(used := w.used + {newId}, admitted := w.admitted[newId := p.seen]))
  {
    InsertKeeps(w.db, newId, p.c, p.h);
    AdmittedStep(w, tid, p, newId, Insert(w.db, newId, p.c, p.h).db);
  }

  lemma AdmittedStep(w: World, tid: nat, p: Proc, newId: Id, db: Db)
    requires Inv(w) && OneVerified(db) && ListedOnce(db) && p.AddInsert? && ProcPredates(w, p) && newId !in w.used
    requires db.aliases == w.db.aliases[newId := Alias(p.c, p.h, false, Clean)]
    ensures Inv(Write(w, tid, AddReread(newId), db).(used := w.used + {newId}, admitted := w.admitted[newId := p.seen]))
  {
    var w' := Write(w, tid, AddReread(newId), db).(used := w.used + {newId}, admitted := w.admitted[newId := p.seen]);
    assert newId !in w.db.aliases;
    Transfer(w, w', p.c, p.h, p.seen);
    Carried(w, w', tid, newId);
  }

  /** An invariant state whose verifications are old or made now carries over, but for
      one row and one call that are looked at on their own. */
  lemma Carried(w: World, w': World, tid: nat, id: Id)
    requires Inv(w) && OneVerified(w'.db) && ListedOnce(w'.db) && Stamped(w') && Verifies(w, w')
    requires forall k :: k in w'.db.aliases && k != id ==>
               k in w.db.aliases && w'.db.aliases[k] == w.db.aliases[k] && k in w.admitted && k in w'.admitted && w'.admitted[k] == w.admitted[k]
    requires id in w'.db.aliases && !w'.db.aliases[id].verified ==>
               id in w'.admitted && Predates(w', w'.db.aliases[id].container, w'.db.aliases[id].hostname, w'.admitted[id])
    requires forall t :: t in w'.procs && t != tid ==> t in w.procs && w'.procs[t] == w.procs[t]
    requires tid in w'.procs ==> ProcPredates(w', w'.procs[tid])
    ensures Inv(w')
  {
    forall k | k in w'.db.aliases && !w'.db.aliases[k].verified
      ensures k in w'.admitted && Predates(w', w'.db.aliases[k].container, w'.db.aliases[k].hostname, w'.admitted[k])
    {
      if k != id { Transfer(w, w', w.db.aliases[k].container, w.db.aliases[k].hostname, w.admitted[k]); }
    }
    forall t | t in w'.procs ensures ProcPredates(w', w'.procs[t]) {
      if t != tid { TransferProc(w, w', w.procs[t]); }
    }
  }

  /** The row is in both states, verified, for the same VM and hostname. */
  predicate SameClaim(db: Db, db': Db, v: Id) {
    && v in db.aliases && v in db'.aliases && db.aliases[v].verified && db'.aliases[v].verified
    && db.aliases[v].container == db'.aliases[v].container && db.aliases[v].hostname == db'.aliases[v].hostname
  }

  /** No verified row of w' is new but those verified at the moment of w or later. */
  ghost predicate Verifies(w: World, w': World) {
    && w.clock < w'.clock
    && forall v :: v in w'.db.aliases && w'.db.aliases[v].verified ==>
         v in w'.proved && (w'.proved[v] >= w.clock || (SameClaim(w.db, w'.db, v) && v in w.proved && w'.proved[v] == w.proved[v]))
  }

  lemma Transfer(w: World, w': World, c: Id, h: Host, seen: nat)
    requires Verifies(w, w') && seen < w.clock && Predates(w, c, h, seen)
    ensures Predates(w', c, h, seen)
  {
  }

  lemma TransferProc(w: World, w': World, p: Proc)
    requires Verifies(w, w') && ProcPredates(w, p)
    ensures ProcPredates(w', p)
  {
    if p.AddMine? || p.AddInsert? {
      Transfer(w, w', p.c, p.h, p.seen);
    }
  }

  lemma ProveStep(w: World, tid: nat, id: Id)
    requires Inv(w) && id in w.db.aliases && Prove(w.db, id).Stored?
    ensures Inv(Write(w, tid, CheckReread(id), Prove(w.db, id).db).(proved := Restamped(w, id)))
  {
    ProveEffect(w.db, id);
    ProveKeeps(w.db, id);
    VerifiedStep(w, tid, id, Prove(w.db, id).db);
  }

  lemma VerifiedStep(w: World, tid: nat, id: Id, db: Db)
    requires Inv(w) && OneVerified(db) && ListedOnce(db) && id in db.aliases && id in w.db.aliases
    requires db.aliases[id] == w.db.aliases[id].(verified := true, lastError := Clean)
    requires forall k :: k in db.aliases && k != id ==> k in w.db.aliases && db.aliases[k] == w.db.aliases[k]
    ensures Inv(Write(w, tid, CheckReread(id), db).(proved := Restamped(w, id)))
  {
    Carried(w, Write(w, tid, CheckReread(id), db).(proved := Restamped(w, id)), tid, id);
  }

  lemma QuietStep(w: World, tid: nat, p: Proc)
    requires Inv(w) && ProcPredates(w, p)
    ensures Inv(Goto(w, tid, p))
  {
    WithdrawalStep(w, tid, p, w.db);
    assert w.(db := w.db) == w;
  }

  lemma LookupStep(w: World, tid: nat, c: Id, h: Host)
    requires Inv(w) && !HeldByOther(w.db, c, h)
    ensures Inv(Goto(w, tid, AddMine(c, h, w.clock)))
  {
    var w' := Goto(w, tid, AddMine(c, h, w.clock));
    assert forall v :: v in w.db.aliases && w.db.aliases[v].verified && w.db.aliases[v].hostname == h ==> v in VerifiedOn(w.db, h);
    QuietStep(w, tid, Finished);
    var q := Goto(w, tid, Finished);
    assert w'.db == q.db && w'.proved == q.proved && w'.admitted == q.admitted;
    forall p | p in w'.db.aliases && !w'.db.aliases[p].verified
      ensures Predates(w', w'.db.aliases[p].container, w'.db.aliases[p].hostname, w'.admitted[p])
    {
      assert Predates(q, q.db.aliases[p].container, q.db.aliases[p].hostname, q.admitted[p]);
    }
    forall t | t in w'.procs ensures ProcPredates(w', w'.procs[t]) {
      assert t != tid ==> ProcPredates(q, q.procs[t]);
    }
  }

  lemma AddStatementKeepsInv(w: World, tid: nat, dns: Verdict, newId: Id, listing: seq<Id>)
    requires Inv(w) && tid in w.procs && newId !in w.used && newId !in w.db.aliases
    requires var p := w.procs[tid]; p.AddLookup? || p.AddMine? || p.AddInsert?
    ensures Inv(RunStatement(w, tid, dns, newId, listing))
  {
    var p := w.procs[tid];
    assert ProcPredates(w, p);
    QuietStep(w, tid, Finished);
    match p {
      case AddLookup(c, h) => if !HeldByOther(w.db, c, h) { LookupStep(w, tid, c, h); }
      case AddMine(c, h, seen) => QuietStep(w, tid, AddInsert(c, h, seen));
      case AddInsert(c, h, seen) =>
        if Insert(w.db, newId, c, h).Stored? { InsertStep(w, tid, p, newId); }
    }
  }

  lemma CheckStatementKeepsInv(w: World, tid: nat, dns: Verdict, newId: Id, listing: seq<Id>)
    requires Inv(w) && tid in w.procs && newId !in w.used && newId !in w.db.aliases
    requires w.procs[tid].CheckWrite?
    ensures Inv(RunStatement(w, tid, dns, newId, listing))
  {
    var id := w.procs[tid].id;
    if !w.procs[tid].ok {
      ClearStep(w, tid, CheckReread(id), id, CheckFailed);
    } else if Prove(w.db, id).UniqueViolation? {
      QuietStep(w, tid, CheckTaken(id));
    } else if id in w.db.aliases {
      ProveStep(w, tid, id);
    } else {
      QuietStep(w, tid, CheckReread(id));
      assert w.(db := w.db) == w;
    }
  }

  lemma DemotionKeepsInv(w: World, tid: nat, dns: Verdict, newId: Id, listing: seq<Id>)
    requires Inv(w) && tid in w.procs && newId !in w.used && newId !in w.db.aliases
    requires w.procs[tid].CheckTaken? || w.procs[tid].SweepDemote?
    ensures Inv(RunStatement(w, tid, dns, newId, listing))
  {
    match w.procs[tid] {
      case CheckTaken(id) => ClearStep(w, tid, CheckReread(id), id, TakenByOther);
      case SweepDemote(id, todo) => ClearStep(w, tid, SweepNext(todo), id, MovedAway);
    }
  }

  predicate Deletes(p: Proc) {
    p.RemoveDelete? || p.ReleaseDelete? || p.ContainerDeletion? || p.UserDeletion?
  }

  lemma DeletionKeepsInv(w: World, tid: nat, dns: Verdict, newId: Id, listing: seq<Id>)
    requires Inv(w) && tid in w.procs && newId !in w.used && newId !in w.db.aliases && Deletes(w.procs[tid])
    ensures Inv(RunStatement(w, tid, dns, newId, listing))
  {
    var w' := RunStatement(w, tid, dns, newId, listing);
    assert w' == Write(w, tid, Finished, w'.db);
    DeleteStep(w, tid, w'.db);
  }

  /** The statements that write nothing. */
  predicate Reads(p: Proc) {
    p.AddCount? || p.AddReread? || p.CheckDns? || p.CheckReread? || p.RecheckOwned? || p.RemoveOwned? || p.ReleaseList? || p.SweepList? || p.SweepNext? || p.Finished?
  }

  lemma ReadStatementKeepsInv(w: World, tid: nat, dns: Verdict, newId: Id, listing: seq<Id>)
    requires Inv(w) && tid in w.procs && newId !in w.used && newId !in w.db.aliases && Reads(w.procs[tid])
    ensures Inv(RunStatement(w, tid, dns, newId, listing))
  {
    var w' := RunStatement(w, tid, dns, newId, listing);
    assert w' == Goto(w, tid, w'.procs[tid]);
    QuietStep(w, tid, w'.procs[tid]);
  }

  lemma StatementKeepsInv(w: World, tid: nat, dns: Verdict, newId: Id, listing: seq<Id>)
    requires Inv(w) && tid in w.procs && newId !in w.used && newId !in w.db.aliases
    ensures Inv(RunStatement(w, tid, dns, newId, listing))
  {
    var p := w.procs[tid];
    if p.AddLookup? || p.AddMine? || p.AddInsert? {
      AddStatementKeepsInv(w, tid, dns, newId, listing);
    } else if p.CheckWrite? {
      CheckStatementKeepsInv(w, tid, dns, newId, listing);
    } else if Reads(p) {
      ReadStatementKeepsInv(w, tid, dns, newId, listing);
    } else if Deletes(p) {
      DeletionKeepsInv(w, tid, dns, newId, listing);
    } else {
      DemotionKeepsInv(w, tid, dns, newId, listing);
    }
  }

  lemma NextKeepsInv(w: World, l: Label)
    requires Inv(w) && Enabled(w, l)
    ensures Inv(Next(w, l))
  {
    match l {
      case Start(tid, p) => QuietStep(w, tid, p);
      case NewVm(c, owner) =>
        var w' := Next(w, l);
        forall p | p in w'.db.aliases && !w'.db.aliases[p].verified
          ensures Predates(w', w'.db.aliases[p].container, w'.db.aliases[p].hostname, w'.admitted[p])
        {
          assert Predates(w, w.db.aliases[p].container, w.db.aliases[p].hostname, w.admitted[p]);
        }
        forall t | t in w'.procs ensures ProcPredates(w', w'.procs[t]) {
          assert ProcPredates(w, w.procs[t]);
        }
      case Run(tid, sqlFails, dns, newId, listing) =>
        if sqlFails { QuietStep(w, tid, AfterFailure(w.procs[tid])); }
        else { StatementKeepsInv(w, tid, dns, newId, listing); }
    }
  }

  /** However the statements interleave, no hostname ever has two verified rows and
      no VM lists a hostname twice. */
  lemma {:induction false} EveryInterleavingKeepsInv(ws: seq<World>, ls: seq<Label>, n: nat)
    requires IsRun(ws, ls) && n < |ws|
    ensures Inv(ws[n]) && ws[n].clock == n
  {
    if n > 0 {
      EveryInterleavingKeepsInv(ws, ls, n - 1);
      NextKeepsInv(ws[n - 1], ls[n - 1]);
    }
  }

  // ----- Where a pending claim beside a verified one comes from -----

  /** The step by which a CreateContainerAlias found no other VM verified on `h`. */
  ghost predicate IsLookup(w: World, l: Label, c: Id, h: Host) {
    l.Run? && !l.sqlFails && l.tid in w.procs && w.procs[l.tid] == AddLookup(c, h) && !HeldByOther(w.db, c, h)
  }

  /** The step by which row `id`, until then pending, became verified. */
  ghost predicate IsVerification(w: World, l: Label, id: Id) {
    l.Run? && !l.sqlFails && l.tid in w.procs && w.procs[l.tid] == CheckWrite(id, true)
    && id in w.db.aliases && !w.db.aliases[id].verified && Prove(w.db, id).Stored?
  }

  predicate PastLookup(p: Proc) {
    p.AddMine? || p.AddInsert?
  }

  ghost predicate RowKept(w: World, w': World, l: Label, k: Id)
    requires k in w'.db.aliases
  {
    var row := w'.db.aliases[k];
    || (k in w.db.aliases && w.db.aliases[k].container == row.container && w.db.aliases[k].hostname == row.hostname
        && (k in w.admitted ==> k in w'.admitted && w'.admitted[k] == w.admitted[k]))
    || (l.Run? && l.tid in w.procs && w.procs[l.tid].AddInsert? && row.container == w.procs[l.tid].c && row.hostname == w.procs[l.tid].h
        && k in w'.admitted && w'.admitted[k] == w.procs[l.tid].seen)
  }

  ghost predicate ProofKept(w: World, w': World, l: Label, k: Id)
    requires k in w'.db.aliases
  {
    w'.db.aliases[k].verified ==>
      || (k in w.db.aliases && w.db.aliases[k].verified && (k in w.proved ==> k in w'.proved && w'.proved[k] == w.proved[k]))
      || (IsVerification(w, l, k) && k in w'.proved && w'.proved[k] == w.clock)
  }

  ghost predicate ProcKept(w: World, w': World, l: Label, t: nat)
    requires t in w'.procs
  {
    var p := w'.procs[t];
    PastLookup(p) ==>
      || (t in w.procs && PastLookup(w.procs[t]) && w.procs[t].c == p.c && w.procs[t].h == p.h && w.procs[t].seen == p.seen)
      || (IsLookup(w, l, p.c, p.h) && p.seen == w.clock)
  }

  /** Nothing but an insert, a verification or a lookup makes a new stamp. */
  ghost predicate Kept(w: World, w': World, l: Label) {
    && (forall k :: k in w'.db.aliases ==> RowKept(w, w', l, k) && ProofKept(w, w', l, k))
    && (forall t :: t in w'.procs ==> ProcKept(w, w', l, t))
  }

  lemma WithdrawalHistory(w: World, l: Label, tid: nat, p: Proc, db: Db)
    requires OnlyWithdraws(w.db, db)
    requires PastLookup(p) ==> tid in w.procs && w.procs[tid].AddMine? && p == AddInsert(w.procs[tid].c, w.procs[tid].h, w.procs[tid].seen)
    ensures Kept(w, Write(w, tid, p, db), l)
  {
  }

  lemma AddHistory(w: World, l: Label)
    requires Enabled(w, l) && Inv(w) && l.Run? && !l.sqlFails
    requires var p := w.procs[l.tid]; p.AddLookup? || p.AddMine? || p.AddInsert?
    ensures Kept(w, RunStatement(w, l.tid, l.dns, l.newId, l.listing), l)
  {
    assert w.(db := w.db) == w;
    WithdrawalHistory(w, l, l.tid, Finished, w.db);
    if w.procs[l.tid].AddMine? {
      WithdrawalHistory(w, l, l.tid, AddInsert(w.procs[l.tid].c, w.procs[l.tid].h, w.procs[l.tid].seen), w.db);
    }
  }

  lemma ProveHistory(w: World, l: Label, id: Id)
    requires l.Run? && !l.sqlFails && l.tid in w.procs && w.procs[l.tid] == CheckWrite(id, true) && id in w.db.aliases && Prove(w.db, id).Stored?
    ensures Kept(w, Write(w, l.tid, CheckReread(id), Prove(w.db, id).db).(proved := Restamped(w, id)), l)
  {
    ProveEffect(w.db, id);
  }

  lemma CheckHistory(w: World, l: Label)
    requires Enabled(w, l) && Inv(w) && l.Run? && !l.sqlFails && w.procs[l.tid].CheckWrite?
    ensures Kept(w, RunStatement(w, l.tid, l.dns, l.newId, l.listing), l)
  {
    assert w.(db := w.db) == w;
    var id := w.procs[l.tid].id;
    if !w.procs[l.tid].ok {
      WithdrawalHistory(w, l, l.tid, CheckReread(id), Clear(w.db, id, CheckFailed));
    } else if Prove(w.db, id).UniqueViolation? {
      WithdrawalHistory(w, l, l.tid, CheckTaken(id), w.db);
    } else if id in w.db.aliases {
      ProveHistory(w, l, id);
    } else {
      WithdrawalHistory(w, l, l.tid, CheckReread(id), w.db);
    }
  }

  lemma ReadHistory(w: World, l: Label)
    requires Enabled(w, l) && l.Run? && !l.sqlFails && Reads(w.procs[l.tid])
    ensures Kept(w, RunStatement(w, l.tid, l.dns, l.newId, l.listing), l)
  {
    var w' := RunStatement(w, l.tid, l.dns, l.newId, l.listing);
    assert w' == Write(w, l.tid, w'.procs[l.tid], w.db);
    assert !PastLookup(w'.procs[l.tid]);
    WithdrawalHistory(w, l, l.tid, w'.procs[l.tid], w.db);
  }

  lemma DeletionHistory(w: World, l: Label)
    requires Enabled(w, l) && l.Run? && !l.sqlFails && Deletes(w.procs[l.tid])
    ensures Kept(w, RunStatement(w, l.tid, l.dns, l.newId, l.listing), l)
  {
    var w' := RunStatement(w, l.tid, l.dns, l.newId, l.listing);
    assert w' == Write(w, l.tid, Finished, w'.db);
    WithdrawalHistory(w, l, l.tid, Finished, w'.db);
  }

  lemma DemotionHistory(w: World, l: Label)
    requires Enabled(w, l) && l.Run? && !l.sqlFails && (w.procs[l.tid].CheckTaken? || w.procs[l.tid].SweepDemote?)
    ensures Kept(w, RunStatement(w, l.tid, l.dns, l.newId, l.listing), l)
  {
    match w.procs[l.tid] {
      case CheckTaken(id) => WithdrawalHistory(w, l, l.tid, CheckReread(id), Clear(w.db, id, TakenByOther));
      case SweepDemote(id, todo) => WithdrawalHistory(w, l, l.tid, SweepNext(todo), Clear(w.db, id, MovedAway));
    }
  }

  lemma StepHistory(w: World, l: Label)
    requires Enabled(w, l) && Inv(w)
    ensures Kept(w, Next(w, l), l)
  {
    match l {
      case Start(tid, p) =>
        assert w.(db := w.db) == w;
        WithdrawalHistory(w, l, tid, p, w.db);
      case NewVm(c, owner) =>
      case Run(tid, sqlFails, dns, newId, listing) =>
        var p := w.procs[tid];
        if sqlFails {
          assert w.(db := w.db) == w;
          WithdrawalHistory(w, l, tid, AfterFailure(p), w.db);
        } else if p.AddLookup? || p.AddMine? || p.AddInsert? {
          AddHistory(w, l);
        } else if p.CheckWrite? {
          CheckHistory(w, l);
        } else if Reads(p) {
          ReadHistory(w, l);
        } else if Deletes(p) {
          DeletionHistory(w, l);
        } else {
          DemotionHistory(w, l);
        }
    }
  }

  /** The row has been verified at every moment since step j. */
  ghost predicate VerifiedSince(ws: seq<World>, k: Id, j: nat, n: nat)
    requires n < |ws|
  {
    forall m :: j < m <= n ==> k in ws[m].db.aliases && ws[m].db.aliases[k].verified
  }

  ghost predicate AccurateRow(ws: seq<World>, ls: seq<Label>, n: nat, k: Id)
    requires |ws| == |ls| + 1 && n < |ws| && k in ws[n].db.aliases
  {
    var w, row := ws[n], ws[n].db.aliases[k];
    && k in w.admitted && w.admitted[k] < n && IsLookup(ws[w.admitted[k]], ls[w.admitted[k]], row.container, row.hostname)
    && (row.verified ==>
          k in w.proved && w.proved[k] < n && IsVerification(ws[w.proved[k]], ls[w.proved[k]], k) && VerifiedSince(ws, k, w.proved[k], n))
  }

  ghost predicate AccurateProc(ws: seq<World>, ls: seq<Label>, n: nat, t: nat)
    requires |ws| == |ls| + 1 && n < |ws| && t in ws[n].procs
  {
    var p := ws[n].procs[t];
    PastLookup(p) ==> p.seen < n && IsLookup(ws[p.seen], ls[p.seen], p.c, p.h)
  }

  /** The recorded moments are the steps of the run that they claim to be. */
  ghost predicate Accurate(ws: seq<World>, ls: seq<Label>, n: nat)
    requires |ws| == |ls| + 1 && n < |ws|
  {
    && (forall k :: k in ws[n].db.aliases ==> AccurateRow(ws, ls, n, k))
    && (forall t :: t in ws[n].procs ==> AccurateProc(ws, ls, n, t))
  }

  lemma AccurateRowStep(ws: seq<World>, ls: seq<Label>, n: nat, k: Id)
    requires |ws| == |ls| + 1 && 0 < n < |ws| && k in ws[n].db.aliases && ws[n - 1].clock == n - 1
    requires k in ws[n - 1].db.aliases ==> AccurateRow(ws, ls, n - 1, k)
    requires ls[n - 1].Run? && ls[n - 1].tid in ws[n - 1].procs ==> AccurateProc(ws, ls, n - 1, ls[n - 1].tid)
    requires RowKept(ws[n - 1], ws[n], ls[n - 1], k) && ProofKept(ws[n - 1], ws[n], ls[n - 1], k)
    ensures AccurateRow(ws, ls, n, k)
  {
  }

  lemma AccurateProcStep(ws: seq<World>, ls: seq<Label>, n: nat, t: nat)
    requires |ws| == |ls| + 1 && 0 < n < |ws| && t in ws[n].procs && ws[n - 1].clock == n - 1
    requires t in ws[n - 1].procs ==> AccurateProc(ws, ls, n - 1, t)
    requires ProcKept(ws[n - 1], ws[n], ls[n - 1], t)
    ensures AccurateProc(ws, ls, n, t)
  {
  }

  lemma AccurateStep(ws: seq<World>, ls: seq<Label>, n: nat)
    requires |ws| == |ls| + 1 && 0 < n < |ws|
    requires Accurate(ws, ls, n - 1) && Kept(ws[n - 1], ws[n], ls[n - 1]) && ws[n - 1].clock == n - 1
    ensures Accurate(ws, ls, n)
  {
    forall k | k in ws[n].db.aliases ensures AccurateRow(ws, ls, n, k) {
      AccurateRowStep(ws, ls, n, k);
    }
    forall t | t in ws[n].procs ensures AccurateProc(ws, ls, n, t) {
      AccurateProcStep(ws, ls, n, t);
    }
  }

  lemma {:induction false} RunsAreAccurate(ws: seq<World>, ls: seq<Label>, n: nat)
    requires IsRun(ws, ls) && n < |ws|
    ensures Accurate(ws, ls, n)
  {
    if n > 0 {
      RunsAreAccurate(ws, ls, n - 1);
      EveryInterleavingKeepsInv(ws, ls, n - 1);
      StepHistory(ws[n - 1], ls[n - 1]);
      AccurateStep(ws, ls, n);
    }
  }

  /** In any run, a pending row of one VM beside a verified row of another comes from
      a CreateContainerAlias whose lookup ran before the other row became verified, as
      which it has stayed since. */
  lemma PendingBesideVerified(ws: seq<World>, ls: seq<Label>, n: nat, p: Id, v: Id) returns (i: nat, j: nat)
    requires IsRun(ws, ls) && n < |ws|
    requires p in ws[n].db.aliases && v in ws[n].db.aliases
    requires !ws[n].db.aliases[p].verified && ws[n].db.aliases[v].verified
    requires Competing(ws[n].db.aliases[p], ws[n].db.aliases[v])
    ensures i < j < n
    ensures IsLookup(ws[i], ls[i], ws[n].db.aliases[p].container, ws[n].db.aliases[p].hostname)
    ensures IsVerification(ws[j], ls[j], v) && VerifiedSince(ws, v, j, n)
  {
    EveryInterleavingKeepsInv(ws, ls, n);
    RunsAreAccurate(ws, ls, n);
    assert AccurateRow(ws, ls, n, p) && AccurateRow(ws, ls, n, v);
    i, j := ws[n].admitted[p], ws[n].proved[v];
    assert Predates(ws[n], ws[n].db.aliases[p].container, ws[n].db.aliases[p].hostname, i);
  }
}
