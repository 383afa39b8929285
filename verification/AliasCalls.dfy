/** The statements of one call, run without another in between, are the whole call. */
module AliasCalls {
  import opened AliasTable
  import opened AliasRuns
  import opened AliasManager

  /** Row ids nobody uses yet. */
  ghost predicate Spare(w: World, id: Id) {
    id !in w.used && id !in w.db.aliases
  }

  /** The call runs its next statement; only an insert takes the new id. */
  function Statement(w: World, tid: nat, dns: Verdict, newId: Id): World
    requires tid in w.procs && Spare(w, newId)
  {
    Next(w, Run(tid, false, dns, newId, []))
  }

  /** From its lookup of the name a check goes on to write what it found, once more if another
      row has the name, and to read the row again. */
  function Checking(w: World, tid: nat, dns: Verdict, spare: Id): (w': World)
    requires tid in w.procs && w.procs[tid].CheckDns? && Spare(w, spare)
    ensures tid in w'.procs && w'.procs[tid].Finished?
  {
    var w1 := Statement(w, tid, dns, spare);
    var w2 := Statement(w1, tid, dns, spare);
    var w3 := if w2.procs[tid].CheckTaken? then Statement(w2, tid, dns, spare) else w2;
    Statement(w3, tid, dns, spare)
  }

  lemma CheckAlone(w: World, tid: nat, dns: Verdict, spare: Id)
    requires tid in w.procs && w.procs[tid].CheckDns? && Spare(w, spare)
    ensures Checking(w, tid, dns, spare).db == Checked(w.db, w.procs[tid].id, dns)
  {
  }

  /** A claim passes its three checks, one statement each, or ends. */
  function Admission(w: World, tid: nat, dns: Verdict, newId: Id): (w': World)
    requires tid in w.procs && w.procs[tid].AddCount? && Spare(w, newId)
    ensures tid in w'.procs && Spare(w', newId) && w'.db == w.db && w'.used == w.used
    ensures w'.procs[tid].Finished? || (w'.procs[tid].AddInsert? && w'.procs[tid].c == w.procs[tid].c && w'.procs[tid].h == w.procs[tid].h)
  {
    var w1 := Statement(w, tid, dns, newId);
    if w1.procs[tid].Finished? then w1
    else
      var w2 := Statement(w1, tid, dns, newId);
      if w2.procs[tid].Finished? then w2 else Statement(w2, tid, dns, newId)
  }

  lemma AdmissionAlone(w: World, tid: nat, dns: Verdict, newId: Id)
    requires tid in w.procs && w.procs[tid].AddCount? && Spare(w, newId)
    ensures Admission(w, tid, dns, newId).procs[tid].AddInsert? <==> Refusal(w.db, w.procs[tid].c, w.procs[tid].h) == Done
  {
  }

  /** An admitted claim is inserted, read again and checked. */
  function Adding(w: World, tid: nat, dns: Verdict, newId: Id, spare: Id): (w': World)
    requires tid in w.procs && w.procs[tid].AddCount? && Spare(w, newId) && Spare(w, spare) && spare != newId
  {
    var w3 := Admission(w, tid, dns, newId);
    if w3.procs[tid].Finished? then w3
    else
      var w4 := Statement(w3, tid, dns, newId);
      if w4.procs[tid].Finished? then w4
      else
        var w5 := Statement(w4, tid, dns, spare);
        if w5.procs[tid].Finished? then w5 else Checking(w5, tid, dns, spare)
  }

  lemma InsertAlone(w: World, tid: nat, dns: Verdict, newId: Id, spare: Id)
    requires tid in w.procs && w.procs[tid].AddInsert? && Spare(w, newId) && Spare(w, spare) && spare != newId
    requires Listed(w.db, w.procs[tid].c, w.procs[tid].h) == {}
    ensures var p, w1 := w.procs[tid], Statement(w, tid, dns, newId);
            && w1.db == w.db.(aliases := w.db.aliases[newId := Alias(p.c, p.h, false, Clean)]) && w1.procs[tid] == AddReread(newId) && Spare(w1, spare)
            && Statement(w1, tid, dns, spare) == Goto(w1, tid, CheckDns(newId))
  {
  }

  lemma AddAlone(w: World, tid: nat, dns: Verdict, newId: Id, spare: Id)
    requires tid in w.procs && w.procs[tid].AddCount? && Spare(w, newId) && Spare(w, spare) && spare != newId
    requires w.procs[tid].c in w.db.owners
    ensures Adding(w, tid, dns, newId, spare).db == Claimed(w.db, w.procs[tid].c, w.procs[tid].h, newId, dns)
  {
    AdmissionAlone(w, tid, dns, newId);
    var w3 := Admission(w, tid, dns, newId);
    if w3.procs[tid].AddInsert? {
      InsertAlone(w3, tid, dns, newId, spare);
      CheckAlone(Statement(Statement(w3, tid, dns, newId), tid, dns, spare), tid, dns, spare);
    }
  }

  /** The other calls: a look at the row or the name, and what follows from it. */
  function Following(w: World, tid: nat, dns: Verdict, spare: Id): World
    requires tid in w.procs && Spare(w, spare) && (w.procs[tid].RecheckOwned? || w.procs[tid].RemoveOwned? || w.procs[tid].ReleaseList?)
  {
    var w1 := Statement(w, tid, dns, spare);
    if w1.procs[tid].Finished? then w1
    else if w1.procs[tid].CheckDns? then Checking(w1, tid, dns, spare)
    else Statement(w1, tid, dns, spare)
  }

  lemma RecheckAlone(w: World, tid: nat, dns: Verdict, spare: Id)
    requires tid in w.procs && w.procs[tid].RecheckOwned? && Spare(w, spare) && w.procs[tid].c in w.db.owners
    ensures var p := w.procs[tid]; Following(w, tid, dns, spare).db == if Owns(w.db, p.c, p.id) then Checked(w.db, p.id, dns) else w.db
  {
    var w1 := Statement(w, tid, dns, spare);
    if w1.procs[tid].CheckDns? {
      CheckAlone(w1, tid, dns, spare);
    }
  }

  lemma RemoveAlone(w: World, tid: nat, dns: Verdict, spare: Id)
    requires tid in w.procs && w.procs[tid].RemoveOwned? && Spare(w, spare) && w.procs[tid].c in w.db.owners
    ensures var p := w.procs[tid]; Following(w, tid, dns, spare).db == if Owns(w.db, p.c, p.id) then Delete(w.db, {p.id}) else w.db
  {
  }

  lemma ReleaseAlone(w: World, tid: nat, dns: Verdict, spare: Id)
    requires tid in w.procs && w.procs[tid].ReleaseList? && Spare(w, spare)
    ensures Following(w, tid, dns, spare).db == Released(w.db, w.procs[tid].h)
  {
    if ClaimsOn(w.db, w.procs[tid].h) == {} {
      assert w.db.aliases - {} == w.db.aliases;
    }
  }

  /** Deletions are one transaction each, and a sweep withdraws the rows that moved. */
  lemma OtherStatements(w: World, tid: nat, dns: Verdict, spare: Id)
    requires tid in w.procs && Spare(w, spare)
    ensures var p, w' := w.procs[tid], Statement(w, tid, dns, spare);
            && (p.ContainerDeletion? ==> w'.db == DropContainer(w.db, p.c))
            && (p.UserDeletion? ==> w'.db == DropUser(w.db, p.u))
            && (p.SweepNext? && p.todo != [] ==>
                  w'.db == w.db && w'.procs[tid] == if dns.PointsElsewhere? then SweepDemote(p.todo[0], p.todo[1..]) else SweepNext(p.todo[1..]))
            && (p.SweepDemote? ==> w'.db == Clear(w.db, p.id, MovedAway) && w'.procs[tid] == SweepNext(p.todo))
  {
  }
}
