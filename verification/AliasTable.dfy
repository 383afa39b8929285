/** The custom-domain table: one function per SQL statement or transaction that
    touches it, with what each statement keeps. */
module AliasTable {

  type Id = string
  type Host = string

  /** Why the last check failed, if it did. */
  datatype Note = Clean | CheckFailed | MovedAway | TakenByOther

  /** A custom hostname pointed at a VM. */
  datatype Alias = Alias(container: Id, hostname: Host, verified: bool, lastError: Note)

  /** The alias rows by primary key, and every VM with the account owning it. */
  datatype Db = Db(aliases: map<Id, Alias>, owners: map<Id, Id>)

  datatype Outcome = Stored(db: Db) | UniqueViolation

  const MAX_ALIASES := 10

  // ----- Queries -----

  function RowsOf(db: Db, c: Id): set<Id> {
    set k | k in db.aliases && db.aliases[k].container == c
  }

  function ClaimsOn(db: Db, h: Host): set<Id> {
    set k | k in db.aliases && db.aliases[k].hostname == h
  }

  function Listed(db: Db, c: Id, h: Host): set<Id> {
    set k | k in db.aliases && db.aliases[k].container == c && db.aliases[k].hostname == h
  }

  function VerifiedOn(db: Db, h: Host): set<Id> {
    set k | k in db.aliases && db.aliases[k].hostname == h && db.aliases[k].verified
  }

  /** A verified row of another VM already answers for the hostname. */
  predicate HeldByOther(db: Db, c: Id, h: Host) {
    exists k :: k in VerifiedOn(db, h) && db.aliases[k].container != c
  }

  /** Two rows of different VMs on the same hostname. */
  predicate Competing(p: Alias, v: Alias) {
    p.hostname == v.hostname && p.container != v.container
  }

  // ----- Statements and transactions -----

  /** INSERT of an unverified claim, guarded by the index on (container_id, hostname). */
  function Insert(db: Db, id: Id, c: Id, h: Host): Outcome
    requires id !in db.aliases
  {
    if Listed(db, c, h) != {} then UniqueViolation
    else Stored(db.(aliases := db.aliases[id := Alias(c, h, false, Clean)]))
  }

  /** Marking a row verified and dropping the pending claims other VMs hold on the
      same hostname, in one transaction guarded by the index over verified rows. */
  function Prove(db: Db, id: Id): Outcome {
    if id !in db.aliases then Stored(db)
    else
      var row := db.aliases[id];
      if exists k :: k in VerifiedOn(db, row.hostname) && k != id then UniqueViolation
      else
        var marked := db.aliases[id := row.(verified := true, lastError := Clean)];
        Stored(db.(aliases := map k | k in marked && !(Competing(marked[k], row) && !marked[k].verified) :: marked[k]))
  }

  /** Taking a row out of routing; a missing row is no error. */
  function Clear(db: Db, id: Id, reason: Note): Db {
    if id in db.aliases
    then db.(aliases := db.aliases[id := db.aliases[id].(verified := false, lastError := reason)])
    else db
  }

  function Delete(db: Db, ids: set<Id>): Db {
    db.(aliases := db.aliases - ids)
  }

  /** A VM and its aliases go together. */
  function DropContainer(db: Db, c: Id): Db {
    Delete(db, RowsOf(db, c)).(owners := db.owners - {c})
  }

  function VmsOf(db: Db, u: Id): set<Id> {
    set c | c in db.owners && db.owners[c] == u
  }

  /** An account goes with its VMs and their aliases. */
  function DropUser(db: Db, u: Id): Db {
    var gone := set k | k in db.aliases && db.aliases[k].container in VmsOf(db, u);
    Delete(db, gone).(owners := db.owners - VmsOf(db, u))
  }

  // ----- What the statements keep -----

  /** Routing is unambiguous: no hostname has two verified rows. */
  ghost predicate OneVerified(db: Db) {
    forall a, b | a in db.aliases && b in db.aliases && db.aliases[a].verified && db.aliases[b].verified
      :: db.aliases[a].hostname == db.aliases[b].hostname ==> a == b
  }

  /** No VM lists a hostname twice. */
  ghost predicate ListedOnce(db: Db) {
    forall a, b | a in db.aliases && b in db.aliases && db.aliases[a].container == db.aliases[b].container
      :: db.aliases[a].hostname == db.aliases[b].hostname ==> a == b
  }

  /** No row of `after` is new, moved to another VM or name, or newly verified. */
  ghost predicate OnlyWithdraws(before: Db, after: Db) {
    forall k :: k in after.aliases ==>
      && k in before.aliases
      && after.aliases[k].container == before.aliases[k].container
      && after.aliases[k].hostname == before.aliases[k].hostname
      && (after.aliases[k].verified ==> before.aliases[k].verified)
  }

  lemma WithdrawalKeeps(before: Db, after: Db)
    requires OnlyWithdraws(before, after)
    ensures OneVerified(before) ==> OneVerified(after)
    ensures ListedOnce(before) ==> ListedOnce(after)
  {
    if OneVerified(before) {
      forall a, b | a in after.aliases && b in after.aliases && after.aliases[a].verified && after.aliases[b].verified
                    && after.aliases[a].hostname == after.aliases[b].hostname
        ensures a == b
      {
        assert before.aliases[a].verified && before.aliases[b].verified;
      }
    }
  }

  lemma InsertKeeps(db: Db, id: Id, c: Id, h: Host)
    requires id !in db.aliases && Insert(db, id, c, h).Stored?
    ensures OneVerified(db) ==> OneVerified(Insert(db, id, c, h).db)
    ensures ListedOnce(db) ==> ListedOnce(Insert(db, id, c, h).db)
  {
    forall k | k in db.aliases ensures !(db.aliases[k].container == c && db.aliases[k].hostname == h) {
      assert k !in Listed(db, c, h);
    }
  }

  /** What a successful verification leaves behind: the row itself verified, no
      pending claim of another VM on its hostname, every other row untouched. */
  lemma ProveEffect(db: Db, id: Id)
    requires id in db.aliases && Prove(db, id).Stored?
    ensures var after := Prove(db, id).db; var row := db.aliases[id];
            && after.owners == db.owners
            && id in after.aliases && after.aliases[id] == row.(verified := true, lastError := Clean)
            && (forall k :: k in after.aliases && Competing(after.aliases[k], row) ==> after.aliases[k].verified)
            && (forall k :: k in after.aliases && k != id ==> k in db.aliases && after.aliases[k] == db.aliases[k])
            && (forall k :: k in db.aliases && k !in after.aliases ==> Competing(db.aliases[k], row) && !db.aliases[k].verified)
            && (forall k :: k in db.aliases && db.aliases[k].hostname == row.hostname && db.aliases[k].verified ==> k == id)
  {
    var row := db.aliases[id];
    forall k | k in db.aliases && db.aliases[k].hostname == row.hostname && db.aliases[k].verified ensures k == id {
      assert k in VerifiedOn(db, row.hostname);
    }
  }

  lemma ProveKeeps(db: Db, id: Id)
    requires Prove(db, id).Stored?
    ensures OneVerified(db) ==> OneVerified(Prove(db, id).db)
    ensures ListedOnce(db) ==> ListedOnce(Prove(db, id).db)
  {
    if id in db.aliases {
      ProveEffect(db, id);
      var after := Prove(db, id).db;
      forall a, b | OneVerified(db) && a in after.aliases && b in after.aliases && after.aliases[a].verified
                    && after.aliases[b].verified && after.aliases[a].hostname == after.aliases[b].hostname
        ensures a == b
      {
        if a != id && b != id {
          assert db.aliases[a].verified && db.aliases[b].verified;
        }
      }
    }
  }
}
