/** What interleaving costs: the limit on a VM's rows is checked before the insert, and an
    insert may run after its VM is gone. */
module AliasLimits {
  import opened Basics
  import opened AliasTable
  import opened AliasRuns

  /** The calls that have passed the count for a VM and not inserted yet. */
  predicate Counted(p: Proc, c: Id) {
    Checking(p) && p.c == c
  }

  function InFlight(w: World, c: Id): set<nat> {
    set t | t in w.procs && Counted(w.procs[t], c)
  }

  /** No row of `after` is new or belongs to another VM than before. */
  ghost predicate NoNewRows(before: Db, after: Db) {
    forall k :: k in after.aliases ==> k in before.aliases && after.aliases[k].container == before.aliases[k].container
  }

  predicate Inserts(w: World, l: Label) {
    l.Run? && !l.sqlFails && l.tid in w.procs && w.procs[l.tid].AddInsert?
  }

  lemma OnlyInsertsAddRows(w: World, l: Label)
    requires Enabled(w, l) && Inv(w) && !Inserts(w, l)
    ensures NoNewRows(w.db, Next(w, l).db)
  {
    var w' := Next(w, l);
    StepHistory(w, l);
    forall k | k in w'.db.aliases ensures k in w.db.aliases && w'.db.aliases[k].container == w.db.aliases[k].container {
      assert RowKept(w, w', l, k);
    }
  }

  lemma FewerOrSame(before: Db, after: Db, c: Id)
    requires NoNewRows(before, after)
    ensures |RowsOf(after, c)| <= |RowsOf(before, c)|
  {
    SubsetSize(RowsOf(after, c), RowsOf(before, c));
  }

  predicate Passes(w: World, l: Label, c: Id) {
    l.Run? && !l.sqlFails && l.tid in w.procs && w.procs[l.tid].AddCount? && w.procs[l.tid].c == c && |RowsOf(w.db, c)| < MAX_ALIASES
  }

  /** One statement changes its own call's place only. */
  lemma StatementMovesOne(w: World, l: Label, c: Id)
    requires Enabled(w, l) && l.Run? && !l.sqlFails && !Passes(w, l, c)
    ensures var w' := RunStatement(w, l.tid, l.dns, l.newId, l.listing);
            && l.tid in w'.procs && w'.procs == w.procs[l.tid := w'.procs[l.tid]]
            && (Counted(w'.procs[l.tid], c) ==> Counted(w.procs[l.tid], c))
  {
  }

  /** Nothing but passing the count puts a call in flight. */
  lemma OnlyCountsAddCalls(w: World, l: Label, c: Id)
    requires Enabled(w, l) && !Passes(w, l, c)
    ensures InFlight(Next(w, l), c) <= InFlight(w, c)
  {
    if l.Run? && !l.sqlFails {
      StatementMovesOne(w, l, c);
    }
  }

  /** An insert trades a call in flight for a row, or gives up. */
  lemma InsertTrades(w: World, l: Label, c: Id)
    requires Enabled(w, l) && Inserts(w, l)
    ensures |RowsOf(Next(w, l).db, c)| + |InFlight(Next(w, l), c)| <= |RowsOf(w.db, c)| + |InFlight(w, c)|
  {
    var w', p := Next(w, l), w.procs[l.tid];
    assert InFlight(w', c) == InFlight(w, c) - {l.tid};
    InsertedRows(w.db, l.newId, p.c, p.h, c);
    if p.c == c {
      assert l.tid in InFlight(w, c);
    } else {
      SubsetSize(InFlight(w', c), InFlight(w, c));
    }
  }

  lemma InsertedRows(db: Db, id: Id, owner: Id, h: Host, c: Id)
    requires id !in db.aliases
    ensures var r := Insert(db, id, owner, h); r.Stored? ==> |RowsOf(r.db, c)| == |RowsOf(db, c)| + if owner == c then 1 else 0
  {
    if Insert(db, id, owner, h).Stored? {
      var after := Insert(db, id, owner, h).db;
      if owner == c {
        OwnRow(db, after, id, c);
      } else {
        assert RowsOf(after, c) == RowsOf(db, c);
      }
    }
  }

  lemma OwnRow(db: Db, after: Db, id: Id, c: Id)
    requires id !in db.aliases && id in after.aliases && after.aliases[id].container == c && after.aliases == db.aliases[id := after.aliases[id]]
    ensures |RowsOf(after, c)| == |RowsOf(db, c)| + 1
  {
    assert RowsOf(after, c) == RowsOf(db, c) + {id};
  }

  lemma StepKeepsLimit(w: World, l: Label, c: Id, most: nat)
    requires Enabled(w, l) && Inv(w) && |InFlight(Next(w, l), c)| <= most
    requires |RowsOf(w.db, c)| + |InFlight(w, c)| <= MAX_ALIASES - 1 + most
    ensures |RowsOf(Next(w, l).db, c)| + |InFlight(Next(w, l), c)| <= MAX_ALIASES - 1 + most
  {
    if Inserts(w, l) {
      InsertTrades(w, l, c);
    } else {
      OnlyInsertsAddRows(w, l);
      FewerOrSame(w.db, Next(w, l).db, c);
      if !Passes(w, l, c) {
        OnlyCountsAddCalls(w, l, c);
        SubsetSize(InFlight(Next(w, l), c), InFlight(w, c));
      }
    }
  }

  ghost predicate AtMost(ws: seq<World>, c: Id, most: nat) {
    forall i :: 0 <= i < |ws| ==> |InFlight(ws[i], c)| <= most
  }

  /** However the statements interleave, a VM's rows exceed the limit by no more than the
      Adds that were ever between its count and their insert at once, less one. */
  lemma {:induction false} RowsAreBounded(ws: seq<World>, ls: seq<Label>, n: nat, c: Id, most: nat)
    requires IsRun(ws, ls) && n < |ws| && most >= 1 && AtMost(ws, c, most)
    ensures |RowsOf(ws[n].db, c)| + |InFlight(ws[n], c)| <= MAX_ALIASES - 1 + most
  {
    if n == 0 {
      assert RowsOf(ws[0].db, c) == {} && InFlight(ws[0], c) == {};
    } else {
      RowsAreBounded(ws, ls, n - 1, c, most);
      EveryInterleavingKeepsInv(ws, ls, n - 1);
      assert |InFlight(ws[n], c)| <= most && ws[n] == Next(ws[n - 1], ls[n - 1]);
      StepKeepsLimit(ws[n - 1], ls[n - 1], c, most);
    }
  }

  // ----- The bound is attained -----

  /** Different names for different numbers, used for ids and hostnames alike. */
  function Name(n: nat): (s: string)
    ensures |s| == n
  {
    seq(n, i => 'a')
  }

  function RowsUpTo(c: Id, r: nat): map<Id, Alias> {
    if r == 0 then map[] else RowsUpTo(c, r - 1)[Name(r - 1) := Alias(c, Name(r - 1), false, Clean)]
  }

  lemma {:induction false} RowsUpToAre(c: Id, r: nat)
    ensures forall k :: k in RowsUpTo(c, r) ==> |k| < r && RowsUpTo(c, r)[k] == Alias(c, k, false, Clean)
  {
    if r > 0 {
      RowsUpToAre(c, r - 1);
    }
  }

  lemma {:induction false} RowsUpToCount(c: Id, r: nat)
    ensures |RowsUpTo(c, r).Keys| == r
  {
    if r > 0 {
      RowsUpToCount(c, r - 1);
      RowsUpToAre(c, r - 1);
      assert RowsUpTo(c, r).Keys == RowsUpTo(c, r - 1).Keys + {Name(r - 1)};
    }
  }

  /** r rows are stored and p calls are about to insert the next ones. */
  ghost predicate Stands(w: World, c: Id, r: nat, p: nat) {
    && w.db.aliases == RowsUpTo(c, r)
    && (forall k :: k in w.used ==> |k| < r)
    && (forall t: nat :: t in w.procs <==> t < r + p)
    && (forall t: nat :: t < r ==> w.procs[t].AddReread?)
    && (forall t: nat :: r <= t < r + p ==> w.procs[t].AddInsert? && w.procs[t].c == c && w.procs[t].h == Name(t))
  }

  function Range(lo: nat, n: nat): (r: set<nat>)
    ensures |r| == n && forall t: nat :: t in r <==> lo <= t < lo + n
  {
    if n == 0 then {} else Range(lo, n - 1) + {lo + n - 1}
  }

  lemma StandingCalls(w: World, c: Id, r: nat, p: nat)
    requires Stands(w, c, r, p)
    ensures |InFlight(w, c)| == p
  {
    assert InFlight(w, c) == Range(r, p);
  }

  ghost predicate Reaches(ws: seq<World>, ls: seq<Label>, c: Id, most: nat, r: nat, p: nat) {
    IsRun(ws, ls) && AtMost(ws, c, most) && Stands(ws[|ls|], c, r, p)
  }

  function Ran(tid: nat, newId: Id): Label {
    Run(tid, false, CannotTell, newId, [])
  }

  lemma OneStepMore(ws: seq<World>, ls: seq<Label>, l: Label, c: Id, most: nat)
    requires IsRun(ws, ls) && AtMost(ws, c, most) && Enabled(ws[|ls|], l) && |InFlight(Next(ws[|ls|], l), c)| <= most
    ensures IsRun(ws + [Next(ws[|ls|], l)], ls + [l]) && AtMost(ws + [Next(ws[|ls|], l)], c, most)
  {
  }

  /** A call on its way through the checks, beside p calls that have passed them. */
  ghost predicate OnItsWay(w: World, c: Id, r: nat, p: nat, proc: Proc) {
    r + p in w.procs && w.procs[r + p] == proc && Stands(w.(procs := w.procs - {r + p}), c, r, p)
  }

  lemma CallsOnTheWay(w: World, c: Id, r: nat, p: nat, proc: Proc)
    requires OnItsWay(w, c, r, p, proc)
    ensures |InFlight(w, c)| <= p + 1
  {
    var others := w.(procs := w.procs - {r + p});
    StandingCalls(others, c, r, p);
    SubsetSize(InFlight(w, c), InFlight(others, c) + {r + p});
  }

  lemma FreeName(w: World, c: Id, r: nat, n: nat)
    requires w.db.aliases == RowsUpTo(c, r) && r <= n
    ensures |RowsOf(w.db, c)| == r && Name(n) !in w.db.aliases && Listed(w.db, c, Name(n)) == {} && !HeldByOther(w.db, c, Name(n))
  {
    RowsUpToAre(c, r);
    RowsUpToCount(c, r);
    assert RowsOf(w.db, c) == RowsUpTo(c, r).Keys;
    assert VerifiedOn(w.db, Name(n)) == {};
  }

  /** The four statements of an Add up to its insert, seen from outside. */
  lemma StartStands(w: World, c: Id, r: nat, p: nat)
    requires Stands(w, c, r, p)
    ensures var l := Start(r + p, AddCount(c, Name(r + p))); Enabled(w, l) && OnItsWay(Next(w, l), c, r, p, AddCount(c, Name(r + p)))
  {
    var w' := Next(w, Start(r + p, AddCount(c, Name(r + p))));
    assert w'.procs - {r + p} == w.procs;
  }

  lemma CountStands(w: World, c: Id, r: nat, p: nat)
    requires OnItsWay(w, c, r, p, AddCount(c, Name(r + p))) && r < MAX_ALIASES
    ensures var l := Ran(r + p, Name(r)); Enabled(w, l) && OnItsWay(Next(w, l), c, r, p, AddLookup(c, Name(r + p)))
  {
    FreeName(w, c, r, r);
    var w' := Next(w, Ran(r + p, Name(r)));
    assert w' == Goto(w, r + p, AddLookup(c, Name(r + p)));
    assert w'.procs - {r + p} == w.procs - {r + p};
  }

  lemma LookupStands(w: World, c: Id, r: nat, p: nat)
    requires OnItsWay(w, c, r, p, AddLookup(c, Name(r + p)))
    ensures var l := Ran(r + p, Name(r)); Enabled(w, l) && OnItsWay(Next(w, l), c, r, p, AddMine(c, Name(r + p), w.clock))
  {
    FreeName(w, c, r, r + p);
    FreeName(w, c, r, r);
    var w' := Next(w, Ran(r + p, Name(r)));
    assert w' == Goto(w, r + p, AddMine(c, Name(r + p), w.clock));
    assert w'.procs - {r + p} == w.procs - {r + p};
  }

  lemma MineStands(w: World, c: Id, r: nat, p: nat, seen: nat)
    requires OnItsWay(w, c, r, p, AddMine(c, Name(r + p), seen))
    ensures var l := Ran(r + p, Name(r)); Enabled(w, l) && Stands(Next(w, l), c, r, p + 1)
  {
    FreeName(w, c, r, r + p);
    FreeName(w, c, r, r);
    var n, others := r + p, w.(procs := w.procs - {r + p});
    var w' := Next(w, Ran(n, Name(r)));
    assert w' == Goto(w, n, AddInsert(c, Name(n), seen));
    forall t: nat ensures t in w'.procs <==> t < r + (p + 1) {
      assert t in others.procs <==> t < r + p;
    }
    forall t: nat | t < n ensures w'.procs[t] == others.procs[t] {
      assert t in others.procs;
    }
  }

  lemma InsertStands(w: World, c: Id, r: nat, p: nat)
    requires Stands(w, c, r, p) && p > 0
    ensures var l := Ran(r, Name(r)); Enabled(w, l) && Stands(Next(w, l), c, r + 1, p - 1)
  {
    FreeName(w, c, r, r);
  }

  /** One more call passes the checks. */
  lemma PassOne(ws: seq<World>, ls: seq<Label>, c: Id, most: nat, r: nat, p: nat) returns (ws': seq<World>, ls': seq<Label>)
    requires Reaches(ws, ls, c, most, r, p) && p < most && r < MAX_ALIASES
    ensures Reaches(ws', ls', c, most, r, p + 1) && ls <= ls'
  {
    var n, l := r + p, Start(r + p, AddCount(c, Name(r + p)));
    StartStands(ws[|ls|], c, r, p);
    var w := Next(ws[|ls|], l);
    CallsOnTheWay(w, c, r, p, AddCount(c, Name(n)));
    OneStepMore(ws, ls, l, c, most);
    ws', ls' := ws + [w], ls + [l];
    ws', ls' := PassChecks(ws', ls', c, most, r, p);
  }

  lemma PassChecks(ws: seq<World>, ls: seq<Label>, c: Id, most: nat, r: nat, p: nat) returns (ws': seq<World>, ls': seq<Label>)
    requires IsRun(ws, ls) && AtMost(ws, c, most) && p < most && r < MAX_ALIASES && OnItsWay(ws[|ls|], c, r, p, AddCount(c, Name(r + p)))
    ensures Reaches(ws', ls', c, most, r, p + 1) && ls <= ls'
  {
    var n, l := r + p, Ran(r + p, Name(r));
    CountStands(ws[|ls|], c, r, p);
    var w := Next(ws[|ls|], l);
    CallsOnTheWay(w, c, r, p, AddLookup(c, Name(n)));
    OneStepMore(ws, ls, l, c, most);
    ws', ls' := PassLookup(ws + [w], ls + [l], c, most, r, p);
  }

  lemma PassLookup(ws: seq<World>, ls: seq<Label>, c: Id, most: nat, r: nat, p: nat) returns (ws': seq<World>, ls': seq<Label>)
    requires IsRun(ws, ls) && AtMost(ws, c, most) && p < most && OnItsWay(ws[|ls|], c, r, p, AddLookup(c, Name(r + p)))
    ensures Reaches(ws', ls', c, most, r, p + 1) && ls <= ls'
  {
    var n, l, clock := r + p, Ran(r + p, Name(r)), ws[|ls|].clock;
    LookupStands(ws[|ls|], c, r, p);
    var w := Next(ws[|ls|], l);
    CallsOnTheWay(w, c, r, p, AddMine(c, Name(n), clock));
    OneStepMore(ws, ls, l, c, most);
    ws', ls' := PassMine(ws + [w], ls + [l], c, most, r, p, clock);
  }

  lemma PassMine(ws: seq<World>, ls: seq<Label>, c: Id, most: nat, r: nat, p: nat, clock: nat) returns (ws': seq<World>, ls': seq<Label>)
    requires IsRun(ws, ls) && AtMost(ws, c, most) && p < most && OnItsWay(ws[|ls|], c, r, p, AddMine(c, Name(r + p), clock))
    ensures Reaches(ws', ls', c, most, r, p + 1) && ls <= ls'
  {
    var l := Ran(r + p, Name(r));
    MineStands(ws[|ls|], c, r, p, clock);
    var w := Next(ws[|ls|], l);
    StandingCalls(w, c, r, p + 1);
    OneStepMore(ws, ls, l, c, most);
    ws', ls' := ws + [w], ls + [l];
  }

  lemma InsertOne(ws: seq<World>, ls: seq<Label>, c: Id, most: nat, r: nat, p: nat) returns (ws': seq<World>, ls': seq<Label>)
    requires Reaches(ws, ls, c, most, r, p) && 0 < p <= most
    ensures Reaches(ws', ls', c, most, r + 1, p - 1)
  {
    var l := Ran(r, Name(r));
    InsertStands(ws[|ls|], c, r, p);
    var w := Next(ws[|ls|], l);
    StandingCalls(w, c, r + 1, p - 1);
    OneStepMore(ws, ls, l, c, most);
    ws', ls' := ws + [w], ls + [l];
  }

  lemma {:induction false} OneByOne(c: Id, most: nat, r: nat) returns (ws: seq<World>, ls: seq<Label>)
    requires most >= 1 && r < MAX_ALIASES
    ensures Reaches(ws, ls, c, most, r, 0)
  {
    if r == 0 {
      ws, ls := [EMPTY], [];
      assert InFlight(EMPTY, c) == {};
    } else {
      ws, ls := OneByOne(c, most, r - 1);
      ws, ls := PassOne(ws, ls, c, most, r - 1, 0);
      ws, ls := InsertOne(ws, ls, c, most, r - 1, 1);
    }
  }

  lemma {:induction false} Together(c: Id, most: nat, p: nat) returns (ws: seq<World>, ls: seq<Label>)
    requires 1 <= most && p <= most
    ensures Reaches(ws, ls, c, most, MAX_ALIASES - 1, p)
  {
    if p == 0 {
      ws, ls := OneByOne(c, most, MAX_ALIASES - 1);
    } else {
      ws, ls := Together(c, most, p - 1);
      ws, ls := PassOne(ws, ls, c, most, MAX_ALIASES - 1, p - 1);
    }
  }

  lemma {:induction false} AllInsert(c: Id, most: nat, p: nat) returns (ws: seq<World>, ls: seq<Label>)
    requires 1 <= most && p <= most
    ensures Reaches(ws, ls, c, most, MAX_ALIASES - 1 + (most - p), p)
    decreases most - p
  {
    if p == most {
      ws, ls := Together(c, most, most);
    } else {
      ws, ls := AllInsert(c, most, p + 1);
      ws, ls := InsertOne(ws, ls, c, most, MAX_ALIASES - 1 + (most - p - 1), p + 1);
    }
  }

  /** For any number of simultaneous Adds there is a run that reaches the bound: with two
      or more the limit of ten is exceeded. */
  lemma LimitIsExceeded(c: Id, most: nat) returns (ws: seq<World>, ls: seq<Label>)
    requires most >= 1
    ensures IsRun(ws, ls) && AtMost(ws, c, most) && |RowsOf(ws[|ls|].db, c)| == MAX_ALIASES - 1 + most
  {
    ws, ls := AllInsert(c, most, 0);
    FreeName(ws[|ls|], c, MAX_ALIASES - 1 + most, MAX_ALIASES - 1 + most);
  }

  // ----- Rows without a VM -----

  ghost predicate Orphan(w: World, k: Id) {
    k in w.db.aliases && w.db.aliases[k].container !in w.db.owners
  }

  /** The step inserts the row for a VM that is not there. */
  ghost predicate LateInsert(w: World, l: Label, k: Id) {
    Inserts(w, l) && l.newId == k && w.procs[l.tid].c !in w.db.owners
  }

  lemma OrphanStep(w: World, l: Label, k: Id)
    requires Enabled(w, l) && Inv(w) && Orphan(Next(w, l), k)
    ensures Orphan(w, k) || LateInsert(w, l, k)
  {
    if Inserts(w, l) {
      InsertKeepsOwners(w, l, k);
    } else {
      OnlyInsertsAddRows(w, l);
      DeletionsTakeTheirRows(w, l, k);
    }
  }

  lemma InsertKeepsOwners(w: World, l: Label, k: Id)
    requires Enabled(w, l) && Inserts(w, l) && Orphan(Next(w, l), k)
    ensures Orphan(w, k) || LateInsert(w, l, k)
  {
  }

  lemma DeletionsTakeTheirRows(w: World, l: Label, k: Id)
    requires Enabled(w, l) && !Inserts(w, l) && NoNewRows(w.db, Next(w, l).db) && Orphan(Next(w, l), k)
    ensures Orphan(w, k)
  {
    if l.Run? && !l.sqlFails {
      var p := w.procs[l.tid];
      if p.ContainerDeletion? {
        assert k in w.db.aliases && k !in RowsOf(w.db, p.c);
      } else if p.UserDeletion? {
        assert k in w.db.aliases && w.db.aliases[k].container !in VmsOf(w.db, p.u);
      } else {
        OwnersStay(w, l);
      }
    }
  }

  lemma OwnersStay(w: World, l: Label)
    requires Enabled(w, l) && l.Run? && !l.sqlFails && !w.procs[l.tid].ContainerDeletion? && !w.procs[l.tid].UserDeletion?
    ensures RunStatement(w, l.tid, l.dns, l.newId, l.listing).db.owners == w.db.owners
  {
    var p := w.procs[l.tid];
    if p.CheckWrite? && p.ok && p.id in w.db.aliases && Prove(w.db, p.id).Stored? {
      ProveEffect(w.db, p.id);
    }
  }

  /** A row whose VM is gone was inserted when its VM was not there: deletions take every
      row that is there with them. */
  lemma {:induction false} OrphansComeFromLateInserts(ws: seq<World>, ls: seq<Label>, n: nat, k: Id) returns (i: nat)
    requires IsRun(ws, ls) && n < |ws| && Orphan(ws[n], k)
    ensures i < n && LateInsert(ws[i], ls[i], k)
  {
    EveryInterleavingKeepsInv(ws, ls, n - 1);
    OrphanStep(ws[n - 1], ls[n - 1], k);
    if Orphan(ws[n - 1], k) {
      i := OrphansComeFromLateInserts(ws, ls, n - 1, k);
    } else {
      i := n - 1;
    }
  }

  /** An insert that runs after its VM was deleted leaves such a row. */
  lemma LateInsertsOrphan(w: World, l: Label, k: Id)
    requires Enabled(w, l) && LateInsert(w, l, k) && Insert(w.db, k, w.procs[l.tid].c, w.procs[l.tid].h).Stored?
    ensures Orphan(Next(w, l), k)
  {
  }

  lemma PlainStep(ws: seq<World>, ls: seq<Label>, l: Label)
    requires IsRun(ws, ls) && Enabled(ws[|ls|], l)
    ensures IsRun(ws + [Next(ws[|ls|], l)], ls + [l])
  {
  }

  /** The VM is deleted while one call is about to insert its first row. */
  lemma AndDeleted(ws: seq<World>, ls: seq<Label>, c: Id) returns (ws': seq<World>, ls': seq<Label>)
    requires IsRun(ws, ls) && Stands(ws[|ls|], c, 0, 1)
    ensures IsRun(ws', ls') && |ls'| == |ls| + 2 && ls <= ls'
    ensures 1 in ws'[|ls| + 1].procs && ws'[|ls| + 1].procs[1] == ContainerDeletion(c) && ls'[|ls| + 1] == Ran(1, Name(0))
    ensures var w := ws'[|ls'|];
            && c !in w.db.owners && w.db.aliases == map[] && Enabled(w, Ran(0, Name(0)))
            && w.procs[0].AddInsert? && w.procs[0].c == c
  {
    var w0 := ws[|ls|];
    assert 0 in w0.procs && 1 !in w0.procs && w0.db.aliases == map[] && Name(0) !in w0.used;
    PlainStep(ws, ls, Start(1, ContainerDeletion(c)));
    var w1 := Next(w0, Start(1, ContainerDeletion(c)));
    var ws1, ls1 := ws + [w1], ls + [Start(1, ContainerDeletion(c))];
    PlainStep(ws1, ls1, Ran(1, Name(0)));
    ws', ls' := ws1 + [Next(w1, Ran(1, Name(0)))], ls1 + [Ran(1, Name(0))];
    assert RowsOf(w1.db, c) == {};
  }

  /** A run in which a row outlives its VM: the VM is created and deleted while an Add is
      between its checks and its insert. */
  lemma RowOutlivesVm(c: Id, owner: Id) returns (ws: seq<World>, ls: seq<Label>)
    ensures IsRun(ws, ls) && |ls| >= 4 && ls[0] == NewVm(c, owner)
    ensures 1 in ws[|ls| - 2].procs && ws[|ls| - 2].procs[1] == ContainerDeletion(c) && ls[|ls| - 2] == Ran(1, Name(0))
    ensures LateInsert(ws[|ls| - 1], ls[|ls| - 1], Name(0)) && Orphan(ws[|ls|], Name(0))
  {
    ws, ls := Promised(c, owner);
    ws, ls := AndDeleted(ws, ls, c);
    var w := ws[|ls|];
    PlainStep(ws, ls, Ran(0, Name(0)));
    LateInsertsOrphan(w, Ran(0, Name(0)), Name(0));
    ws, ls := ws + [Next(w, Ran(0, Name(0)))], ls + [Ran(0, Name(0))];
  }

  /** A VM is created and one call is about to insert its first row. */
  lemma Promised(c: Id, owner: Id) returns (ws: seq<World>, ls: seq<Label>)
    ensures IsRun(ws, ls) && |ls| >= 1 && ls[0] == NewVm(c, owner) && Stands(ws[|ls|], c, 0, 1)
  {
    var born := Next(EMPTY, NewVm(c, owner));
    assert InFlight(EMPTY, c) == {} && InFlight(born, c) == {};
    ws, ls := PassOne([EMPTY, born], [NewVm(c, owner)], c, 1, 0, 0);
  }
}
