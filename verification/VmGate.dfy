/** The per-VM gate shared by setup, key refresh, agent update and task delivery, and
    the model table it protects. Every interleaving of their steps on one VM, with commands
    that go on inside the VM after the operation that sent them gave them up. */
module VmGate {
  import opened ModelChoice

  datatype Op = Setup | KeyRefresh | AgentUpdate | Delivery

  /** Where an operation stands. A function that is about to return still holds the
      gate until its deferred receive runs. */
  datatype Stage =
    | Waiting
    | GaveUp
    | Entered
    | Listed(available: seq<ModelId>)
    | Chosen(model: ModelId)
    | Returning
    | Finished

  datatype Thread = Thread(op: Op, stage: Stage, acquired: nat, released: nat)

  /** A task body handed to the agent, and the model table at that moment. */
  datatype Post = Post(tid: nat, model: ModelId, table: seq<ModelId>)

  /** A command given up at its deadline that may still be carried out. */
  datatype Late = LateReseed(table: seq<ModelId>) | LatePost(tid: nat, model: ModelId)

  /** The tokens in the gate's channel of capacity one, the VM's models, the operations, the
      commands given up and the posts made so far. */
  datatype World = World(gate: nat, table: seq<ModelId>, threads: map<nat, Thread>, late: multiset<Late>, posts: seq<Post>)

  datatype Step =
    | Spawn(tid: nat, op: Op)
    | Acquire(tid: nat)
    | TimeOut(tid: nat)
    | Reseed(tid: nat, table: seq<ModelId>)
    | List(tid: nat)
    | Choose(tid: nat, own: seq<ModelId>, platform: seq<ModelId>, chosen: ModelId, current: ModelId)
    | PostTask(tid: nat)
    | Abort(tid: nat)
    | Abandon(tid: nat, table: seq<ModelId>)
    | Land(what: Late)
    | Release(tid: nat)

  predicate Holds(t: Thread) {
    t.stage.Entered? || t.stage.Listed? || t.stage.Chosen? || t.stage.Returning?
  }

  predicate Reseeds(t: Thread) {
    t.stage.Entered? && (t.op.Setup? || t.op.KeyRefresh?)
  }

  predicate Enabled(w: World, s: Step) {
    if s.Spawn? then s.tid !in w.threads
    else if s.Land? then s.what in w.late
    else
      s.tid in w.threads &&
      var t := w.threads[s.tid];
      match s
      case Acquire(_) => t.stage.Waiting? && w.gate == 0
      case TimeOut(_) => t.stage.Waiting?
      case Reseed(_, _) => Reseeds(t)
      case List(_) => t.stage.Entered? && t.op.Delivery?
      case Choose(_, _, _, _, _) => t.stage.Listed?
      case PostTask(_) => t.stage.Chosen?
      case Abort(_) => Holds(t) && !t.stage.Returning?
      case Abandon(_, _) => Reseeds(t) || t.stage.Chosen?
      case Release(_) => t.stage.Returning? && w.gate > 0
      case Spawn(_, _) => false
      case Land(_) => false
  }

  function NonEmpty(ids: seq<ModelId>): (r: seq<ModelId>)
    ensures forall id :: id in r <==> id in ids && id != ""
  {
    if ids == [] then [] else if ids[0] == "" then NonEmpty(ids[1..]) else [ids[0]] + NonEmpty(ids[1..])
  }

  function Put(w: World, tid: nat, stage: Stage): World
    requires tid in w.threads
  {
    w.(threads := w.threads[tid := w.threads[tid].(stage := stage)])
  }

  function Next(w: World, s: Step): World
    requires Enabled(w, s)
  {
    match s
    case Spawn(tid, op) => w.(threads := w.threads[tid := Thread(op, Waiting, 0, 0)])
    case Acquire(tid) =>
      var t := w.threads[tid];
      w.(gate := w.gate + 1, threads := w.threads[tid := t.(stage := Entered, acquired := t.acquired + 1)])
    case TimeOut(tid) => Put(w, tid, GaveUp)
    case Reseed(tid, table) => w.(table := table)
    case List(tid) => Put(w, tid, Listed(NonEmpty(w.table)))
    case Choose(tid, own, platform, chosen, current) =>
      var model := DesiredModel(w.threads[tid].stage.available, own, platform, chosen, current);
      Put(w, tid, if model == "" then Returning else Chosen(model))
    case PostTask(tid) =>
      Put(w, tid, Returning).(posts := w.posts + [Post(tid, w.threads[tid].stage.model, w.table)])
    case Abort(tid) => Put(w, tid, Returning)
    case Abandon(tid, table) =>
      var t := w.threads[tid];
      Put(w, tid, Returning).(late := w.late + multiset{if t.stage.Chosen? then LatePost(tid, t.stage.model) else LateReseed(table)})
    case Land(what) =>
      var w' := w.(late := w.late - multiset{what});
      if what.LateReseed? then w'.(table := what.table) else w'.(posts := w.posts + [Post(what.tid, what.model, w.table)])
    case Release(tid) =>
      var t := w.threads[tid];
      w.(gate := w.gate - 1, threads := w.threads[tid := t.(stage := Finished, released := t.released + 1)])
  }

  ghost predicate IsRun(ws: seq<World>, ss: seq<Step>) {
    && |ws| == |ss| + 1 && ws[0].gate == 0 && ws[0].threads == map[] && ws[0].late == multiset{} && ws[0].posts == []
    && forall i :: 0 <= i < |ss| ==> Enabled(ws[i], ss[i]) && ws[i + 1] == Next(ws[i], ss[i])
  }

  /** A thread's own books: one acquisition while inside and after, one release after,
      neither for one that is waiting or gave up. */
  ghost predicate Balanced(t: Thread) {
    && t.acquired == (if Holds(t) || t.stage.Finished? then 1 else 0)
    && t.released == (if t.stage.Finished? then 1 else 0)
  }

  ghost predicate Inv(w: World) {
    && w.gate <= 1
    && (w.gate == 1 <==> exists t :: t in w.threads && Holds(w.threads[t]))
    && (forall t, u :: t in w.threads && u in w.threads && Holds(w.threads[t]) && Holds(w.threads[u]) ==> t == u)
    && (forall t :: t in w.threads ==> Balanced(w.threads[t]))
  }

  /** A step that leaves the same thread inside and the gate alone. */
  lemma InsideStep(w: World, w': World, tid: nat)
    requires Inv(w) && tid in w.threads && w'.gate == w.gate && w'.threads.Keys == w.threads.Keys
    requires forall t :: t in w.threads && t != tid ==> w'.threads[t] == w.threads[t]
    requires Holds(w'.threads[tid]) == Holds(w.threads[tid]) && Balanced(w'.threads[tid])
    ensures Inv(w')
  {
    if w.gate == 1 {
      var t :| t in w.threads && Holds(w.threads[t]);
      assert Holds(w'.threads[t]);
    } else {
      assert forall t :: t in w'.threads ==> (Holds(w'.threads[t]) <==> Holds(w.threads[t]));
    }
  }

  lemma EdgeStep(w: World, s: Step)
    requires Inv(w) && Enabled(w, s) && (s.Spawn? || s.Acquire? || s.Release?)
    ensures Inv(Next(w, s))
  {
    var w' := Next(w, s);
    if s.Spawn? {
      assert forall t :: t in w.threads ==> w'.threads[t] == w.threads[t];
    } else if s.Acquire? {
      assert Balanced(w.threads[s.tid]);
      assert Holds(w'.threads[s.tid]);
    } else {
      assert Balanced(w.threads[s.tid]);
      assert Holds(w.threads[s.tid]);
    }
  }

  lemma NextKeepsInv(w: World, s: Step)
    requires Inv(w) && Enabled(w, s)
    ensures Inv(Next(w, s))
  {
    if s.Spawn? || s.Acquire? || s.Release? {
      EdgeStep(w, s);
    } else if !s.Land? {
      assert Balanced(w.threads[s.tid]);
      InsideStep(w, Next(w, s), s.tid);
    }
  }

  lemma {:induction false} RunsKeepInv(ws: seq<World>, ss: seq<Step>, n: nat)
    requires IsRun(ws, ss) && n < |ws|
    ensures Inv(ws[n])
  {
    if n > 0 {
      RunsKeepInv(ws, ss, n - 1);
      NextKeepsInv(ws[n - 1], ss[n - 1]);
    }
  }

  /** Under every interleaving at most one operation is inside the VM's gate, each
      acquisition is released exactly once and a timeout releases nothing. */
  lemma GateIsExclusive(ws: seq<World>, ss: seq<Step>, n: nat, t: nat, u: nat)
    requires IsRun(ws, ss) && n < |ws| && t in ws[n].threads && u in ws[n].threads
    ensures Holds(ws[n].threads[t]) && Holds(ws[n].threads[u]) ==> t == u
    ensures ws[n].threads[t].stage.GaveUp? || ws[n].threads[t].stage.Waiting? ==> ws[n].threads[t].acquired == ws[n].threads[t].released == 0
    ensures ws[n].threads[t].stage.Finished? ==> ws[n].threads[t].acquired == ws[n].threads[t].released == 1
    ensures Holds(ws[n].threads[t]) ==> ws[n].gate == 1
  {
    RunsKeepInv(ws, ss, n);
    assert Balanced(ws[n].threads[t]);
  }

  /** The deferred receive never blocks: whoever is returning finds its token. */
  lemma ReleaseNeverBlocks(ws: seq<World>, ss: seq<Step>, n: nat, t: nat)
    requires IsRun(ws, ss) && n < |ws| && t in ws[n].threads && ws[n].threads[t].stage.Returning?
    ensures Enabled(ws[n], Release(t))
  {
    RunsKeepInv(ws, ss, n);
  }

  // ----- The model a delivery posts -----

  /** The step writes the model table, inside the gate or late. */
  predicate Rewrites(s: Step) {
    s.Reseed? || (s.Land? && s.what.LateReseed?)
  }

  function Written(s: Step): seq<ModelId>
    requires Rewrites(s)
  {
    if s.Reseed? then s.table else s.what.table
  }

  /** What a delivery inside the gate has, it has from its listing, and no operation has
      written the table through the gate since. */
  ghost predicate HasListed(ws: seq<World>, ss: seq<Step>, n: nat, k: nat, tid: nat)
    requires n < |ws| && tid in ws[n].threads
  {
    var stage := ws[n].threads[tid].stage;
    && k < n <= |ss| && k < |ws| && ss[k] == List(tid) && (forall j :: k < j < n ==> !ss[j].Reseed?)
    && (stage.Listed? ==> stage.available == NonEmpty(ws[k].table))
    && (stage.Chosen? ==> stage.model in ws[k].table)
  }

  predicate Choosing(w: World, tid: nat) {
    tid in w.threads && (w.threads[tid].stage.Listed? || w.threads[tid].stage.Chosen?)
  }

  lemma NoReseedBeside(w: World, s: Step, tid: nat)
    requires Inv(w) && Enabled(w, s) && Choosing(w, tid)
    ensures !s.Reseed?
  {
    if s.Reseed? {
      assert Holds(w.threads[tid]) && Holds(w.threads[s.tid]);
    }
  }

  /** The same, or a choice from what was listed. */
  predicate Follows(stage: Stage, after: Stage) {
    after == stage || (stage.Listed? && after.Chosen? && after.model in stage.available)
  }

  /** Where a delivery that is choosing comes from. */
  lemma ChoosingSince(w: World, s: Step, tid: nat)
    requires Enabled(w, s) && Choosing(Next(w, s), tid)
    ensures var stage := Next(w, s).threads[tid].stage;
            || (s == List(tid) && stage == Listed(NonEmpty(w.table)))
            || (Choosing(w, tid) && Follows(w.threads[tid].stage, stage))
  {
    if s.Choose? && s.tid == tid {
      ChosenIsListed(w, s);
    }
  }

  lemma ChosenIsListed(w: World, s: Step)
    requires Enabled(w, s) && s.Choose? && Next(w, s).threads[s.tid].stage.Chosen?
    ensures Next(w, s).threads[s.tid].stage.model in w.threads[s.tid].stage.available
  {
    var available := w.threads[s.tid].stage.available;
    ChoiceIsOffered(available, s.own, s.platform, s.chosen, s.current);
  }

  lemma ChoiceIsOffered(available: seq<ModelId>, own: seq<ModelId>, platform: seq<ModelId>, chosen: ModelId, current: ModelId)
    ensures var want := DesiredModel(available, own, platform, chosen, current); want == "" || want in available
  {
    var mine := Mine(available, own);
    if mine != [] {
      assert mine[0] in mine;
    }
  }

  /** One step of a delivery that is choosing: it has just listed, or goes on from there. */
  ghost predicate GoesOn(w: World, s: Step, w': World, tid: nat) {
    Choosing(w', tid) &&
    var stage := w'.threads[tid].stage;
    || (s == List(tid) && stage == Listed(NonEmpty(w.table)))
    || (Choosing(w, tid) && Follows(w.threads[tid].stage, stage) && !s.Reseed? && s != List(tid))
  }

  lemma StepGoesOn(ws: seq<World>, ss: seq<Step>, n: nat, tid: nat)
    requires IsRun(ws, ss) && n < |ss| && Choosing(ws[n + 1], tid)
    ensures GoesOn(ws[n], ss[n], ws[n + 1], tid)
  {
    RunsKeepInv(ws, ss, n);
    ChoosingSince(ws[n], ss[n], tid);
    if Choosing(ws[n], tid) {
      NoReseedBeside(ws[n], ss[n], tid);
    }
  }

  /** Steps without the rest of the run. */
  lemma {:induction false} ListedIn(ws: seq<World>, ss: seq<Step>, n: nat, tid: nat) returns (k: nat)
    requires |ws| == |ss| + 1 && n < |ws| && Choosing(ws[n], tid) && !Choosing(ws[0], tid)
    requires forall i :: 0 <= i < |ss| && Choosing(ws[i + 1], tid) ==> GoesOn(ws[i], ss[i], ws[i + 1], tid)
    ensures HasListed(ws, ss, n, k, tid)
    decreases n
  {
    var m := n - 1;
    assert Choosing(ws[m + 1], tid) && GoesOn(ws[m], ss[m], ws[m + 1], tid);
    if ss[m] == List(tid) {
      k := m;
    } else {
      k := ListedIn(ws, ss, m, tid);
    }
  }

  lemma ListedBefore(ws: seq<World>, ss: seq<Step>, n: nat, tid: nat) returns (k: nat)
    requires IsRun(ws, ss) && n < |ws| && Choosing(ws[n], tid)
    ensures HasListed(ws, ss, n, k, tid)
  {
    forall i | 0 <= i < |ss| && Choosing(ws[i + 1], tid) ensures GoesOn(ws[i], ss[i], ws[i + 1], tid) {
      StepGoesOn(ws, ss, i, tid);
    }
    k := ListedIn(ws, ss, n, tid);
  }

  lemma LateSince(w: World, s: Step, p: Late)
    requires Enabled(w, s) && p.LatePost? && p in Next(w, s).late
    ensures p in w.late || (p.tid in w.threads && w.threads[p.tid].stage == Chosen(p.model))
  {
  }

  lemma {:induction false} LateWasListed(ws: seq<World>, ss: seq<Step>, n: nat, p: Late) returns (k: nat)
    requires IsRun(ws, ss) && n < |ws| && p.LatePost? && p in ws[n].late
    ensures k < n && ss[k] == List(p.tid) && p.model in ws[k].table
  {
    assert n > 0 && ws[n] == Next(ws[n - 1], ss[n - 1]);
    LateSince(ws[n - 1], ss[n - 1], p);
    if p in ws[n - 1].late {
      k := LateWasListed(ws, ss, n - 1, p);
    } else {
      k := ListedBefore(ws, ss, n - 1, p.tid);
    }
  }

  lemma {:induction false} TableStays(ws: seq<World>, ss: seq<Step>, a: nat, b: nat)
    requires IsRun(ws, ss) && a <= b < |ws| && forall j :: a <= j < b ==> !Rewrites(ss[j])
    ensures ws[b].table == ws[a].table
    decreases b
  {
    if a < b {
      TableStays(ws, ss, a, b - 1);
    }
  }

  /** The last step between k and n that wrote the table. */
  ghost predicate LastRewrite(ss: seq<Step>, k: nat, n: nat, j: nat) {
    k < j < n <= |ss| && Rewrites(ss[j]) && forall i :: j < i < n ==> !Rewrites(ss[i])
  }

  predicate MakesPost(s: Step) {
    s.PostTask? || (s.Land? && s.what.LatePost?)
  }

  /** Every model posted was in the VM's table when its delivery listed it, and it is there
      when it is posted if and only if the last write since, if there was one, kept it. As
      long as the delivery posts inside the gate, only a command given up earlier writes the
      table in between. */
  lemma PostedModelIsInTheTable(ws: seq<World>, ss: seq<Step>, n: nat) returns (k: nat)
    requires IsRun(ws, ss) && n < |ss| && MakesPost(ss[n])
    ensures var p := ws[n + 1].posts[|ws[n + 1].posts| - 1];
            && |ws[n + 1].posts| == |ws[n].posts| + 1 && p.table == ws[n].table
            && k < n && ss[k] == List(p.tid) && p.model in ws[k].table
            && ((forall j :: k < j < n ==> !Rewrites(ss[j])) ==> p.model in ws[n].table)
            && (forall j: nat :: LastRewrite(ss, k, n, j) ==> (p.model in ws[n].table <==> p.model in Written(ss[j])))
            && (ss[n].PostTask? ==> p.tid == ss[n].tid && forall j :: k < j < n && Rewrites(ss[j]) ==> ss[j].Land?)
  {
    if ss[n].PostTask? {
      k := ListedBefore(ws, ss, n, ss[n].tid);
    } else {
      k := LateWasListed(ws, ss, n, ss[n].what);
    }
    assert ws[n + 1] == Next(ws[n], ss[n]) && ws[k + 1] == Next(ws[k], ss[k]);
    if forall j :: k < j < n ==> !Rewrites(ss[j]) {
      TableStays(ws, ss, k + 1, n);
    }
    forall j: nat | LastRewrite(ss, k, n, j) ensures ws[n].table == Written(ss[j]) {
      assert ws[j + 1] == Next(ws[j], ss[j]);
      TableStays(ws, ss, j + 1, n);
    }
  }

  /** A run that ends in this world. */
  ghost predicate Leads(ws: seq<World>, ss: seq<Step>, w: World) {
    IsRun(ws, ss) && ws[|ss|] == w
  }

  lemma Then(ws: seq<World>, ss: seq<Step>, w: World, s: Step) returns (ws': seq<World>, ss': seq<Step>)
    requires Leads(ws, ss, w) && Enabled(w, s)
    ensures Leads(ws', ss', Next(w, s)) && ss' == ss + [s]
  {
    ws', ss' := ws + [Next(w, s)], ss + [s];
  }

  const Left := Thread(KeyRefresh, Finished, 1, 1)

  /** A key refresh gives its reseed up at the deadline and leaves the gate. */
  lemma GivenUp(model: ModelId) returns (ws: seq<World>, ss: seq<Step>)
    ensures Leads(ws, ss, World(0, [model], map[0 := Left], multiset{LateReseed([])}, []))
  {
    var w := World(0, [model], map[], multiset{}, []);
    ws, ss := Then([w], [], w, Spawn(0, KeyRefresh));
    w := World(0, [model], map[0 := Thread(KeyRefresh, Waiting, 0, 0)], multiset{}, []);
    ws, ss := Then(ws, ss, w, Acquire(0));
    w := World(1, [model], map[0 := Thread(KeyRefresh, Entered, 1, 0)], multiset{}, []);
    ws, ss := Then(ws, ss, w, Abandon(0, []));
    w := World(1, [model], map[0 := Thread(KeyRefresh, Returning, 1, 0)], multiset{LateReseed([])}, []);
    ws, ss := Then(ws, ss, w, Release(0));
  }

  /** A delivery lists and chooses a model. */
  lemma ModelChosen(model: ModelId) returns (ws: seq<World>, ss: seq<Step>)
    requires model != ""
    ensures Leads(ws, ss, World(1, [model], map[0 := Left, 1 := Thread(Delivery, Chosen(model), 1, 0)], multiset{LateReseed([])}, []))
  {
    ws, ss := GivenUp(model);
    var late := multiset{LateReseed([])};
    ws, ss := Then(ws, ss, World(0, [model], map[0 := Left], late, []), Spawn(1, Delivery));
    var w := World(0, [model], map[0 := Left, 1 := Thread(Delivery, Waiting, 0, 0)], late, []);
    ws, ss := Then(ws, ss, w, Acquire(1));
    w := World(1, [model], map[0 := Left, 1 := Thread(Delivery, Entered, 1, 0)], late, []);
    ws, ss := Then(ws, ss, w, List(1));
    assert NonEmpty([model]) == [model];
    w := World(1, [model], map[0 := Left, 1 := Thread(Delivery, Listed([model]), 1, 0)], late, []);
    ws, ss := Then(ws, ss, w, Choose(1, [], [], model, model));
  }

  /** The gate alone is not enough: a reseed given up inside it is carried out between a later
      delivery's listing and its post, and the model posted is no longer in the table. */
  lemma LateReseedDropsModel(model: ModelId) returns (ws: seq<World>, ss: seq<Step>)
    requires model != ""
    ensures IsRun(ws, ss) && ss != [] && ss[|ss| - 1] == PostTask(1) && ws[|ss|].posts == [Post(1, model, [])]
  {
    ws, ss := ModelChosen(model);
    var threads := map[0 := Left, 1 := Thread(Delivery, Chosen(model), 1, 0)];
    ws, ss := Then(ws, ss, World(1, [model], threads, multiset{LateReseed([])}, []), Land(LateReseed([])));
    ws, ss := Then(ws, ss, World(1, [], threads, multiset{}, []), PostTask(1));
  }
}
