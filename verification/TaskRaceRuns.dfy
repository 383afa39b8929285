/** Runs of overlapping calls: the bounds on posts, resumes and turns are reached, a done task
    is overwritten and a retried one is lost. */
module TaskRaceRuns {
  import opened Basics
  import opened Text
  import opened TaskLifecycle
  import opened TaskRaces

  // ----- The bounds are reached -----

  lemma Append(text: string, acts: seq<Act>, act: Act)
    ensures Reached(text, acts + [act]) == Next(Reached(text, acts), act)
  {
    assert (acts + [act])[..|acts|] == acts;
  }

  /** Calls k to n - 1, all at the same place. */
  function Row(k: nat, n: nat, p: Proc): (r: map<nat, Proc>)
    ensures forall t :: t in r <==> k <= t < n
    ensures forall t :: t in r ==> r[t] == p
    decreases n
  {
    if n <= k then map[] else Row(k, n - 1, p)[n - 1 := p]
  }

  lemma RowEnds(k: nat, n: nat, p: Proc)
    requires k <= n
    ensures k < n ==> Row(k, n, p) - {k} == Row(k + 1, n, p)
    ensures n !in Row(k, n, p) && Row(k, n, p)[n := p] == Row(k, n + 1, p)
    ensures Row(k, k, p) == map[]
  {
  }

  /** Deliveries k to n - 1 wait for the gate; `lost` posts were not recorded, k were. */
  ghost predicate Waits(w: World, k: nat, n: nat, lost: nat) {
    && w.row.text != "" && !w.gate && (k == 0 ==> w.row.state == Pending)
    && w.procs == Row(k, n, Queued)
    && w.books.posts == lost + k && w.books.unrecorded == lost
    && k + Many(w.procs, Unrecorded) == n && (if n > 0 then w.books.deliveries == n else w.books.deliveries <= 1)
  }

  function Serving(w: World, k: nat, writes: bool): World {
    Next(Next(Next(w, Enter(k)), Post(k, Said(""), "c")), RecordPost(k, writes))
  }

  /** The first of the waiting deliveries goes through. */
  lemma ServeFirst(w: World, k: nat, n: nat, lost: nat, writes: bool)
    requires Waits(w, k, n, lost) && k < n
    ensures var w' := Serving(w, k, writes);
            && w'.row.text == w.row.text && (!writes ==> w'.row == w.row) && !w'.gate && w'.procs == w.procs - {k}
            && w'.books.posts == w.books.posts + 1 && w'.books.unrecorded == lost + One(!writes)
            && w'.books.deliveries == w.books.deliveries && Many(w'.procs, Unrecorded) == Many(w.procs, Unrecorded) - 1
  {
    var w1 := Next(w, Enter(k));
    var w2 := Next(w1, Post(k, Said(""), "c"));
    MoveCounts(w, Enter(k), Unrecorded);
    MoveCounts(w1, Post(k, Said(""), "c"), Unrecorded);
    MoveCounts(w2, RecordPost(k, writes), Unrecorded);
  }

  lemma ServedWaits(w: World, k: nat, n: nat, lost: nat)
    requires Waits(w, k, n, lost) && k < n
    ensures Waits(Serving(w, k, true), k + 1, n, lost)
  {
    ServeFirst(w, k, n, lost, true);
    RowEnds(k, n, Queued);
  }

  lemma FumbledWaits(w: World, lost: nat)
    requires Waits(w, 0, 1, lost)
    ensures Waits(Serving(w, 0, false), 0, 0, lost + 1)
  {
    ServeFirst(w, 0, 1, lost, false);
    RowEnds(0, 1, Queued);
    RowEnds(1, 1, Queued);
    RowEnds(0, 0, Queued);
  }

  lemma QueueOne(w: World, n: nat, lost: nat)
    requires Waits(w, 0, n, lost)
    ensures Waits(Next(w, LoadTask(n)), 0, n + 1, lost)
  {
    MoveCounts(w, LoadTask(n), Unrecorded);
    RowEnds(0, n, Queued);
  }

  lemma Served(text: string, front: seq<Act>, k: nat, writes: bool) returns (acts: seq<Act>)
    ensures Reached(text, acts) == Serving(Reached(text, front), k, writes)
  {
    Append(text, front, Enter(k));
    Append(text, front + [Enter(k)], Post(k, Said(""), "c"));
    Append(text, front + [Enter(k)] + [Post(k, Said(""), "c")], RecordPost(k, writes));
    acts := front + [Enter(k)] + [Post(k, Said(""), "c")] + [RecordPost(k, writes)];
  }

  lemma NobodyWaits(text: string)
    requires TrimSpace(text) != ""
    ensures Waits(Reached(text, []), 0, 0, 0)
  {
    assert Those(Created(text).procs, Unrecorded) == {};
    RowEnds(0, 0, Queued);
  }

  lemma QueueNext(text: string, front: seq<Act>, n: nat, lost: nat) returns (acts: seq<Act>)
    requires Waits(Reached(text, front), 0, n, lost)
    ensures Waits(Reached(text, acts), 0, n + 1, lost)
  {
    QueueOne(Reached(text, front), n, lost);
    Append(text, front, LoadTask(n));
    acts := front + [LoadTask(n)];
  }

  lemma FumbleNext(text: string, front: seq<Act>, lost: nat) returns (acts: seq<Act>)
    requires Waits(Reached(text, front), 0, 1, lost)
    ensures Waits(Reached(text, acts), 0, 0, lost + 1)
  {
    FumbledWaits(Reached(text, front), lost);
    acts := Served(text, front, 0, false);
  }

  /** First the deliveries whose outcome is lost, one by one; then n arrive at once. */
  lemma {:induction false} Queue(text: string, n: nat, lost: nat) returns (acts: seq<Act>)
    requires TrimSpace(text) != ""
    ensures Waits(Reached(text, acts), 0, n, lost)
    decreases lost, n
  {
    if n > 0 {
      var front := Queue(text, n - 1, lost);
      acts := QueueNext(text, front, n - 1, lost);
    } else if lost > 0 {
      var front := Queue(text, 1, lost - 1);
      acts := FumbleNext(text, front, lost - 1);
    } else {
      acts := [];
      NobodyWaits(text);
    }
  }

  lemma ServeOne(text: string, front: seq<Act>, k: nat, n: nat, lost: nat) returns (acts: seq<Act>)
    requires Waits(Reached(text, front), k, n, lost) && k < n
    ensures Waits(Reached(text, acts), k + 1, n, lost)
  {
    ServedWaits(Reached(text, front), k, n, lost);
    acts := Served(text, front, k, true);
  }

  lemma {:induction false} Serve(text: string, k: nat, n: nat, lost: nat) returns (acts: seq<Act>)
    requires TrimSpace(text) != "" && k <= n
    ensures Waits(Reached(text, acts), k, n, lost)
    decreases k
  {
    if k == 0 {
      acts := Queue(text, n, lost);
    } else {
      var front := Serve(text, k - 1, n, lost);
      acts := ServeOne(text, front, k - 1, n, lost);
    }
  }

  /** The bound on posts is reached for any number of deliveries under way at once and any
      number of outcomes that were not recorded. */
  lemma PostsAreReached(text: string, n: nat, lost: nat) returns (acts: seq<Act>)
    requires TrimSpace(text) != "" && n >= 1
    ensures var b := Reached(text, acts).books; b.deliveries == n && b.unrecorded == lost && b.posts == n + lost
  {
    acts := Serve(text, n, n, lost);
  }

  /** Rounds lo to hi - 1 have loaded the row, below the limit, and not polled yet; since the
      delivery `spent` answers were counted, `lost` were not and `silent` never came. */
  ghost predicate Polls(w: World, copy: Task, spent: nat, lo: nat, hi: nat, lost: nat, silent: nat) {
    && InProgress(w.row.state) && ValidConversation(w.row.conversation) && w.row.resumes == spent
    && w.procs == Row(lo, hi, Watching(copy)) && ValidConversation(copy.conversation) && copy.resumes < MAX_RESUMES
    && w.books.lost == lost && w.books.silent == silent && w.books.answered == spent + lost && w.books.turns == spent + lost + silent
    && lo + Many(w.procs, Chargeable) == hi && (if hi > 0 then w.books.rounds == hi else w.books.rounds <= 1)
  }

  lemma PollOne(w: World, spent: nat, hi: nat, lost: nat, silent: nat)
    requires Polls(w, w.row, spent, 0, hi, lost, silent)
    ensures Polls(Next(w, LoadRound(hi)), w.row, spent, 0, hi + 1, lost, silent)
  {
    MoveCounts(w, LoadRound(hi), Chargeable);
    RowEnds(0, hi, Watching(w.row));
  }

  function Answer(w: World, t: nat, how: Resumed): World {
    Next(Next(Next(w, Ask(t, Resuming(how).a)), Count(t, how.Counted?)), RecordRound(t, true))
  }

  lemma AskFirst(w: World, copy: Task, spent: nat, lo: nat, hi: nat, lost: nat, silent: nat, how: Resumed)
    requires Polls(w, copy, spent, lo, hi, lost, silent) && lo < hi
    ensures var w' := Next(w, Ask(lo, Resuming(how).a));
            && w'.row == w.row && w'.books.lost == lost && w'.books.silent == silent + One(how.Unheard?)
            && w'.procs == (if how.Unheard? then w.procs - {lo} else w.procs[lo := Heard(copy, true, "")])
            && w'.books.answered == w.books.answered + One(!how.Unheard?) && w'.books.turns == w.books.turns + 1
            && w'.books.rounds == w.books.rounds && Many(w'.procs, Chargeable) == Many(w.procs, Chargeable) - One(how.Unheard?)
  {
    MoveCounts(w, Ask(lo, Resuming(how).a), Chargeable);
  }

  lemma CountFirst(w: World, t: nat, writes: bool)
    requires t in w.procs && w.procs[t].Heard? && w.procs[t].taken && InProgress(w.row.state) && Many(w.procs, Chargeable) <= w.books.rounds
    ensures var w' := Next(Next(w, Count(t, writes)), RecordRound(t, true));
            && w'.procs == w.procs - {t} && InProgress(w'.row.state) && w'.row.conversation == w.row.conversation
            && w'.row.resumes == w.row.resumes + One(writes) && w'.books.lost == w.books.lost + One(!writes)
            && w'.books.silent == w.books.silent && w'.books.answered == w.books.answered && w'.books.turns == w.books.turns
            && w'.books.rounds == w.books.rounds && Many(w'.procs, Chargeable) == Many(w.procs, Chargeable) - 1
  {
    var w1 := Next(w, Count(t, writes));
    MoveCounts(w, Count(t, writes), Chargeable);
    MoveCounts(w1, RecordRound(t, true), Chargeable);
  }

  lemma AlreadyOver(w: World, t: nat)
    requires t !in w.procs && Many(w.procs, Chargeable) <= w.books.rounds
    ensures var w' := Next(Next(w, Count(t, false)), RecordRound(t, true));
            w'.row == w.row && w'.procs == w.procs && w'.books == w.books.(deliveries := w'.books.deliveries)
  {
  }

  /** The first of the rounds resumes the task. */
  lemma AnswerFirst(w: World, copy: Task, spent: nat, lo: nat, hi: nat, lost: nat, silent: nat, how: Resumed)
    requires Polls(w, copy, spent, lo, hi, lost, silent) && lo < hi
    ensures var w' := Answer(w, lo, how);
            && w'.procs == w.procs - {lo} && InProgress(w'.row.state) && w'.row.conversation == w.row.conversation
            && w'.row.resumes == spent + One(how.Counted?)
            && w'.books.lost == lost + One(how.Uncounted?) && w'.books.silent == silent + One(how.Unheard?)
            && w'.books.answered == w.books.answered + One(!how.Unheard?) && w'.books.turns == w.books.turns + 1
            && w'.books.rounds == w.books.rounds && Many(w'.procs, Chargeable) == Many(w.procs, Chargeable) - 1
  {
    AskFirst(w, copy, spent, lo, hi, lost, silent, how);
    var w1 := Next(w, Ask(lo, Resuming(how).a));
    if how.Unheard? {
      AlreadyOver(w1, lo);
    } else {
      CountFirst(w1, lo, how.Counted?);
      assert w1.procs - {lo} == w.procs - {lo};
    }
  }

  lemma AnsweredPolls(w: World, copy: Task, spent: nat, lo: nat, hi: nat, lost: nat, silent: nat)
    requires Polls(w, copy, spent, lo, hi, lost, silent) && lo < hi
    ensures Polls(Answer(w, lo, Resumed.Counted), copy, spent + 1, lo + 1, hi, lost, silent)
  {
    AnswerFirst(w, copy, spent, lo, hi, lost, silent, Resumed.Counted);
    RowEnds(lo, hi, Watching(copy));
  }

  /** A round on its own, seen from outside. */
  lemma RoundPolls(w: World, spent: nat, lost: nat, silent: nat, how: Resumed)
    requires Polls(w, w.row, spent, 0, 1, lost, silent) && spent + One(how.Counted?) < MAX_RESUMES
    ensures var w' := Answer(w, 0, how);
            Polls(w', w'.row, spent + One(how.Counted?), 0, 0, lost + One(how.Uncounted?), silent + One(how.Unheard?))
  {
    AnswerFirst(w, w.row, spent, 0, 1, lost, silent, how);
    var w' := Answer(w, 0, how);
    RowEnds(0, 1, Watching(w.row));
    RowEnds(1, 1, Watching(w.row));
    RowEnds(0, 0, Watching(w'.row));
  }

  lemma Answering(text: string, front: seq<Act>, t: nat, how: Resumed) returns (acts: seq<Act>)
    ensures Reached(text, acts) == Answer(Reached(text, front), t, how)
  {
    var ask, count := Ask(t, Resuming(how).a), Count(t, how.Counted?);
    Append(text, front, ask);
    Append(text, front + [ask], count);
    Append(text, front + [ask] + [count], RecordRound(t, true));
    acts := front + [ask] + [count] + [RecordRound(t, true)];
  }

  lemma HandOver(w: World)
    requires w.procs == map[0 := Queued] && !w.gate && w.books.rounds == 0
    ensures var w' := Serving(w, 0, true); Polls(w', w'.row, 0, 0, 0, 0, 0)
  {
    var w1 := Next(w, Enter(0));
    assert w1.procs == map[0 := Inside] && w1.gate;
    assert ValidConversation("c");
    var w2 := Next(w1, Post(0, Said(""), "c"));
    assert w2.procs == map[0 := Posted(Some("c"))];
    var w3 := Next(w2, RecordPost(0, true));
    assert w3.procs == map[];
    assert Those(w1.procs, Chargeable) == {} && Those(w2.procs, Chargeable) == {} && Those(w3.procs, Chargeable) == {};
    RowEnds(0, 0, Watching(w3.row));
  }

  lemma HandedOver(text: string) returns (acts: seq<Act>)
    requires TrimSpace(text) != ""
    ensures var w := Reached(text, acts); Polls(w, w.row, 0, 0, 0, 0, 0)
  {
    var w := Next(Created(text), LoadTask(0));
    assert w.procs == map[0 := Queued];
    assert Those(w.procs, Chargeable) == {};
    HandOver(w);
    Append(text, [], LoadTask(0));
    acts := Served(text, [] + [LoadTask(0)], 0, true);
  }

  /** One more round on its own, after those before it. */
  lemma OneMore(text: string, front: seq<Act>, spent: nat, lost: nat, silent: nat, how: Resumed) returns (acts: seq<Act>)
    requires var w := Reached(text, front); Polls(w, w.row, spent, 0, 0, lost, silent)
    requires spent + One(how.Counted?) < MAX_RESUMES
    ensures var w := Reached(text, acts);
            Polls(w, w.row, spent + One(how.Counted?), 0, 0, lost + One(how.Uncounted?), silent + One(how.Unheard?))
  {
    var w := Reached(text, front);
    PollOne(w, spent, 0, lost, silent);
    Append(text, front, LoadRound(0));
    RoundPolls(Next(w, LoadRound(0)), spent, lost, silent, how);
    acts := Answering(text, front + [LoadRound(0)], 0, how);
  }

  /** First the silent rounds, then those whose count is lost, then two that are counted. */
  lemma {:induction false} Spend(text: string, spent: nat, lost: nat, silent: nat) returns (acts: seq<Act>)
    requires TrimSpace(text) != "" && spent < MAX_RESUMES
    ensures var w := Reached(text, acts); Polls(w, w.row, spent, 0, 0, lost, silent)
    decreases spent + lost + silent
  {
    if spent > 0 {
      var front := Spend(text, spent - 1, lost, silent);
      acts := OneMore(text, front, spent - 1, lost, silent, Resumed.Counted);
    } else if lost > 0 {
      var front := Spend(text, 0, lost - 1, silent);
      acts := OneMore(text, front, 0, lost - 1, silent, Uncounted);
    } else if silent > 0 {
      var front := Spend(text, 0, 0, silent - 1);
      acts := OneMore(text, front, 0, 0, silent - 1, Unheard);
    } else {
      acts := HandedOver(text);
    }
  }

  lemma GatherOne(text: string, front: seq<Act>, n: nat, lost: nat, silent: nat) returns (acts: seq<Act>)
    requires var w := Reached(text, front); Polls(w, w.row, MAX_RESUMES - 1, 0, n, lost, silent)
    ensures var w := Reached(text, acts); Polls(w, w.row, MAX_RESUMES - 1, 0, n + 1, lost, silent)
  {
    PollOne(Reached(text, front), MAX_RESUMES - 1, n, lost, silent);
    Append(text, front, LoadRound(n));
    acts := front + [LoadRound(n)];
  }

  /** Then n rounds load the row at once. */
  lemma {:induction false} Gather(text: string, n: nat, lost: nat, silent: nat) returns (acts: seq<Act>)
    requires TrimSpace(text) != ""
    ensures var w := Reached(text, acts); Polls(w, w.row, MAX_RESUMES - 1, 0, n, lost, silent)
    decreases n
  {
    if n == 0 {
      acts := Spend(text, MAX_RESUMES - 1, lost, silent);
    } else {
      var front := Gather(text, n - 1, lost, silent);
      acts := GatherOne(text, front, n - 1, lost, silent);
    }
  }

  lemma AnswerOne(text: string, front: seq<Act>, copy: Task, spent: nat, lo: nat, hi: nat, lost: nat, silent: nat) returns (acts: seq<Act>)
    requires Polls(Reached(text, front), copy, spent, lo, hi, lost, silent) && lo < hi
    ensures Polls(Reached(text, acts), copy, spent + 1, lo + 1, hi, lost, silent)
  {
    AnsweredPolls(Reached(text, front), copy, spent, lo, hi, lost, silent);
    acts := Answering(text, front, lo, Resumed.Counted);
  }

  /** And each of them resumes the task. */
  lemma {:induction false} AnswerAll(text: string, k: nat, n: nat, lost: nat, silent: nat) returns (acts: seq<Act>, copy: Task)
    requires TrimSpace(text) != "" && k <= n
    ensures Polls(Reached(text, acts), copy, MAX_RESUMES - 1 + k, k, n, lost, silent)
    decreases k
  {
    if k == 0 {
      acts := Gather(text, n, lost, silent);
      copy := Reached(text, acts).row;
    } else {
      var front;
      front, copy := AnswerAll(text, k - 1, n, lost, silent);
      acts := AnswerOne(text, front, copy, MAX_RESUMES + k - 2, k - 1, n, lost, silent);
    }
  }

  /** The bound on the resume count and on turns is reached for any number of rounds under
      way at once, of lost counts and of silent turns. */
  lemma TurnsAreReached(text: string, n: nat, lost: nat, silent: nat) returns (acts: seq<Act>)
    requires TrimSpace(text) != "" && n >= 1
    ensures var w, b := Reached(text, acts), Reached(text, acts).books;
            && b.rounds == n && b.lost == lost && b.silent == silent
            && w.row.resumes == MAX_RESUMES - 1 + n && b.turns == MAX_RESUMES - 1 + n + lost + silent
  {
    var copy;
    acts, copy := AnswerAll(text, n, n, lost, silent);
  }

  // ----- A done task is overwritten -----

  /** A poll that finds the task answered, and the round that records it. */
  function Finished(): Readings {
    Readings(NotFound, Answered, Unreadable, NoAnswer, "", false)
  }

  function Finishing(w: World): World {
    Next(Next(Next(w, LoadRound(2)), Ask(2, Finished())), RecordRound(2, true))
  }

  lemma ServedBeside(w: World)
    requires w.procs == map[0 := Queued, 1 := Queued] && !w.gate
    ensures var w' := Serving(w, 0, true);
            w'.row.state == Sent && w'.row.text == w.row.text && ValidConversation(w'.row.conversation) && w'.procs == map[1 := Queued]
  {
    var w1 := Next(w, Enter(0));
    assert w1.procs == map[0 := Inside, 1 := Queued];
    assert ValidConversation("c");
    var w2 := Next(w1, Post(0, Said(""), "c"));
    assert w2.procs == map[0 := Posted(Some("c")), 1 := Queued];
  }

  lemma PollBeside(w: World, copy: Task)
    requires w.procs == map[1 := Queued, 2 := Watching(copy)] && copy.state == Sent && ValidConversation(copy.conversation)
    ensures var w' := Next(w, Ask(2, Finished())); w'.row == w.row && w'.procs == map[1 := Queued, 2 := Deciding(copy, Done, NoReason)]
  {
    assert Poll(copy.resumes, Finished(), true).verdict == Is(Done, NoReason);
  }

  lemma RecordBeside(w: World, copy: Task)
    requires w.procs == map[1 := Queued, 2 := Deciding(copy, Done, NoReason)] && copy.state == Sent
    ensures var w' := Next(w, RecordRound(2, true)); w'.row.state == Done && w'.row.text == w.row.text && w'.procs == map[1 := Queued]
  {
  }

  lemma FinishedBeside(w: World)
    requires w.procs == map[1 := Queued] && w.row.state == Sent && ValidConversation(w.row.conversation)
    ensures var w' := Finishing(w); w'.row.state == Done && w'.row.text == w.row.text && w'.procs == map[1 := Queued]
  {
    var w1 := Next(w, LoadRound(2));
    assert w1.row == w.row && w1.procs == map[1 := Queued, 2 := Watching(w.row)];
    PollBeside(w1, w.row);
    RecordBeside(Next(w1, Ask(2, Finished())), w.row);
  }

  lemma FinishingRun(text: string, front: seq<Act>) returns (acts: seq<Act>)
    ensures Reached(text, acts) == Finishing(Reached(text, front))
  {
    Append(text, front, LoadRound(2));
    Append(text, front + [LoadRound(2)], Ask(2, Finished()));
    Append(text, front + [LoadRound(2)] + [Ask(2, Finished())], RecordRound(2, true));
    acts := front + [LoadRound(2)] + [Ask(2, Finished())] + [RecordRound(2, true)];
  }

  lemma TwoQueued(text: string) returns (acts: seq<Act>)
    requires TrimSpace(text) != ""
    ensures var w := Reached(text, acts); w.procs == map[0 := Queued, 1 := Queued] && !w.gate && w.row.text != ""
  {
    Append(text, [], LoadTask(0));
    Append(text, [] + [LoadTask(0)], LoadTask(1));
    acts := [] + [LoadTask(0)] + [LoadTask(1)];
    assert Next(Created(text), LoadTask(0)).procs == map[0 := Queued];
  }

  lemma WaitEnds(w: World, t: nat)
    requires w.row.state == Done && w.row.text != "" && t in w.procs && w.procs[t] == Queued
    ensures Next(w, GiveUp(t, true)).row.state == State.Failed
    ensures Next(Next(w, GiveUp(t, true)), RetryTask).row.state == Pending
  {
  }

  /** With a delivery still waiting for the gate it does change: the wait ends in a failure
      recorded over the answer, and the task may then be posted again. */
  lemma DoneIsOverwritten(text: string) returns (acts: seq<Act>)
    requires TrimSpace(text) != ""
    ensures var w := Reached(text, acts);
            && w.row.state == Done && Next(w, GiveUp(1, true)).row.state == State.Failed
            && Next(Next(w, GiveUp(1, true)), RetryTask).row.state == Pending
  {
    var queued := TwoQueued(text);
    ServedBeside(Reached(text, queued));
    var sent := Served(text, queued, 0, true);
    FinishedBeside(Reached(text, sent));
    acts := FinishingRun(text, sent);
    WaitEnds(Reached(text, acts), 1);
  }

  // ----- A retried task is lost -----

  /** A poll that finds the conversation deleted. */
  function Deleted(): Readings {
    Readings(NotFound, Gone, Unreadable, NoAnswer, "", false)
  }

  function Overtaken(w: World): World {
    Next(Next(Next(Next(w, Ask(1, Finished())), Ask(0, Deleted())), RecordRound(0, true)), RetryTask)
  }

  lemma PollTwo(w: World, copy: Task)
    requires w.procs == map[0 := Watching(copy), 1 := Watching(copy)] && ValidConversation(copy.conversation)
    ensures var w' := Next(Next(w, Ask(1, Finished())), Ask(0, Deleted()));
            w'.row == w.row && w'.procs == map[0 := Deciding(copy, State.Failed, ConversationGone), 1 := Deciding(copy, Done, NoReason)]
  {
    assert Poll(copy.resumes, Finished(), true).verdict == Is(Done, NoReason);
    assert Poll(copy.resumes, Deleted(), true).verdict == Is(State.Failed, ConversationGone);
    var w1 := Next(w, Ask(1, Finished()));
    assert w1.row == w.row && w1.procs == map[0 := Watching(copy), 1 := Deciding(copy, Done, NoReason)];
  }

  lemma RetryBetween(w: World, copy: Task)
    requires w.procs == map[0 := Deciding(copy, State.Failed, ConversationGone), 1 := Deciding(copy, Done, NoReason)]
    requires InProgress(copy.state) && w.row.text != ""
    ensures var w' := Next(Next(w, RecordRound(0, true)), RetryTask);
            && w'.row == w.row.(state := Pending, error := NoReason, conversation := "", resumes := 0)
            && w'.procs == map[1 := Deciding(copy, Done, NoReason)] && w'.books.posts == 0
  {
    var w1 := Next(w, RecordRound(0, true));
    assert w1.row == w.row.(state := State.Failed, error := ConversationGone) && w1.procs == map[1 := Deciding(copy, Done, NoReason)];
  }

  /** Two rounds have loaded the row of a delivered task. */
  lemma TwoWatch(text: string) returns (acts: seq<Act>)
    requires TrimSpace(text) != ""
    ensures var w := Reached(text, acts);
            w.procs == map[0 := Watching(w.row), 1 := Watching(w.row)] && ValidConversation(w.row.conversation) && InProgress(w.row.state)
  {
    var front := HandedOver(text);
    var w := Reached(text, front);
    PollOne(w, 0, 0, 0, 0);
    PollOne(Next(w, LoadRound(0)), 0, 1, 0, 0);
    Append(text, front, LoadRound(0));
    Append(text, front + [LoadRound(0)], LoadRound(1));
    acts := front + [LoadRound(0)] + [LoadRound(1)];
    assert Row(0, 2, Watching(w.row)) == map[0 := Watching(w.row), 1 := Watching(w.row)];
  }

  /** One of two overlapping rounds fails the task, its owner retries it, and the other round
      records what it saw before: the task waits for a delivery no more, and none was made. */
  lemma RetryIsOverwritten(text: string) returns (acts: seq<Act>)
    requires TrimSpace(text) != ""
    ensures Overwrites(Reached(text, acts))
  {
    var front := TwoWatch(text);
    TextStays(text, front);
    OvertakenStands(Reached(text, front));
    acts := OvertakenRun(text, front);
  }

  /** A task that is to be delivered becomes done by a round's record. */
  ghost predicate Overwrites(w: World) {
    && w.row.state == Pending && w.row.conversation == "" && w.books.posts == 0
    && Next(w, RecordRound(1, true)).row == w.row.(state := Done)
  }

  lemma LateDone(w: World, copy: Task)
    requires w.procs == map[1 := Deciding(copy, Done, NoReason)] && InProgress(copy.state)
    ensures Next(w, RecordRound(1, true)).row == w.row.(state := Done, error := NoReason)
  {
  }

  lemma OvertakenStands(w: World)
    requires w.procs == map[0 := Watching(w.row), 1 := Watching(w.row)] && ValidConversation(w.row.conversation)
    requires InProgress(w.row.state) && w.row.text != ""
    ensures Overwrites(Overtaken(w))
  {
    PollTwo(w, w.row);
    RetryBetween(Next(Next(w, Ask(1, Finished())), Ask(0, Deleted())), w.row);
    LateDone(Overtaken(w), w.row);
  }

  lemma OvertakenRun(text: string, front: seq<Act>) returns (acts: seq<Act>)
    ensures Reached(text, acts) == Overtaken(Reached(text, front))
  {
    var a, b, c := Ask(1, Finished()), Ask(0, Deleted()), RecordRound(0, true);
    Append(text, front, a);
    Append(text, front + [a], b);
    Append(text, front + [a] + [b], c);
    Append(text, front + [a] + [b] + [c], RetryTask);
    acts := front + [a] + [b] + [c] + [RetryTask];
  }
}
