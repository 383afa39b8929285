/** The initial task when calls on one VM overlap: each statement and each request to the
    agent is a step of its own, and a call decides by the row it loaded first. */
module TaskRaces {
  import opened Basics
  import opened Text
  import opened TaskLifecycle

  /** Where a call stands: a delivery that loaded a pending row, holds the VM's gate, or has
      posted; a monitoring round that loaded a row, was answered, or knows what to record. */
  datatype Proc =
    | Queued
    | Inside
    | Posted(conversation: Option<string>)
    | Watching(copy: Task)
    | Heard(copy: Task, taken: bool, wording: string)
    | Deciding(copy: Task, state: State, reason: Reason)

  datatype Act =
    | LoadTask(tid: nat)
    | Enter(tid: nat)
    | GiveUp(tid: nat, writes: bool)
    | Post(tid: nat, reply: Reply, conversation: string)
    | RecordPost(tid: nat, writes: bool)
    | LoadRound(tid: nat)
    | Adopt(tid: nat, find: Reply, writes: bool)
    | Ask(tid: nat, a: Readings)
    | Count(tid: nat, writes: bool)
    | RecordRound(tid: nat, writes: bool)
    | RetryTask

  /** Since the task last became pending: its posts and the outcomes that were not recorded.
      Since the resume count was last cleared: the requests the agent answered, the counts
      lost, the requests that started a turn unanswered, and the turns started. Ever: the
      most deliveries and the most rounds under way at once. */
  datatype Books = Books(posts: nat, unrecorded: nat, answered: nat, lost: nat, silent: nat, turns: nat, deliveries: nat, rounds: nat)

  datatype World = World(row: Task, gate: bool, procs: map<nat, Proc>, books: Books)

  // ----- Steps -----

  function Put(w: World, t: nat, p: Proc): World {
    w.(procs := w.procs[t := p])
  }

  function Drop(w: World, t: nat): World {
    w.(procs := w.procs - {t})
  }

  function Cleared(b: Books): Books {
    b.(answered := 0, lost := 0, silent := 0, turns := 0)
  }

  /** What a poll that asks for nothing has found. */
  function Judged(w: World, t: nat, copy: Task, a: Readings): World {
    var v := Poll(copy.resumes, a, true).verdict;
    if v.Undecided? then Drop(w, t) else Put(w, t, Deciding(copy, v.state, v.reason))
  }

  function Asked(w: World, t: nat, copy: Task, a: Readings): World {
    var b := w.books.(turns := w.books.turns + if a.starts then 1 else 0);
    if a.resume.NoAnswer? then Drop(w, t).(books := b.(silent := b.silent + if a.starts then 1 else 0))
    else Put(w, t, Heard(copy, a.resume.Taken?, a.wording)).(books := b.(answered := b.answered + 1))
  }

  function Counted(w: World, t: nat, copy: Task, taken: bool, wording: string, writes: bool): World {
    if writes then
      var spent := w.row.resumes + 1;
      var state := if taken then Working else State.Failed;
      var reason := if taken then NoReason else if spent >= MAX_RESUMES then Exhausted(wording, spent) else AgentError(wording);
      Put(w, t, Deciding(copy.(resumes := spent), state, reason)).(row := w.row.(resumes := spent))
    else
      var b := w.books.(lost := w.books.lost + 1);
      if taken then Put(w, t, Deciding(copy, Working, NoReason)).(books := b) else Drop(w, t).(books := b)
  }

  function AdoptedBy(w: World, t: nat, copy: Task, found: Found, writes: bool): World {
    if copy.conversation != "" then w
    else if TrimSpace(copy.text) == "" || found.NotFound? || !writes then Drop(w, t)
    else if found.NoConversation? then Drop(w, t).(row := w.row.(state := State.Failed, error := LostConversation))
    else if w.row.conversation != "" then Drop(w, t)
    else Put(w, t, Watching(copy.(conversation := found.id))).(row := w.row.(conversation := found.id))
  }

  function Recorded(w: World, t: nat, conversation: Option<string>, writes: bool): World {
    var w' := Drop(w, t).(gate := false);
    if !writes then w'.(books := w.books.(unrecorded := w.books.unrecorded + 1))
    else if conversation.Some? then w'.(row := w.row.(state := Sent, error := NoReason, conversation := conversation.value, resumes := 0), books := Cleared(w.books))
    else w'.(row := w.row.(state := State.Failed, error := NotDelivered))
  }

  /** One step of one call; a step whose call is not there to take it changes nothing. */
  function Move(w: World, act: Act): World {
    match act
    case LoadTask(t) =>
      if t !in w.procs && w.row.text != "" && w.row.state == Pending then Put(w, t, Queued) else w
    case Enter(t) =>
      if t in w.procs && w.procs[t].Queued? && !w.gate then Put(w, t, Inside).(gate := true) else w
    case GiveUp(t, writes) =>
      if t in w.procs && In(w.procs[t], Unposted)
      then Drop(w, t).(gate := w.gate && w.procs[t].Queued?, row := Record(w.row, Is(State.Failed, NotDelivered), writes))
      else w
    case Post(t, reply, id) =>
      if t in w.procs && w.procs[t].Inside?
      then Put(w, t, Posted(if reply.Said? && ValidConversation(id) then Some(id) else None)).(books := w.books.(posts := w.books.posts + 1))
      else w
    case RecordPost(t, writes) =>
      if t in w.procs && w.procs[t].Posted? then Recorded(w, t, w.procs[t].conversation, writes) else w
    case LoadRound(t) =>
      if t !in w.procs && InProgress(w.row.state) then Put(w, t, Watching(w.row)) else w
    case Adopt(t, find, writes) =>
      if t in w.procs && w.procs[t].Watching? then AdoptedBy(w, t, w.procs[t].copy, ReadFound(find), writes) else w
    case Ask(t, a) =>
      if t !in w.procs || !w.procs[t].Watching? then w
      else
        var copy := w.procs[t].copy;
        if !ValidConversation(copy.conversation) then Drop(w, t)
        else if a.progress == Errored && Resumable(a.failure, copy.resumes) then Asked(w, t, copy, a)
        else Judged(w, t, copy, a)
    case Count(t, writes) =>
      if t in w.procs && w.procs[t].Heard? then Counted(w, t, w.procs[t].copy, w.procs[t].taken, w.procs[t].wording, writes) else w
    case RecordRound(t, writes) =>
      if t in w.procs && w.procs[t].Deciding? then
        var p := w.procs[t];
        Drop(w, t).(row := if p.state == p.copy.state && p.reason == p.copy.error then w.row else Record(w.row, Is(p.state, p.reason), writes))
      else w
    case RetryTask =>
      if w.row.text != "" && w.row.state == State.Failed
      then w.(row := Retry(w.row), books := Cleared(w.books).(posts := 0, unrecorded := 0))
      else w
  }

  // ----- Counting calls -----

  /** Deliveries still to post, deliveries still to record, rounds whose answer is still to
      be counted, and rounds that may still charge the budget. */
  datatype Group = Unposted | Unrecorded | Uncharged | Chargeable

  predicate In(p: Proc, g: Group) {
    match g
    case Unposted => p.Queued? || p.Inside?
    case Unrecorded => p.Queued? || p.Inside? || p.Posted?
    case Uncharged => p.Heard?
    case Chargeable => (p.Watching? && p.copy.resumes < MAX_RESUMES) || p.Heard?
  }

  function Those(procs: map<nat, Proc>, g: Group): set<nat> {
    set t | t in procs && In(procs[t], g)
  }

  function Many(procs: map<nat, Proc>, g: Group): nat {
    |Those(procs, g)|
  }

  function One(yes: bool): nat {
    if yes then 1 else 0
  }

  lemma WithOrWithout(s: set<nat>, t: nat)
    ensures |s| == |s - {t}| + One(t in s)
  {
    if t in s {
      assert s == (s - {t}) + {t};
    } else {
      assert s == s - {t};
    }
  }

  lemma DifferAt(s: set<nat>, s': set<nat>, t: nat)
    requires forall u :: u != t ==> (u in s <==> u in s')
    ensures |s'| == |s| - One(t in s) + One(t in s')
  {
    assert s - {t} == s' - {t};
    WithOrWithout(s, t);
    WithOrWithout(s', t);
  }

  function Max(a: nat, b: nat): nat {
    if a < b then b else a
  }

  function Next(w: World, act: Act): World {
    var w' := Move(w, act);
    w'.(books := w'.books.(deliveries := Max(w.books.deliveries, Many(w'.procs, Unrecorded)), rounds := Max(w.books.rounds, Many(w'.procs, Chargeable))))
  }

  function Created(text: string): World {
    World(NewTask(text), false, map[], Books(0, 0, 0, 0, 0, 0, 0, 0))
  }

  function Reached(text: string, acts: seq<Act>): World
    decreases |acts|
  {
    if acts == [] then Created(text) else Next(Reached(text, acts[..|acts| - 1]), acts[|acts| - 1])
  }

  // ----- What overlapping costs -----

  /** Posts: while the task is pending, each was made by a delivery still to record it or
      one whose record was lost; and those to come are by deliveries already under way. */
  ghost predicate PostsBooked(w: World) {
    var b, early, all := w.books, Many(w.procs, Unposted), Many(w.procs, Unrecorded);
    && AllFine(w.procs)
    && early <= all <= b.deliveries
    && (w.row.state == Pending ==> b.posts + early <= all + b.unrecorded)
    && b.posts + early <= b.deliveries + b.unrecorded
  }

  /** Resumes: each request answered was charged, its charge was lost or is under way, and
      what is under way was let in below the limit. */
  ghost predicate ResumesBooked(w: World) {
    var b, heard, charging := w.books, Many(w.procs, Uncharged), Many(w.procs, Chargeable);
    && heard <= charging <= b.rounds
    && b.answered <= w.row.resumes + heard + b.lost
    && b.turns <= b.answered + b.silent
    && w.row.resumes + charging <= MAX_RESUMES - 1 + b.rounds
  }

  predicate Has(procs: map<nat, Proc>, t: nat, g: Group) {
    t in procs && In(procs[t], g)
  }

  /** A step moves its own call only. */
  lemma MoveIsLocal(w: World, act: Act, u: nat)
    requires !act.RetryTask? && u != act.tid
    ensures var w' := Move(w, act); (u in w.procs <==> u in w'.procs) && (u in w.procs ==> w'.procs[u] == w.procs[u])
  {
  }

  lemma MoveCounts(w: World, act: Act, g: Group)
    requires !act.RetryTask?
    ensures var w', t := Move(w, act), act.tid;
            Many(w'.procs, g) == Many(w.procs, g) - One(Has(w.procs, t, g)) + One(Has(w'.procs, t, g))
  {
    var w' := Move(w, act);
    forall u | u != act.tid ensures u in Those(w.procs, g) <==> u in Those(w'.procs, g) {
      MoveIsLocal(w, act, u);
    }
    DifferAt(Those(w.procs, g), Those(w'.procs, g), act.tid);
  }

  lemma JudgedIsFine(copy: Task, a: Readings)
    ensures var v := Poll(copy.resumes, a, true).verdict; v.Is? ==> v.state == Working || v.state == Done || v.state == State.Failed
  {
  }

  /** What a call is about to record: a conversation the agent named, or a verdict. */
  predicate Fine(p: Proc) {
    && (p.Posted? && p.conversation.Some? ==> ValidConversation(p.conversation.value))
    && (p.Deciding? ==> p.state == Working || p.state == Done || p.state == State.Failed)
  }

  ghost predicate AllFine(procs: map<nat, Proc>) {
    forall t :: t in procs ==> Fine(procs[t])
  }

  lemma OwnFine(w: World, act: Act)
    requires AllFine(w.procs) && !act.RetryTask? && act.tid in Move(w, act).procs
    ensures Fine(Move(w, act).procs[act.tid])
  {
    if act.Ask? && act.tid in w.procs && w.procs[act.tid].Watching? {
      JudgedIsFine(w.procs[act.tid].copy, act.a);
    }
  }

  lemma MoveFine(w: World, act: Act)
    requires AllFine(w.procs)
    ensures AllFine(Move(w, act).procs)
  {
    if !act.RetryTask? {
      forall t | t in Move(w, act).procs ensures Fine(Move(w, act).procs[t]) {
        if t == act.tid {
          OwnFine(w, act);
        } else {
          MoveIsLocal(w, act, t);
        }
      }
    }
  }

  lemma OnlyRetriesQueue(w: World, act: Act)
    requires AllFine(w.procs) && Move(w, act).row.state == Pending
    ensures w.row.state == Pending || act.RetryTask?
  {
  }

  predicate OfDelivery(act: Act) {
    act.LoadTask? || act.Enter? || act.GiveUp? || act.Post? || act.RecordPost?
  }

  /** Rounds leave the deliveries and their books alone. */
  lemma RoundLeavesDeliveries(w: World, act: Act)
    requires !OfDelivery(act) && !act.RetryTask?
    ensures var w' := Move(w, act);
            && Many(w'.procs, Unposted) == Many(w.procs, Unposted) && Many(w'.procs, Unrecorded) == Many(w.procs, Unrecorded)
            && w'.books.posts == w.books.posts && w'.books.unrecorded == w.books.unrecorded && w'.books.deliveries == w.books.deliveries
  {
    MoveCounts(w, act, Unposted);
    MoveCounts(w, act, Unrecorded);
  }

  lemma DeliveryKeepsPosts(w: World, act: Act)
    requires PostsBooked(w) && OfDelivery(act)
    ensures var w' := Move(w, act);
            var b, early, all := w'.books, Many(w'.procs, Unposted), Many(w'.procs, Unrecorded);
            && b.deliveries == w.books.deliveries && early <= all
            && (w'.row.state == Pending ==> b.posts + early <= all + b.unrecorded)
            && (act.LoadTask? || b.posts + early <= b.deliveries + b.unrecorded)
            && (act.LoadTask? ==> w.row.state == Pending || w' == w)
  {
    MoveCounts(w, act, Unposted);
    MoveCounts(w, act, Unrecorded);
    SubsetSize(Those(Move(w, act).procs, Unposted), Those(Move(w, act).procs, Unrecorded));
  }

  lemma NextKeepsPosts(w: World, act: Act)
    requires PostsBooked(w)
    ensures PostsBooked(Next(w, act))
  {
    MoveFine(w, act);
    if Move(w, act).row.state == Pending {
      OnlyRetriesQueue(w, act);
    }
    if OfDelivery(act) {
      DeliveryKeepsPosts(w, act);
    } else if !act.RetryTask? {
      RoundLeavesDeliveries(w, act);
    }
  }

  /** The budget and its books as they were, or cleared. */
  ghost predicate Uncosted(w: World, w': World) {
    var b, b' := w.books, w'.books;
    || (w'.row.resumes == w.row.resumes && b'.answered == b.answered && b'.lost == b.lost && b'.silent == b.silent && b'.turns == b.turns)
    || (w'.row.resumes == 0 && b'.answered == 0 && b'.turns == 0)
  }

  /** Deliveries and retries leave the rounds alone. */
  lemma DeliveryLeavesRounds(w: World, act: Act)
    requires OfDelivery(act) || act.RetryTask?
    ensures var w' := Move(w, act);
            && Many(w'.procs, Uncharged) == Many(w.procs, Uncharged) && Many(w'.procs, Chargeable) == Many(w.procs, Chargeable)
            && w'.books.rounds == w.books.rounds && Uncosted(w, w')
  {
    if !act.RetryTask? {
      MoveCounts(w, act, Uncharged);
      MoveCounts(w, act, Chargeable);
    }
  }

  /** What asking and counting do to the budget and its books. */
  ghost predicate Charged(w: World, w': World, heard: int, charging: int) {
    var b, b' := w.books, w'.books;
    && b'.rounds == b.rounds && b'.turns - b'.answered - b'.silent <= b.turns - b.answered - b.silent
    && b'.answered - w'.row.resumes - b'.lost - heard <= b.answered - w.row.resumes - b.lost
    && (w'.row.resumes + charging <= w.row.resumes || (w'.row.resumes == w.row.resumes < MAX_RESUMES && charging == 1))
  }

  lemma RoundIsCharged(w: World, act: Act)
    requires !OfDelivery(act) && !act.RetryTask?
    ensures var w', t := Move(w, act), act.tid;
            Charged(w, w', One(Has(w'.procs, t, Uncharged)) - One(Has(w.procs, t, Uncharged)), One(Has(w'.procs, t, Chargeable)) - One(Has(w.procs, t, Chargeable)))
  {
  }

  lemma NextKeepsResumes(w: World, act: Act)
    requires ResumesBooked(w)
    ensures ResumesBooked(Next(w, act))
  {
    if OfDelivery(act) || act.RetryTask? {
      DeliveryLeavesRounds(w, act);
    } else {
      RoundIsCharged(w, act);
      MoveCounts(w, act, Uncharged);
      MoveCounts(w, act, Chargeable);
      SubsetSize(Those(Move(w, act).procs, Uncharged), Those(Move(w, act).procs, Chargeable));
    }
  }

  lemma {:induction false} EveryRunIsBooked(text: string, acts: seq<Act>)
    ensures PostsBooked(Reached(text, acts)) && ResumesBooked(Reached(text, acts))
    decreases |acts|
  {
    if acts == [] {
      assert forall g :: Those(Created(text).procs, g) == {};
    } else {
      var front := acts[..|acts| - 1];
      EveryRunIsBooked(text, front);
      NextKeepsPosts(Reached(text, front), acts[|acts| - 1]);
      NextKeepsResumes(Reached(text, front), acts[|acts| - 1]);
    }
  }

  /** However calls on a VM overlap, and whatever writes and answers are lost: between
      becoming pending and becoming pending again a task is posted at most once for each
      delivery that was under way at the same time and once for each outcome that was not
      recorded; and the resume count, and the turns since it was cleared, exceed the budget
      by no more than the rounds that were under way beside another, the lost counts and the
      silent turns. */
  lemma OverlapIsBounded(text: string, acts: seq<Act>)
    ensures var w, b := Reached(text, acts), Reached(text, acts).books;
            && b.posts <= b.deliveries + b.unrecorded
            && w.row.resumes <= MAX_RESUMES - 1 + b.rounds
            && b.answered <= MAX_RESUMES - 1 + b.rounds + b.lost
            && b.turns <= MAX_RESUMES - 1 + b.rounds + b.lost + b.silent
  {
    EveryRunIsBooked(text, acts);
  }

  // ----- Calls that do not overlap -----

  /** A round's statements with nothing in between, given what it reads and which of its
      writes succeed. */
  function OneRound(w: World, t: nat, replies: Replies, wr: Writes): World {
    PollAndRecord(Begin(w, t, replies.find, wr), t, Read(replies), wr)
  }

  function Begin(w: World, t: nat, find: Reply, wr: Writes): World {
    Move(Move(w, LoadRound(t)), Adopt(t, find, if ReadFound(find).NoConversation? then wr.state else wr.adopt))
  }

  function PollAndRecord(w: World, t: nat, a: Readings, wr: Writes): World {
    Move(Move(Move(w, Ask(t, a)), Count(t, wr.count)), RecordRound(t, wr.state))
  }

  function OneDelivery(w: World, t: nat, d: Delivery): World {
    var w1 := Move(w, LoadTask(t));
    var w2 := Move(w1, if d.prepared then Enter(t) else GiveUp(t, d.writes));
    var w3 := Move(w2, Post(t, d.post, d.conversation));
    Move(w3, RecordPost(t, d.writes))
  }

  lemma LoadAndAdopt(w: World, t: nat, find: Reply, wr: Writes)
    requires t !in w.procs && InProgress(w.row.state)
    ensures var w', row := Begin(w, t, find, wr), Adopted(w.row, ReadFound(find), wr);
            w'.row == row && (w'.procs == w.procs[t := Watching(row)] || (w'.procs == w.procs && row.conversation == ""))
  {
    var w1 := Move(w, LoadRound(t));
    assert w1.procs == w.procs[t := Watching(w.row)];
    assert w1.procs - {t} == w.procs;
    AdoptAsCalled(w1, t, ReadFound(find), wr);
  }

  lemma AdoptAsCalled(w: World, t: nat, found: Found, wr: Writes)
    requires t in w.procs && w.procs[t] == Watching(w.row) && InProgress(w.row.state)
    ensures var w', row := AdoptedBy(w, t, w.row, found, if found.NoConversation? then wr.state else wr.adopt), Adopted(w.row, found, wr);
            w'.row == row && (w'.procs == w.procs[t := Watching(row)] || (w'.procs == w.procs - {t} && row.conversation == ""))
  {
    assert w.procs == w.procs[t := Watching(w.row)];
  }

  /** The end of a round that asks. */
  lemma AskAndCount(w: World, t: nat, a: Readings, wr: Writes)
    requires t in w.procs && w.procs[t] == Watching(w.row) && ValidConversation(w.row.conversation)
    requires a.progress == Errored && Resumable(a.failure, w.row.resumes)
    ensures var w', r := PollAndRecord(w, t, a, wr), ResolveFailedTurn(w.row.resumes, a, wr.count);
            w'.row == Record(w.row.(resumes := r.resumes), r.verdict, wr.state) && w'.procs == w.procs - {t}
  {
    var w1 := Move(w, Ask(t, a));
    if !a.resume.NoAnswer? {
      assert w1.procs == w.procs[t := Heard(w.row, a.resume.Taken?, a.wording)];
    }
  }

  /** The end of a round that does not. */
  lemma JudgeAndRecord(w: World, t: nat, a: Readings, wr: Writes)
    requires t in w.procs && w.procs[t] == Watching(w.row) && ValidConversation(w.row.conversation)
    requires !(a.progress == Errored && Resumable(a.failure, w.row.resumes))
    ensures var w', r := PollAndRecord(w, t, a, wr), Poll(w.row.resumes, a, wr.count);
            w'.row == Record(w.row.(resumes := r.resumes), r.verdict, wr.state) && w'.procs == w.procs - {t}
  {
    var w1, r := Move(w, Ask(t, a)), Poll(w.row.resumes, a, wr.count);
    assert r == Poll(w.row.resumes, a, true) && r.resumes == w.row.resumes;
    if r.verdict.Is? {
      assert w1.procs == w.procs[t := Deciding(w.row, r.verdict.state, r.verdict.reason)];
    }
  }

  /** The end of a round that is over already. */
  lemma NothingToPoll(w: World, t: nat, a: Readings, wr: Writes)
    requires t in w.procs ==> w.procs[t].Watching? && !ValidConversation(w.procs[t].copy.conversation)
    ensures var w' := PollAndRecord(w, t, a, wr); w'.row == w.row && w'.procs == w.procs - {t}
  {
  }

  lemma RoundTail(w: World, t: nat, a: Readings, wr: Writes)
    requires (t in w.procs ==> w.procs[t] == Watching(w.row)) && (t !in w.procs ==> w.row.conversation == "")
    ensures var w', r := PollAndRecord(w, t, a, wr), Poll(w.row.resumes, a, wr.count);
            && w'.procs == w.procs - {t}
            && w'.row == if ValidConversation(w.row.conversation) then Record(w.row.(resumes := r.resumes), r.verdict, wr.state) else w.row
  {
    if t !in w.procs || !ValidConversation(w.row.conversation) {
      NothingToPoll(w, t, a, wr);
    } else if a.progress == Errored && Resumable(a.failure, w.row.resumes) {
      AskAndCount(w, t, a, wr);
    } else {
      JudgeAndRecord(w, t, a, wr);
    }
  }

  /** Statements of calls that do not overlap make up the calls of a run without overlap. */
  lemma RoundAlone(w: World, t: nat, replies: Replies, wr: Writes)
    requires t !in w.procs
    ensures var w' := OneRound(w, t, replies, wr); w'.row == Refreshed(w.row, Read(replies), wr).task && w'.procs == w.procs
  {
    var w2, a := Begin(w, t, replies.find, wr), Read(replies);
    if InProgress(w.row.state) {
      LoadAndAdopt(w, t, replies.find, wr);
      RoundTail(w2, t, a, wr);
      assert w2.procs - {t} == w.procs;
    } else {
      assert w2.row == w.row && w2.procs == w.procs;
      NothingToPoll(w2, t, a, wr);
    }
  }

  lemma DeliveryAlone(w: World, t: nat, d: Delivery)
    requires t !in w.procs && !w.gate
    ensures var w', r := OneDelivery(w, t, d), Deliver(w.row, d);
            w'.row == r.task && w'.procs == w.procs && !w'.gate && w'.books.posts == w.books.posts + One(r.posted)
  {
  }

  // ----- Done is final for calls that come later -----

  function From(w: World, acts: seq<Act>): World
    decreases |acts|
  {
    if acts == [] then w else From(Next(w, acts[0]), acts[1..])
  }

  /** With no call under way a done row never changes again. */
  lemma {:induction false} DoneStays(w: World, acts: seq<Act>)
    requires w.row.state == Done && w.procs == map[]
    ensures From(w, acts).row == w.row && From(w, acts).procs == map[]
    decreases |acts|
  {
    if acts != [] {
      assert Next(w, acts[0]).row == w.row && Next(w, acts[0]).procs == map[];
      DoneStays(Next(w, acts[0]), acts[1..]);
    }
  }

  // ----- Conversations -----

  /** A run with what it takes to tell a round that is too late: the calls that loaded the
      row before it was last retried, and whether one of them has since recorded the task as
      working or done. */
  datatype Traced = Traced(w: World, stale: set<nat>, late: bool)

  predicate Retries(w: World, act: Act) {
    act.RetryTask? && w.row.text != "" && w.row.state == State.Failed
  }

  predicate RecordsLate(x: Traced, act: Act) {
    act.RecordRound? && act.writes && act.tid in x.stale && act.tid in x.w.procs && x.w.procs[act.tid].Deciding? && x.w.procs[act.tid].state != State.Failed
  }

  function TraceNext(x: Traced, act: Act): Traced {
    if Retries(x.w, act) then Traced(Next(x.w, act), x.w.procs.Keys, false)
    else
      var loads := (act.LoadTask? || act.LoadRound?) && act.tid !in x.w.procs;
      Traced(Next(x.w, act), if loads then x.stale - {act.tid} else x.stale, x.late || RecordsLate(x, act))
  }

  function Trace(text: string, acts: seq<Act>): (x: Traced)
    ensures x.w == Reached(text, acts)
    decreases |acts|
  {
    if acts == [] then Traced(Created(text), {}, false) else TraceNext(Trace(text, acts[..|acts| - 1]), acts[|acts| - 1])
  }

  predicate InRound(p: Proc) {
    p.Watching? || p.Heard? || p.Deciding?
  }

  /** Somebody relies on the conversation: the row's state, or a round that is not too late. */
  ghost predicate Relied(x: Traced) {
    InProgress(x.w.row.state) || x.w.row.state == Done || exists t :: t in x.w.procs && t !in x.stale && InRound(x.w.procs[t])
  }

  ghost predicate ConversationKnown(x: Traced) {
    AllFine(x.w.procs) && (!x.late && Relied(x) ==> ValidConversation(x.w.row.conversation))
  }

  /** A row's conversation is replaced by a valid one or cleared by a retry. */
  lemma ConversationChanges(w: World, act: Act)
    requires AllFine(w.procs) && !Retries(w, act)
    ensures Move(w, act).row.conversation == w.row.conversation || ValidConversation(Move(w, act).row.conversation)
  {
  }

  lemma RowReliedBefore(x: Traced, act: Act)
    requires AllFine(x.w.procs) && !Retries(x.w, act) && !RecordsLate(x, act)
    requires InProgress(Move(x.w, act).row.state) || Move(x.w, act).row.state == Done
    ensures Relied(x) || ValidConversation(Move(x.w, act).row.conversation)
  {
  }

  lemma RoundReliedBefore(x: Traced, act: Act, t: nat)
    requires !Retries(x.w, act) && t in Move(x.w, act).procs && t !in TraceNext(x, act).stale && InRound(Move(x.w, act).procs[t])
    ensures Relied(x)
  {
    if !act.RetryTask? && t != act.tid {
      MoveIsLocal(x.w, act, t);
    }
  }

  lemma TraceKeeps(x: Traced, act: Act)
    requires ConversationKnown(x)
    ensures ConversationKnown(TraceNext(x, act))
  {
    var x' := TraceNext(x, act);
    MoveFine(x.w, act);
    if !Retries(x.w, act) && !x'.late && Relied(x') {
      ConversationChanges(x.w, act);
      if InProgress(x'.w.row.state) || x'.w.row.state == Done {
        RowReliedBefore(x, act);
      } else {
        var t :| t in x'.w.procs && t !in x'.stale && InRound(x'.w.procs[t]);
        RoundReliedBefore(x, act, t);
      }
    }
  }

  /** However calls overlap and whatever writes fail, a task that is sent, working or done
      names a valid conversation, unless since the last retry a round that had loaded the row
      before it recorded the task as working or done. */
  lemma {:induction false} ConversationUnlessLate(text: string, acts: seq<Act>)
    ensures ConversationKnown(Trace(text, acts))
    ensures var x, row := Trace(text, acts), Reached(text, acts).row;
            !x.late && (InProgress(row.state) || row.state == Done) ==> ValidConversation(row.conversation)
    decreases |acts|
  {
    if acts != [] {
      ConversationUnlessLate(text, acts[..|acts| - 1]);
      TraceKeeps(Trace(text, acts[..|acts| - 1]), acts[|acts| - 1]);
    }
  }

  lemma {:induction false} TextStays(text: string, acts: seq<Act>)
    ensures Reached(text, acts).row.text == TrimSpace(text)
    decreases |acts|
  {
    if acts != [] {
      TextStays(text, acts[..|acts| - 1]);
      TextKept(Reached(text, acts[..|acts| - 1]), acts[|acts| - 1]);
    }
  }

  lemma TextKept(w: World, act: Act)
    ensures Move(w, act).row.text == w.row.text
  {
  }
}
