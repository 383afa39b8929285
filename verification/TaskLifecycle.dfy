/** A VM's initial task: delivered once, watched, resumed within a budget. One step
    is one call of the delivery, of the monitor or of the retry on one VM. */
module TaskLifecycle {
  import opened Basics
  import opened Text

  datatype State = NoTask | Pending | Sent | Working | Done | Failed

  /** Why a task failed, as the owner is told: `spent` is set once the budget ran out. */
  datatype Reason =
    | NoReason | LostConversation | ConversationGone | StoppedEarly | NotDelivered
    | AgentError(wording: string) | Exhausted(wording: string, spent: nat)

  /** The task columns of a VM's row. */
  datatype Task = Task(text: string, state: State, error: Reason, conversation: string, resumes: nat)

  const MAX_RESUMES := 3
  const MAX_RESUME_AGE := 3600 * SECOND

  predicate InProgress(s: State) {
    s.Sent? || s.Working?
  }

  predicate ConversationChar(c: char) {
    'A' <= c <= 'Z' || 'a' <= c <= 'z' || '0' <= c <= '9' || c == '_' || c == '-'
  }

  predicate ValidConversation(id: string) {
    1 <= |id| <= 64 && forall i :: 0 <= i < |id| ==> ConversationChar(id[i])
  }

  /** What a command run inside the VM gives back. */
  datatype Reply = Unreachable | Said(text: string)

  // ----- Reading the agent's database -----

  datatype Progress = Unread | Gone | Busy | Answered | Errored | CutShort

  function ReadProgress(r: Reply): Progress {
    if r.Unreachable? then Unread else ProgressOf(TrimSpace(r.text))
  }

  function ProgressOf(s: string): Progress {
    var cut := CutAt(s, '|');
    if !cut.found then Unread
    else if cut.before == "-1" then Gone
    else if cut.before == "1" then Busy
    else if cut.before != "0" then Unread
    else if cut.after == "agent" then Answered
    else if cut.after == "error" then Errored
    else CutShort
  }

  /** The reply starts with this value of agent_working. */
  predicate Says(s: string, working: string) {
    HasPrefix(s, working + "|")
  }

  /** What the agent's database must say for a task to count as finished, failed, gone or
      still running; an idle one that says anything else was cut short. */
  lemma ProgressMeans(s: string)
    ensures ProgressOf(s) == Gone <==> Says(s, "-1")
    ensures ProgressOf(s) == Busy <==> Says(s, "1")
    ensures ProgressOf(s) == Answered <==> s == "0" + "|" + "agent"
    ensures ProgressOf(s) == Errored <==> s == "0" + "|" + "error"
    ensures ProgressOf(s) == CutShort <==> Says(s, "0") && s != "0" + "|" + "agent" && s != "0" + "|" + "error"
  {
    SaysCut(s, "-1");
    SaysCut(s, "1");
    SaysCut(s, "0");
    WholeCut(s, "0", "agent");
    WholeCut(s, "0", "error");
  }

  lemma SaysCut(s: string, word: string)
    requires '|' !in word
    ensures CutAt(s, '|').found && CutAt(s, '|').before == word <==> Says(s, word)
  {
    var cut, n := CutAt(s, '|'), |word|;
    if cut.found && cut.before == word {
      assert s[..n + 1] == word + "|";
    }
    if Says(s, word) {
      assert s == word + ['|'] + s[n + 1..];
      CutAround(word, '|', s[n + 1..]);
    }
  }

  lemma WholeCut(s: string, word: string, last: string)
    requires '|' !in word
    ensures CutAt(s, '|') == Cut(word, last, true) <==> s == word + "|" + last
  {
    assert word + ['|'] + last == word + "|" + last;
    CutAround(word, '|', last);
  }

  /** A count of seconds as a 64-bit duration in nanoseconds. */
  function Duration(seconds: int): int {
    (seconds * SECOND + 0x8000_0000_0000_0000) % 0x1_0000_0000_0000_0000 - 0x8000_0000_0000_0000
  }

  /** The product is exact if and only if the count is within some 292 years. */
  lemma DurationIsExactIff(seconds: int)
    ensures Duration(seconds) == seconds * SECOND <==> -9_223_372_036 <= seconds <= 9_223_372_036
  {
  }

  /** The agent's own verdict on the failure a turn ended on, and its age. */
  datatype Failure = Unreadable | Failure(retryable: bool, age: int)

  function ReadFailure(r: Reply): Failure {
    if r.Unreachable? then Unreadable else FailureOf(TrimSpace(r.text))
  }

  function FailureOf(s: string): Failure {
    var cut := CutAt(s, '|');
    if !cut.found then Unreadable
    else if cut.after == "unknown" then Failure(cut.before == "1", MAX_RESUME_AGE + SECOND)
    else
      match ParseInt(cut.after)
      case NotANumber => Unreadable
      case Number(age) => Failure(cut.before == "1", Duration(age))
  }

  /** A failure is read as it was printed, and one of unknown age is never resumed. */
  lemma FailureReadsBack(flag: string, age: int, spent: nat)
    requires '|' !in flag && -0x8000_0000_0000_0000 <= age < 0x8000_0000_0000_0000
    ensures FailureOf(flag + ['|'] + FormatInt(age)) == Failure(flag == "1", Duration(age))
    ensures !Resumable(FailureOf(flag + ['|'] + "unknown"), spent)
  {
    CutAround(flag, '|', FormatInt(age));
    CutAround(flag, '|', "unknown");
    ParseFormatted(age);
    assert 'u' in "unknown";
  }

  /** An age the multiplication wraps reads as fresh: 18446744074 seconds, some 585 years,
      become less than a third of a second. */
  lemma WrappedAgeIsResumed()
    ensures Resumable(Failure(true, Duration(18_446_744_074)), 0)
  {
  }

  predicate Resumable(f: Failure, spent: nat) {
    f.Failure? && f.retryable && spent < MAX_RESUMES && f.age <= MAX_RESUME_AGE
  }

  datatype Resume = NoAnswer | Declined | Taken

  function ReadResume(r: Reply): Resume {
    if r.Unreachable? then NoAnswer
    else if TrimSpace(r.text) == "200" || TrimSpace(r.text) == "202" then Taken
    else Declined
  }

  datatype Found = NotFound | NoConversation | Conversation(id: string)

  /** The conversation that opens with the task's text, when the agent names a valid one. */
  function ReadFound(r: Reply): (f: Found)
    ensures f.Conversation? ==> ValidConversation(f.id)
  {
    if r.Unreachable? then NotFound
    else if TrimSpace(r.text) == "" then NoConversation
    else if ValidConversation(TrimSpace(r.text)) then Conversation(TrimSpace(r.text))
    else NotFound
  }

  function Wording(r: Reply): string {
    if r.Unreachable? || TrimSpace(r.text) == "" then "the agent ended the task with an error" else TrimSpace(r.text)
  }

  /** Everything the agent may answer during one round, raw and as it is read, and what the
      gateway cannot see: whether a resume request, answered or not, starts a turn. */
  datatype Replies = Replies(find: Reply, progress: Reply, failure: Reply, resume: Reply, wording: Reply, starts: bool)
  datatype Readings = Readings(found: Found, progress: Progress, failure: Failure, resume: Resume, wording: string, starts: bool)

  function Read(a: Replies): Readings {
    Readings(ReadFound(a.find), ReadProgress(a.progress), ReadFailure(a.failure), ReadResume(a.resume), Wording(a.wording), a.starts)
  }

  // ----- One round of the monitor -----

  /** Which writes of a round succeed. */
  datatype Writes = Writes(adopt: bool, count: bool, state: bool)

  /** What a round decided about the task, and what it did to the agent: whether a
      resume request was sent and whether it was answered. */
  datatype Verdict = Undecided | Is(state: State, reason: Reason)
  datatype Round = Round(verdict: Verdict, resumes: nat, asked: bool, answered: bool)

  function FailedReason(f: Failure, resumes: nat, wording: string): Reason
    requires f.Failure?
  {
    if f.retryable && resumes >= MAX_RESUMES then Exhausted(wording, resumes) else AgentError(wording)
  }

  function ResolveFailedTurn(resumes: nat, a: Readings, countWrites: bool): Round {
    if a.failure.Unreadable? then Round(Undecided, resumes, false, false)
    else if !Resumable(a.failure, resumes) then Round(Is(State.Failed, FailedReason(a.failure, resumes, a.wording)), resumes, false, false)
    else if a.resume.NoAnswer? then Round(Undecided, resumes, true, false)
    else if a.resume.Taken? then Round(Is(Working, NoReason), if countWrites then resumes + 1 else resumes, true, true)
    else if countWrites then Round(Is(State.Failed, FailedReason(a.failure, resumes + 1, a.wording)), resumes + 1, true, true)
    else Round(Undecided, resumes, true, true)
  }

  function Poll(resumes: nat, a: Readings, countWrites: bool): Round {
    match a.progress
    case Unread => Round(Undecided, resumes, false, false)
    case Gone => Round(Is(State.Failed, ConversationGone), resumes, false, false)
    case Busy => Round(Is(Working, NoReason), resumes, false, false)
    case Answered => Round(Is(Done, NoReason), resumes, false, false)
    case CutShort => Round(Is(State.Failed, StoppedEarly), resumes, false, false)
    case Errored => ResolveFailedTurn(resumes, a, countWrites)
  }

  function Record(t: Task, v: Verdict, writes: bool): Task {
    if v.Is? && writes then t.(state := v.state, error := v.reason) else t
  }

  /** The row after adopting the conversation of a task delivered by an older gateway. */
  function Adopted(t: Task, found: Found, w: Writes): Task {
    if t.conversation != "" || TrimSpace(t.text) == "" then t
    else
      match found
      case NotFound => t
      case NoConversation => if w.state then t.(state := State.Failed, error := LostConversation) else t
      case Conversation(id) => if w.adopt then t.(conversation := id) else t
  }

  /** One whole round: the new row, and what happened to the agent. */
  datatype Outcome = Outcome(task: Task, asked: bool, answered: bool)

  function Refreshed(t: Task, a: Readings, w: Writes): Outcome {
    if !InProgress(t.state) then Outcome(t, false, false)
    else
      var t1 := Adopted(t, a.found, w);
      if !ValidConversation(t1.conversation) then Outcome(t1, false, false)
      else
        var round := Poll(t1.resumes, a, w.count);
        Outcome(Record(t1.(resumes := round.resumes), round.verdict, w.state), round.asked, round.answered)
  }

  // ----- Delivery, retry, creation -----

  /** How far a delivery gets: waiting for the VM, choosing a model and staging the
      body, then the agent's answer and whether the result is recorded. */
  datatype Delivery = Delivery(prepared: bool, post: Reply, conversation: string, writes: bool)

  datatype Delivered = Delivered(task: Task, posted: bool)

  function Deliver(t: Task, d: Delivery): Delivered {
    if t.text == "" || t.state != Pending then Delivered(t, false)
    else
      var posted := d.prepared;
      if posted && d.post.Said? && ValidConversation(d.conversation)
      then Delivered(if d.writes then t.(state := Sent, error := NoReason, conversation := d.conversation, resumes := 0) else t, posted)
      else Delivered(if d.writes then t.(state := State.Failed, error := NotDelivered) else t, posted)
  }

  function Retry(t: Task): Task {
    if t.text != "" && t.state == State.Failed then t.(state := Pending, error := NoReason, conversation := "", resumes := 0) else t
  }

  function NewTask(text: string): Task {
    var body := TrimSpace(text);
    Task(body, if body != "" then Pending else NoTask, NoReason, "", 0)
  }

  // ----- The same steps as the code takes them -----

  class TaskRow {
    var task: Task

    constructor (text: string)
      ensures task == NewTask(text)
    {
      task := Task(TrimSpace(text), if TrimSpace(text) != "" then Pending else NoTask, NoReason, "", 0);
    }

    method SetInitialTaskState(state: State, reason: Reason)
      modifies this
      ensures task == old(task).(state := state, error := reason)
    {
      task := task.(state := state, error := reason);
    }

    method SetInitialTaskDelivered(conversation: string)
      modifies this
      ensures task == old(task).(state := Sent, error := NoReason, conversation := conversation, resumes := 0)
    {
      task := task.(state := Sent, error := NoReason, conversation := conversation, resumes := 0);
    }

    method SetInitialTaskConversation(conversation: string) returns (changed: bool)
      modifies this
      ensures changed <==> old(task).conversation == ""
      ensures task == if changed then old(task).(conversation := conversation) else old(task)
    {
      changed := task.conversation == "";
      if changed {
        task := task.(conversation := conversation);
      }
    }

    method CountInitialTaskResume() returns (spent: nat)
      modifies this
      ensures spent == old(task).resumes + 1 && task == old(task).(resumes := spent)
    {
      task := task.(resumes := task.resumes + 1);
      spent := task.resumes;
    }

    method RetryInitialTask() returns (ok: bool)
      modifies this
      ensures task == Retry(old(task))
      ensures ok <==> old(task).text != "" && old(task).state == State.Failed
    {
      ok := task.text != "" && task.state == State.Failed;
      if ok {
        task := task.(state := Pending, error := NoReason, conversation := "", resumes := 0);
      }
    }

    method ResumeAfterFailure(a: Readings, countWrites: bool) returns (v: Verdict, asked: bool, answered: bool)
      modifies this
      ensures var r := ResolveFailedTurn(old(task).resumes, a, countWrites);
              v == r.verdict && asked == r.asked && answered == r.answered && task == old(task).(resumes := r.resumes)
    {
      asked, answered := false, false;
      var f := a.failure;
      if f.Unreadable? {
        return Undecided, false, false;
      }
      if f.retryable && task.resumes < MAX_RESUMES && f.age <= MAX_RESUME_AGE {
        if a.resume.NoAnswer? {
          return Undecided, true, false;
        }
        asked, answered := true, true;
        var resumed := a.resume.Taken?;
        if !countWrites {
          return if resumed then Is(Working, NoReason) else Undecided, true, true;
        }
        var spent := CountInitialTaskResume();
        if resumed {
          return Is(Working, NoReason), true, true;
        }
      }
      if f.retryable && task.resumes >= MAX_RESUMES {
        v := Is(State.Failed, Exhausted(a.wording, task.resumes));
      } else {
        v := Is(State.Failed, AgentError(a.wording));
      }
    }

    method RefreshTaskState(replies: Replies, w: Writes) returns (asked: bool, answered: bool)
      modifies this
      ensures Outcome(task, asked, answered) == Refreshed(old(task), Read(replies), w)
    {
      asked, answered := false, false;
      var a := Read(replies);
      if !InProgress(task.state) {
        return;
      }
      if task.conversation == "" {
        if TrimSpace(task.text) == "" || a.found.NotFound? {
          return;
        }
        if a.found.NoConversation? {
          if w.state {
            SetInitialTaskState(State.Failed, LostConversation);
          }
          return;
        }
        if !w.adopt {
          return;
        }
        var changed := SetInitialTaskConversation(a.found.id);
      }
      if !ValidConversation(task.conversation) {
        return;
      }
      var v: Verdict;
      match a.progress {
        case Unread => v := Undecided;
        case Gone => v := Is(State.Failed, ConversationGone);
        case Busy => v := Is(Working, NoReason);
        case Answered => v := Is(Done, NoReason);
        case CutShort => v := Is(State.Failed, StoppedEarly);
        case Errored => v, asked, answered := ResumeAfterFailure(a, w.count);
      }
      if v.Undecided? || (v.state == task.state && v.reason == task.error) {
        return;
      }
      if w.state {
        SetInitialTaskState(v.state, v.reason);
      }
    }

    method DeliverInitialTask(d: Delivery) returns (posted: bool)
      modifies this
      ensures Delivered(task, posted) == Deliver(old(task), d)
    {
      posted := false;
      if task.text == "" || task.state != Pending {
        return;
      }
      if !d.prepared {
        if d.writes { SetInitialTaskState(State.Failed, NotDelivered); }
        return;
      }
      posted := true;
      if d.post.Unreachable? || !ValidConversation(d.conversation) {
        if d.writes { SetInitialTaskState(State.Failed, NotDelivered); }
        return;
      }
      if d.writes { SetInitialTaskDelivered(d.conversation); }
    }
  }

  // ----- Whole runs -----

  datatype Event = Delivering(d: Delivery) | Monitoring(a: Readings, w: Writes) | Retrying

  /** The row, the posts since the task last became pending, and since the last post the
      resume requests the agent answered and the turns the gateway's requests started. */
  datatype Machine = Machine(task: Task, posts: nat, answered: nat, turns: nat)

  function Start(text: string): Machine {
    Machine(NewTask(text), 0, 0, 0)
  }

  function Step(m: Machine, e: Event): Machine {
    match e
    case Delivering(d) =>
      var r := Deliver(m.task, d);
      if r.posted then Machine(r.task, m.posts + 1, 0, 1) else m.(task := r.task)
    case Monitoring(a, w) =>
      var r := Refreshed(m.task, a, w);
      Machine(r.task, m.posts, m.answered + (if r.answered then 1 else 0), m.turns + (if r.asked && a.starts then 1 else 0))
    case Retrying =>
      var t := Retry(m.task);
      if t.state == Pending && m.task.state != Pending then Machine(t, 0, 0, m.turns) else m
  }

  function After(text: string, events: seq<Event>): Machine
    decreases |events|
  {
    if events == [] then Start(text) else Step(After(text, events[..|events| - 1]), events[|events| - 1])
  }

  // ----- What holds whatever writes fail -----

  /** A row as any run leaves it: inert without text, unspent while pending, and naming a
      valid conversation once the agent has the task. */
  ghost predicate Sane(m: Machine) {
    var t := m.task;
    && (t.text == "" <==> t.state == NoTask)
    && (t.state == NoTask ==> m == Machine(t, 0, 0, 0) && t == NewTask(""))
    && (t.state == Pending ==> t.resumes == 0)
    && (t.state == Sent || t.state == Working || t.state == Done ==> ValidConversation(t.conversation))
    && t.resumes <= MAX_RESUMES
  }

  lemma RoundIsSane(m: Machine, a: Readings, w: Writes)
    requires Sane(m) && InProgress(m.task.state)
    ensures Sane(Step(m, Monitoring(a, w)))
  {
    assert Adopted(m.task, a.found, w) == m.task;
    var round := Poll(m.task.resumes, a, w.count);
    assert round.resumes <= MAX_RESUMES && m.task.resumes <= round.resumes;
    assert round.verdict.Is? ==> !round.verdict.state.Pending? && !round.verdict.state.NoTask?;
  }

  lemma StepIsSane(m: Machine, e: Event)
    requires Sane(m)
    ensures Sane(Step(m, e))
  {
    if e.Monitoring? && InProgress(m.task.state) {
      RoundIsSane(m, e.a, e.w);
    }
  }

  /** In every run, with any writes failing: a task without text stays inert, and sent,
      working and done always carry a valid conversation. */
  lemma {:induction false} EveryRunIsSane(text: string, events: seq<Event>)
    ensures Sane(After(text, events)) && After(text, events).task.text == TrimSpace(text)
    decreases |events|
  {
    if events != [] {
      var front := events[..|events| - 1];
      EveryRunIsSane(text, front);
      StepIsSane(After(text, front), events[|events| - 1]);
      StatesAreLeftAsPromised(After(text, front), events[|events| - 1]);
    }
  }

  // ----- The resume budget -----

  /** The agent is asked to resume: the row names its conversation, or does once it is
      adopted, and the turn ended on a failure the budget still covers. */
  predicate Asks(t: Task, a: Readings, w: Writes) {
    && InProgress(t.state)
    && (ValidConversation(t.conversation) || (t.conversation == "" && TrimSpace(t.text) != "" && a.found.Conversation? && ValidConversation(a.found.id) && w.adopt))
    && a.progress == Errored && Resumable(a.failure, t.resumes)
  }

  /** A round asks exactly on a failure the budget covers, and charges exactly when the
      agent answers and the counter write succeeds; so what it answered is charged if and
      only if the write succeeds or there was no answer to charge. */
  lemma ChargedIffCounted(t: Task, a: Readings, w: Writes)
    ensures var r, answers := Refreshed(t, a, w), Asks(t, a, w) && !a.resume.NoAnswer?;
            && (r.asked <==> Asks(t, a, w)) && (r.answered <==> answers)
            && r.task.resumes == t.resumes + (if answers && w.count then 1 else 0)
            && (r.task.resumes - t.resumes == (if r.answered then 1 else 0) <==> w.count || !answers)
  {
    var t1 := Adopted(t, a.found, w);
    assert t1.resumes == t.resumes;
    assert !ValidConversation("");
  }

  /** The agent answered and the counter write failed. */
  predicate LosesCount(t: Task, e: Event) {
    e.Monitoring? && Asks(t, e.a, e.w) && !e.a.resume.NoAnswer? && !e.w.count
  }

  /** The request started a turn and its answer never came back. */
  predicate IsSilent(t: Task, e: Event) {
    e.Monitoring? && Asks(t, e.a, e.w) && e.a.resume.NoAnswer? && e.a.starts
  }

  predicate Posts(t: Task, e: Event) {
    e.Delivering? && Deliver(t, e.d).posted
  }

  /** The rounds since the last post that lost a count, and those that were silent. */
  function Lost(text: string, events: seq<Event>): nat
    decreases |events|
  {
    if events == [] then 0
    else
      var front, e := events[..|events| - 1], events[|events| - 1];
      if Posts(After(text, front).task, e) then 0 else Lost(text, front) + if LosesCount(After(text, front).task, e) then 1 else 0
  }

  function Silent(text: string, events: seq<Event>): nat
    decreases |events|
  {
    if events == [] then 0
    else
      var front, e := events[..|events| - 1], events[|events| - 1];
      if Posts(After(text, front).task, e) then 0 else Silent(text, front) + if IsSilent(After(text, front).task, e) then 1 else 0
  }

  /** The books: every answered request was charged or its charge was lost, and every
      turn but the first was an answered request or a silent one. */
  ghost predicate Booked(m: Machine, lost: nat, silent: nat) {
    && m.task.resumes <= m.answered <= m.task.resumes + lost
    && m.turns <= 1 + MAX_RESUMES + lost + silent
    && (InProgress(m.task.state) || m.task.state == Done ==> m.turns <= 1 + m.answered + silent)
  }

  lemma RoundIsBooked(m: Machine, e: Event, lost: nat, silent: nat)
    requires Sane(m) && Booked(m, lost, silent) && e.Monitoring?
    ensures Booked(Step(m, e), lost + (if LosesCount(m.task, e) then 1 else 0), silent + if IsSilent(m.task, e) then 1 else 0)
  {
    ChargedIffCounted(m.task, e.a, e.w);
    StatesAreLeftAsPromised(m, e);
    assert Asks(m.task, e.a, e.w) ==> InProgress(m.task.state) && m.task.resumes < MAX_RESUMES;
  }

  /** One delivery causes at most four turns, one more for each round since that lost its
      count and one more for each whose request started a turn and was not answered; what
      the agent answered is recorded but for the lost counts. */
  lemma {:induction false} TurnsAreBounded(text: string, events: seq<Event>)
    ensures Booked(After(text, events), Lost(text, events), Silent(text, events))
    decreases |events|
  {
    if events != [] {
      var front, e := events[..|events| - 1], events[|events| - 1];
      TurnsAreBounded(text, front);
      EveryRunIsSane(text, front);
      if e.Monitoring? {
        RoundIsBooked(After(text, front), e, Lost(text, front), Silent(text, front));
      }
    }
  }

  ghost predicate AllCounted(events: seq<Event>) {
    forall i :: 0 <= i < |events| && events[i].Monitoring? ==> events[i].w.count
  }

  /** No request starts a turn without the gateway hearing of it. */
  ghost predicate AllHeard(events: seq<Event>) {
    forall i :: 0 <= i < |events| && events[i].Monitoring? && events[i].a.resume.NoAnswer? ==> !events[i].a.starts
  }

  lemma {:induction false} NothingLost(text: string, events: seq<Event>)
    ensures AllCounted(events) ==> Lost(text, events) == 0
    ensures AllHeard(events) ==> Silent(text, events) == 0
    decreases |events|
  {
    if events != [] {
      NothingLost(text, events[..|events| - 1]);
    }
  }

  /** As long as counter writes succeed, against any agent: the recorded resumes are
      exactly the resume requests it answered since the last delivery and never exceed
      three. One delivery then causes at most four turns and the silent ones, so four as
      long as every request that starts a turn is answered. */
  lemma BudgetIsKept(text: string, events: seq<Event>)
    requires AllCounted(events)
    ensures var m := After(text, events);
            && m.answered == m.task.resumes <= MAX_RESUMES
            && m.turns <= 1 + MAX_RESUMES + Silent(text, events)
            && (AllHeard(events) ==> m.turns <= 1 + MAX_RESUMES)
  {
    TurnsAreBounded(text, events);
    EveryRunIsSane(text, events);
    NothingLost(text, events);
  }

  // ----- Posting once -----

  ghost predicate AllRecorded(events: seq<Event>) {
    forall i :: 0 <= i < |events| && events[i].Delivering? ==> events[i].d.writes
  }

  /** As long as the outcome of each delivery is recorded, a task is posted at most once
      between becoming pending and becoming pending again. */
  lemma {:induction false} PostedOnce(text: string, events: seq<Event>)
    requires AllRecorded(events)
    ensures var m := After(text, events); m.posts <= 1 && (m.task.state == Pending ==> m.posts == 0)
    decreases |events|
  {
    if events != [] {
      var front := events[..|events| - 1];
      PostedOnce(text, front);
      StatesAreLeftAsPromised(After(text, front), events[|events| - 1]);
    }
  }

  /** Whether or not writes succeed: the text never changes, a task without text stays
      inert, done is absorbing and failed is left only by a retry. */
  lemma StatesAreLeftAsPromised(m: Machine, e: Event)
    ensures var t := Step(m, e).task;
            && t.text == m.task.text
            && (m.task.state == NoTask ==> t == m.task)
            && (m.task.state == Done ==> t == m.task)
            && (m.task.state == State.Failed && t.state != State.Failed ==> e.Retrying? && t.state == Pending)
            && (t.state == Pending && m.task.state != Pending ==> e.Retrying? && m.task.state == State.Failed)
  {
  }

  lemma {:induction false} DoneIsAbsorbing(text: string, events: seq<Event>, n: nat)
    requires n <= |events| && After(text, events[..n]).task.state == Done
    ensures After(text, events).task == After(text, events[..n]).task
    decreases |events|
  {
    if n < |events| {
      var front := events[..|events| - 1];
      assert front[..n] == events[..n];
      DoneIsAbsorbing(text, front, n);
      StatesAreLeftAsPromised(After(text, front), events[|events| - 1]);
    } else {
      assert events[..n] == events;
    }
  }

  /** An agent that answers nothing costs nothing and changes nothing. */
  lemma UnreachableChangesNothing(m: Machine, w: Writes, starts: bool)
    ensures Step(m, Monitoring(Read(Replies(Unreachable, Unreachable, Unreachable, Unreachable, Unreachable, starts)), w)) == m
  {
    var a := Read(Replies(Unreachable, Unreachable, Unreachable, Unreachable, Unreachable, starts));
    assert a.found == NotFound && a.progress == Unread;
    assert Adopted(m.task, a.found, w) == m.task;
  }

  /** A resume request without an answer is not charged and decides nothing, whether or not
      it started a turn: the gateway sees no difference and asks again after the next failure. */
  lemma UnansweredResumeIsFree(m: Machine, a: Readings, w: Writes)
    requires Asks(m.task, a, w) && ValidConversation(m.task.conversation) && a.resume == NoAnswer
    ensures Step(m, Monitoring(a, w)) == m.(turns := m.turns + if a.starts then 1 else 0)
  {
    assert Adopted(m.task, a.found, w) == m.task;
  }

  /** A round in which the agent answers, the turn has ended on an error and both the
      charge and the verdict are recorded. */
  predicate FailsAgain(e: Event) {
    && e.Monitoring? && e.w.count && e.w.state
    && e.a.progress == Errored && e.a.failure.Failure? && !e.a.resume.NoAnswer?
  }

  function From(m: Machine, events: seq<Event>): Machine
    decreases |events|
  {
    if events == [] then m else From(Step(m, events[0]), events[1..])
  }

  function Failures(events: seq<Event>): nat {
    if events == [] then 0 else (if FailsAgain(events[0]) then 1 else 0) + Failures(events[1..])
  }

  ghost predicate NoRetry(events: seq<Event>) {
    forall i :: 0 <= i < |events| ==> !events[i].Retrying?
  }

  ghost predicate NeverAnswered(events: seq<Event>) {
    forall i :: 0 <= i < |events| && events[i].Monitoring? ==> events[i].a.progress != Answered
  }

  lemma {:induction false} EndedStays(m: Machine, events: seq<Event>)
    requires (m.task.state == State.Failed || m.task.state == Done) && NoRetry(events)
    ensures From(m, events).task.state == m.task.state
    decreases |events|
  {
    if events != [] {
      StatesAreLeftAsPromised(m, events[0]);
      EndedStays(Step(m, events[0]), events[1..]);
    }
  }

  lemma RoundMovesOn(m: Machine, e: Event)
    requires InProgress(m.task.state) && ValidConversation(m.task.conversation) && m.task.resumes <= MAX_RESUMES && !e.Retrying?
    ensures var t := Step(m, e).task;
            || t.state == State.Failed
            || (t.state == Done && e.Monitoring? && e.a.progress == Answered)
            || (InProgress(t.state) && t.conversation == m.task.conversation
                && m.task.resumes + (if FailsAgain(e) then 1 else 0) <= t.resumes <= MAX_RESUMES)
  {
    if e.Monitoring? {
      assert Adopted(m.task, e.a.found, e.w) == m.task;
    }
  }

  /** A failure that keeps coming back ends the task: whatever happens between them, more
      failed rounds than the budget has left leave it failed, unless the agent did answer. */
  lemma {:induction false} RepeatingFailureEnds(m: Machine, events: seq<Event>)
    requires InProgress(m.task.state) && ValidConversation(m.task.conversation) && m.task.resumes <= MAX_RESUMES
    requires NoRetry(events) && Failures(events) > MAX_RESUMES - m.task.resumes
    ensures From(m, events).task.state == State.Failed || From(m, events).task.state == Done
    ensures NeverAnswered(events) ==> From(m, events).task.state == State.Failed
    decreases |events|
  {
    var m' := Step(m, events[0]);
    RoundMovesOn(m, events[0]);
    if InProgress(m'.task.state) {
      RepeatingFailureEnds(m', events[1..]);
    } else {
      EndedStays(m', events[1..]);
    }
  }

  // ----- The bound on turns is reached -----

  /** A round after which the agent runs the failed turn again: its answer is counted, its
      answer is not counted, or its answer never comes. */
  datatype Resumed = Counted | Uncounted | Unheard

  function Resuming(how: Resumed): Event {
    Monitoring(Readings(NotFound, Errored, Failure(true, 0), if how.Unheard? then NoAnswer else Taken, "", true), Writes(true, how.Counted?, true))
  }

  /** A delivery, then silent rounds, then rounds whose count is lost, then the budget. */
  function Costly(silent: nat, lost: nat, counted: nat): (run: seq<Event>)
    ensures run != []
    decreases silent + lost + counted
  {
    if counted > 0 then Costly(silent, lost, counted - 1) + [Resuming(Counted)]
    else if lost > 0 then Costly(silent, lost - 1, 0) + [Resuming(Uncounted)]
    else if silent > 0 then Costly(silent - 1, 0, 0) + [Resuming(Unheard)]
    else [Delivering(Delivery(true, Said(""), "c", true))]
  }

  lemma ResumingRuns(m: Machine, how: Resumed)
    requires InProgress(m.task.state) && ValidConversation(m.task.conversation) && m.task.resumes < MAX_RESUMES
    ensures var m', e := Step(m, Resuming(how)), Resuming(how);
            && m'.turns == m.turns + 1 && InProgress(m'.task.state) && m'.task.conversation == m.task.conversation
            && m'.task.resumes == m.task.resumes + (if how.Counted? then 1 else 0)
            && (LosesCount(m.task, e) <==> how.Uncounted?) && (IsSilent(m.task, e) <==> how.Unheard?)
  {
    assert Adopted(m.task, Resuming(how).a.found, Resuming(how).w) == m.task;
  }

  /** The run has started this many turns and lost this many counts and answers. */
  ghost predicate Costs(run: seq<Event>, silent: nat, lost: nat, counted: nat) {
    var m := After("t", run);
    && m.turns == 1 + silent + lost + counted && Lost("t", run) == lost && Silent("t", run) == silent
    && InProgress(m.task.state) && ValidConversation(m.task.conversation) && m.task.resumes == counted
  }

  lemma OneMoreTurn(run: seq<Event>, how: Resumed, silent: nat, lost: nat, counted: nat)
    requires Costs(run, silent, lost, counted) && counted < MAX_RESUMES
    ensures Costs(run + [Resuming(how)], silent + (if how.Unheard? then 1 else 0), lost + (if how.Uncounted? then 1 else 0), counted + if how.Counted? then 1 else 0)
  {
    var longer := run + [Resuming(how)];
    assert longer[..|longer| - 1] == run;
    ResumingRuns(After("t", run), how);
  }

  /** The bound on turns is reached for any number of lost counts and of lost answers, so
      either alone lets one delivery cause any number of turns. */
  lemma {:induction false} BoundIsReached(silent: nat, lost: nat, counted: nat)
    requires counted <= MAX_RESUMES
    ensures Costs(Costly(silent, lost, counted), silent, lost, counted)
    decreases silent + lost + counted
  {
    if silent + lost + counted == 0 {
      FirstDelivery();
    } else {
      var how := if counted > 0 then Counted else if lost > 0 then Uncounted else Unheard;
      var s, l, c := if how.Unheard? then silent - 1 else silent, if how.Uncounted? then lost - 1 else lost, if how.Counted? then counted - 1 else counted;
      var run := Costly(s, l, c);
      assert Costly(silent, lost, counted) == run + [Resuming(how)];
      BoundIsReached(s, l, c);
      OneMoreTurn(run, how, s, l, c);
    }
  }

  lemma FirstDelivery()
    ensures Costs(Costly(0, 0, 0), 0, 0, 0)
  {
    var d := Delivery(true, Said(""), "c", true);
    assert TrimSpace("t") == "t" && Start("t") == Machine(Task("t", Pending, NoReason, "", 0), 0, 0, 0);
    assert ValidConversation("c");
    assert [Delivering(d)][..0] == [];
    assert Step(Start("t"), Delivering(d)) == Machine(Task("t", Sent, NoReason, "c", 0), 1, 0, 1);
  }

  /** A posted task leaves pending exactly when the outcome is recorded, so a lost
      write is what lets the same task be posted again. */
  lemma PostedOnceIffRecorded(t: Task, d: Delivery)
    requires Deliver(t, d).posted
    ensures Deliver(t, d).task.state != Pending <==> d.writes
    ensures !d.writes ==> forall d' :: Deliver(Deliver(t, d).task, d').posted == d'.prepared
  {
  }
}
