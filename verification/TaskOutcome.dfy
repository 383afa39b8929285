/** What a monitoring round and a delivery leave in the row, said of the raw replies of the
    agent and of the writes that succeeded. */
module TaskOutcome {
  import opened Basics
  import opened Text
  import opened TaskLifecycle

  // ----- The agent's replies -----

  /** A conversation is named by 1 to 64 letters, digits, underscores and hyphens. */
  predicate Names(id: string) {
    0 < |id| < 65 && forall i :: 0 <= i < |id| ==>
      ('a' <= id[i] <= 'z') || ('A' <= id[i] <= 'Z') || ('0' <= id[i] <= '9') || id[i] in "_-"
  }

  lemma NamesIff(id: string)
    ensures ValidConversation(id) <==> Names(id)
  {
  }

  /** What the agent's database says about the conversation, spelled out. */
  predicate Reports(r: Reply, s: string) {
    r.Said? && TrimSpace(r.text) == s
  }

  predicate Begins(r: Reply, working: string) {
    r.Said? && Says(TrimSpace(r.text), working)
  }

  /** A failure is unreadable without its separator or with an age that is no number. */
  lemma FailureUnreadIff(r: Reply)
    ensures var s := if r.Said? then TrimSpace(r.text) else "";
            ReadFailure(r).Unreadable? <==> '|' !in s || (CutAt(s, '|').after != "unknown" && ParseInt(CutAt(s, '|').after).NotANumber?)
    ensures var s := if r.Said? then TrimSpace(r.text) else "";
            ReadFailure(r).Failure? ==> (ReadFailure(r).retryable <==> CutAt(s, '|').before == "1")
  {
  }

  /** A failure is taken up again while the agent calls it retryable, three resumes are not
      spent and it is no older than an hour. */
  predicate TakenUp(f: Failure, spent: nat) {
    f.Failure? && f.retryable && spent < 3 && f.age <= 3_600_000_000_000
  }

  predicate Accepts(r: Reply) {
    Reports(r, "200") || Reports(r, "202")
  }

  function Told(r: Reply): string {
    if r.Unreachable? || TrimSpace(r.text) == "" then "the agent ended the task with an error" else TrimSpace(r.text)
  }

  /** Why a task that ended on an error failed, with so many resumes spent. */
  function Why(f: Failure, spent: nat, told: string): Reason {
    if f.Failure? && f.retryable && spent >= 3 then Exhausted(told, spent) else AgentError(told)
  }

  // ----- One round -----

  /** A turn that ended on the error f: what is left of the row, by whether the request to
      resume was answered and accepted and whether its count could be written. */
  ghost predicate ErrorSettled(t: Task, after: Task, f: Failure, answered: bool, accepted: bool, told: string, count: bool) {
    if f.Unreadable? then after == t
    else if !TakenUp(f, t.resumes) then after == t.(state := State.Failed, error := Why(f, t.resumes, told))
    else if !answered then after == t
    else if accepted then after == t.(state := Working, error := NoReason, resumes := t.resumes + if count then 1 else 0)
    else if count then after == t.(state := State.Failed, error := Why(f, t.resumes + 1, told), resumes := t.resumes + 1)
    else after == t
  }

  /** What a poll of a task with a conversation leaves, when its verdict is recorded. */
  ghost predicate Settled(t: Task, after: Task, replies: Replies, count: bool) {
    var p := replies.progress;
    if Reports(p, "0|agent") then after == t.(state := Done, error := NoReason)
    else if Reports(p, "0|error") then
      ErrorSettled(t, after, ReadFailure(replies.failure), replies.resume.Said?, Accepts(replies.resume), Told(replies.wording), count)
    else if Begins(p, "0") then after == t.(state := State.Failed, error := StoppedEarly)
    else if Begins(p, "1") then after == t.(state := Working, error := NoReason)
    else if Begins(p, "-1") then after == t.(state := State.Failed, error := ConversationGone)
    else after == t
  }

  lemma ErrorIsSettled(t: Task, a: Readings, w: Writes)
    requires InProgress(t.state) && ValidConversation(t.conversation) && w.state && a.progress == Errored
    ensures ErrorSettled(t, Refreshed(t, a, w).task, a.failure, !a.resume.NoAnswer?, a.resume.Taken?, a.wording, w.count)
  {
    assert Adopted(t, a.found, w) == t;
  }

  lemma PollIsSettled(t: Task, a: Readings, w: Writes)
    requires InProgress(t.state) && ValidConversation(t.conversation) && w.state && a.progress != Errored
    ensures Refreshed(t, a, w).task ==
              match a.progress
              case Unread => t
              case Gone => t.(state := State.Failed, error := ConversationGone)
              case Busy => t.(state := Working, error := NoReason)
              case Answered => t.(state := Done, error := NoReason)
              case Errored => t
              case CutShort => t.(state := State.Failed, error := StoppedEarly)
  {
    assert Adopted(t, a.found, w) == t;
  }

  lemma ProgressSpelled(p: Reply)
    ensures var g := ReadProgress(p);
            && (g == Answered <==> Reports(p, "0|agent")) && (g == Errored <==> Reports(p, "0|error"))
            && (g == CutShort <==> Begins(p, "0") && !Reports(p, "0|agent") && !Reports(p, "0|error"))
            && (g == Busy <==> Begins(p, "1")) && (g == Gone <==> Begins(p, "-1"))
  {
    Idle();
    if p.Said? {
      SpelledOf(TrimSpace(p.text));
    }
  }

  /** The two replies of an idle agent that settle a turn. */
  lemma Idle()
    ensures "0" + "|" + "agent" == "0|agent"
    ensures "0" + "|" + "error" == "0|error"
  {
  }

  lemma SpelledOf(s: string)
    ensures var g := ProgressOf(s);
            && (g == Answered <==> s == "0|agent") && (g == Errored <==> s == "0|error")
            && (g == CutShort <==> Says(s, "0") && s != "0|agent" && s != "0|error")
            && (g == Busy <==> Says(s, "1")) && (g == Gone <==> Says(s, "-1"))
  {
    Idle();
    ProgressMeans(s);
  }

  lemma ResumeSpelled(r: Reply)
    ensures (ReadResume(r).NoAnswer? <==> r.Unreachable?) && (ReadResume(r).Taken? <==> Accepts(r))
  {
  }

  lemma WordingTold(r: Reply)
    ensures Wording(r) == Told(r)
  {
  }

  /** Every round on a task with a conversation leaves exactly what the reply demands. */
  lemma RoundSettles(t: Task, replies: Replies, w: Writes)
    requires InProgress(t.state) && ValidConversation(t.conversation) && w.state
    ensures Settled(t, Refreshed(t, Read(replies), w).task, replies, w.count)
  {
    var a := Read(replies);
    ProgressSpelled(replies.progress);
    if a.progress == Errored {
      ResumeSpelled(replies.resume);
      WordingTold(replies.wording);
      ErrorIsSettled(t, a, w);
    } else {
      PollIsSettled(t, a, w);
    }
  }

  /** A verdict that is not recorded changes nothing but the count. */
  lemma UnrecordedRound(t: Task, replies: Replies, w: Writes)
    requires InProgress(t.state) && ValidConversation(t.conversation) && !w.state
    ensures var after := Refreshed(t, Read(replies), w).task; after == t.(resumes := after.resumes)
  {
    assert Adopted(t, Read(replies).found, w) == t;
  }

  /** A task that is not in progress, or whose conversation is no valid one, is left alone. */
  lemma OthersAreLeft(t: Task, replies: Replies, w: Writes)
    requires !InProgress(t.state) || (t.conversation != "" && !ValidConversation(t.conversation))
    ensures Refreshed(t, Read(replies), w).task == t
  {
  }

  /** A task without a conversation is traced by its text: a valid name found is recorded and
      the round goes on with it, none found fails the task, and anything else, or a failing
      write, leaves the row. */
  lemma AdoptionSettles(t: Task, replies: Replies, w: Writes)
    requires InProgress(t.state) && t.conversation == ""
    ensures var after, find := Refreshed(t, Read(replies), w).task, replies.find;
            if TrimSpace(t.text) == "" || find.Unreachable? then after == t
            else if TrimSpace(find.text) == "" then after == if w.state then t.(state := State.Failed, error := LostConversation) else t
            else if Names(TrimSpace(find.text)) && w.adopt then
              after == Refreshed(t.(conversation := TrimSpace(find.text)), Read(replies), w).task
            else after == t
  {
    assert !ValidConversation("");
    if replies.find.Said? {
      NamesIff(TrimSpace(replies.find.text));
    }
  }

  // ----- Delivery, retry and creation -----

  /** A pending task with a text is posted exactly when it could be prepared; what is recorded
      says whether the agent named a valid conversation. */
  lemma DeliverySettles(t: Task, d: Delivery)
    ensures var r := Deliver(t, d);
            if t.text == "" || t.state != Pending then r == Delivered(t, false)
            else
              && r.posted == d.prepared
              && r.task == if !d.writes then t
                           else if d.prepared && d.post.Said? && Names(d.conversation)
                           then Task(t.text, Sent, NoReason, d.conversation, 0)
                           else t.(state := State.Failed, error := NotDelivered)
  {
    NamesIff(d.conversation);
  }

  /** A retry makes a failed task pending as if it were new; any other is left alone. */
  lemma RetrySettles(t: Task)
    ensures Retry(t) == if t.state == State.Failed && t.text != "" then Task(t.text, Pending, NoReason, "", 0) else t
    ensures NewTask(t.text) == Task(TrimSpace(t.text), if TrimSpace(t.text) == "" then NoTask else Pending, NoReason, "", 0)
  {
  }
}
