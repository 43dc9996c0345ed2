/** No job is ever stuck, and how long the trace of an ended job is kept. */
module Progress {
  import opened Wrappers
  import opened AgentTypes
  import opened Schema
  import opened Transactions
  import opened Coherence
  import opened Effects
  import opened Histories
  import opened Endings

  /** A job is available from the moment it is queued, and one that waits for an answer has a
      run to record the answer in. */
  predicate Moving(db: Db, now: Time, j: JobId) {
    j in db.jobs ==>
      && db.jobs[j].availableAt <= now
      && (db.jobs[j].status == AwaitingInput ==> j in db.runs)
  }

  lemma SuspendNeedsRun(db: Db, j: JobId, w: WorkerId, input: NewInput, now: Time)
    requires Suspend(db, j, w, input, now).Success? && InputKey(j, input.call) !in db.inputs
    ensures j in db.runs
  {
    var db1 := db.(inputs := db.inputs[InputKey(j, input.call) := AskedInput(db, j, input)],
                   pendingCall := db.pendingCall[j := input.call]);
    assert AppendEvent(db1, j, "input_requested", input.bytes, ORDINARY_LIMIT).Success?;
  }

  lemma OwnMoves(db: Db, now: Time, a: Action, j: JobId)
    requires Moving(db, now, j) && Attempt(db, now, a).Success? && JobOf(a) == Some(j)
    ensures Moving(Attempt(db, now, a).value, now, j)
  {
    match a
    case DoSuspend(_, w, input) =>
      SuspendEffect(db, j, w, input, now);
      if InputKey(j, input.call) !in db.inputs { SuspendNeedsRun(db, j, w, input, now); }
    case DoAnswer(_, id, answer, bytes) => AnswerEffect(db, j, id, answer, bytes, now);
    case DoCancel(_, reason, bytes) => CancelEffect(db, j, reason, bytes, now);
    case DoAppendEvent(_, w, kind, bytes) => AppendOwnEffect(db, j, w, kind, bytes);
    case DoPublish(_, w, artifact) => PublishEffect(db, j, w, artifact, now);
    case DoClaim(_, w) => ClaimEffect(db, j, w, now);
    case DoSetStage(_, w, stage) => SetStageEffect(db, j, w, stage, now);
    case DoReject(_, w) => RejectEffect(db, j, w, now);
    case _ =>
  }

  lemma {:induction false} MovingThroughout(steps: seq<Step>, j: JobId)
    ensures Moving(Play(START, steps, j).db, Play(START, steps, j).now, j)
  {
    if steps != [] {
      var front, last := steps[..|steps| - 1], steps[|steps| - 1];
      MovingThroughout(front, j);
      var v := Play(START, front, j);
      if last.Act? && Attempt(v.db, v.now, last.action).Success? {
        if JobOf(last.action) == Some(j) {
          OwnMoves(v.db, v.now, last.action, j);
        } else {
          Isolation(v.db, v.now, last.action, j);
        }
      }
    }
  }

  /** In every reachable state a job that has not ended can go on: a queued one can be claimed
      at once, a running one as soon as its lease has run out, and one that waits accepts every
      answer of the right kind. */
  lemma NoJobIsStuck(steps: seq<Step>, j: JobId, answer: Answer, bytes: nat, later: Time)
    requires WorkerStages(steps)
    requires var db := Play(START, steps, j).db; j in db.jobs && !Terminal(db.jobs[j].status)
    ensures var v := Play(START, steps, j);
            match v.db.jobs[j].status
            case Queued => Claimable(v.db, j, v.now)
            case Running => later > v.h.touched + LEASE ==> Claimable(v.db, j, later)
            case AwaitingInput =>
              && Asked(v.db, j).Some?
              && (AnswerInput(v.db, j, Asked(v.db, j).value.id, answer, bytes, v.now).Success? <==>
                  ValidAnswer(Asked(v.db, j).value.kind, answer))
            case _ => false
  {
    ReachableOk(steps, j);
    MovingThroughout(steps, j);
    var v := Play(START, steps, j);
    RowOf(v.db, j);
    if v.db.jobs[j].status == AwaitingInput {
      assert AskOk(v.db, j);
      AnswerExactly(v.db, j, Asked(v.db, j).value.id, answer, bytes, v.now);
    }
  }

  /** An answer is accepted exactly when it is for the pending input and of its kind. */
  lemma AnswerExactly(db: Db, j: JobId, id: InputId, answer: Answer, bytes: nat, now: Time)
    requires j in db.runs
    ensures AnswerInput(db, j, id, answer, bytes, now).Success? <==>
              IsPending(db, j, id) && ValidAnswer(db.inputs[InputKey(j, db.pendingCall[j])].kind, answer)
  {
    if IsPending(db, j, id) { CloseEffect(db, j, answer); }
  }

  /** A transaction that ends job j. */
  predicate Ends(a: Action, j: JobId) {
    (a.DoCancel? || a.DoPublish? || a.DoReject?) && JobOf(a) == Some(j)
  }

  lemma EndedRow(db: Db, now: Time, a: Action, j: JobId)
    requires Attempt(db, now, a).Success? && Ends(a, j)
    ensures var d := Attempt(db, now, a).value; j in d.jobs && Terminal(d.jobs[j].status) && d.jobs[j].updatedAt == now
  {
    match a
    case DoCancel(_, reason, bytes) => CancelEffect(db, j, reason, bytes, now);
    case DoPublish(_, w, artifact) => PublishEffect(db, j, w, artifact, now);
    case DoReject(_, w) => RejectEffect(db, j, w, now);
  }

  /** In every later state a compaction archives the live events of an ended job exactly when
      more than seven days have passed since it ended. */
  lemma ArchivedAfterSevenDays(w: World, j: JobId, a: Action, steps: seq<Step>)
    requires WorldOk(w, j) && Ends(a, j) && Attempt(w.db, w.now, a).Success? && WorkerStages(steps)
    ensures var v := Play(Next(w, Act(a), j), steps, j);
            Archivable(v.db, j, v.now) <==>
              EventsOf(v.db.events, j) != [] && v.now > w.now + 7 * 24 * 60 * 60 * SECOND
  {
    EndedRow(w.db, w.now, a, j);
    NextKeeps(w, Act(a), j);
    TerminalForever(Next(w, Act(a), j), steps, j);
  }
}
