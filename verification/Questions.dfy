/** Questions to the user: the round trip of suspension, answer and claim, and what the
    replayed tool call then reads. */
module Questions {
  import opened Wrappers
  import opened AgentTypes
  import opened Schema
  import opened Transactions
  import opened Coherence
  import opened Effects
  import opened Histories
  import opened Endings
  import opened Ownership

  // ---------------------------------------------------------------- the round trip

  lemma FrozenStays(w: World, s: Step, j: JobId)
    requires NeverSuspends([s], j)
    ensures Next(w, s, j).h.frozen == w.h.frozen
  {
    assert [s][0] == s;
  }

  lemma {:induction false} FrozenThroughout(w: World, steps: seq<Step>, j: JobId)
    requires NeverSuspends(steps, j)
    ensures Play(w, steps, j).h.frozen == w.h.frozen
  {
    if steps != [] {
      var front, last := steps[..|steps| - 1], steps[|steps| - 1];
      assert forall i | 0 <= i < |front| :: front[i] == steps[i];
      FrozenThroughout(w, front, j);
      FrozenStays(Play(w, front, j), last, j);
    }
  }

  /** A suspension that stores a question, then anything but another suspension of the job, then
      a claim of the answered job by any worker: the job is running again with the stage, the
      attempts and the checkpoint it was suspended with. */
  lemma SuspendAnswerClaim(w: World, j: JobId, u: WorkerId, input: NewInput, steps: seq<Step>, claimer: WorkerId)
    requires WorldOk(w, j) && Attempt(w.db, w.now, DoSuspend(j, u, input)).Success? && InputKey(j, input.call) !in w.db.inputs
    requires WorkerStages(steps) && NeverSuspends(steps, j)
    requires var v := Play(Next(w, Act(DoSuspend(j, u, input)), j), steps, j);
             Claim(v.db, j, claimer, LEASE, v.now).Success? && Resumes(v.db.jobs[j])
    ensures var v := Play(Next(w, Act(DoSuspend(j, u, input)), j), steps, j);
            var d := Claim(v.db, j, claimer, LEASE, v.now).value;
            && j in w.db.jobs && j in d.jobs && Owns(d, j, claimer)
            && d.jobs[j].stage == w.db.jobs[j].stage
            && d.jobs[j].attempts == w.db.jobs[j].attempts
            && SavedCheckpoint(d, j) == SavedCheckpoint(w.db, j)
  {
    var suspend := Act(DoSuspend(j, u, input));
    var w1 := Next(w, suspend, j);
    NextKeeps(w, suspend, j);
    SuspendEffect(w.db, j, u, input, w.now);
    assert w1.h.frozen == Some(Frozen(w.db.jobs[j].stage, w.db.jobs[j].attempts, SavedCheckpoint(w.db, j)));
    FrozenThroughout(w1, steps, j);
    RunKeeps(w1, steps, j);
    ResumedRow(Play(w1, steps, j), j, claimer);
  }

  lemma ResumedRow(v: World, j: JobId, claimer: WorkerId)
    requires WorldOk(v, j) && Claim(v.db, j, claimer, LEASE, v.now).Success? && Resumes(v.db.jobs[j])
    ensures var d := Claim(v.db, j, claimer, LEASE, v.now).value;
            && v.h.frozen.Some? && j in d.jobs && Owns(d, j, claimer)
            && v.h.frozen.value == Frozen(d.jobs[j].stage, d.jobs[j].attempts, SavedCheckpoint(d, j))
  {
    RowOf(v.db, j);
    ClaimEffect(v.db, j, claimer, v.now);
  }

  // ---------------------------------------------------------------- an answer is given once

  /** A question stays, and its answer too once it is given. */
  predicate InputStays(db: Db, d: Db, k: InputKey) {
    k in db.inputs ==>
      && k in d.inputs
      && d.inputs[k].(answer := db.inputs[k].answer) == db.inputs[k]
      && (db.inputs[k].answer.Some? ==> d.inputs[k].answer == db.inputs[k].answer)
  }

  lemma CloseKeepsInput(db: Db, j: JobId, answer: Answer, k: InputKey)
    requires AskOk(db, j)
    ensures InputStays(db, CloseInput(db, j, answer), k)
  {
  }

  predicate AboutInputs(a: Action) {
    a.DoSuspend? || a.DoAnswer? || a.DoCancel?
  }

  lemma OthersKeepInputs(db: Db, now: Time, a: Action)
    requires Attempt(db, now, a).Success? && !AboutInputs(a)
    ensures Attempt(db, now, a).value.inputs == db.inputs
  {
    match a
    case DoAppendEvent(j, w, kind, bytes) => AppendOwnEffect(db, j, w, kind, bytes);
    case DoPublish(j, w, artifact) => PublishEffect(db, j, w, artifact, now);
    case DoClaim(j, w) => ClaimEffect(db, j, w, now);
    case DoSetStage(j, w, stage) => SetStageEffect(db, j, w, stage, now);
    case DoReject(j, w) => RejectEffect(db, j, w, now);
    case _ =>
  }

  lemma InputStaysAfter(db: Db, now: Time, a: Action, k: InputKey)
    requires Coherent(db) && Attempt(db, now, a).Success?
    ensures InputStays(db, Attempt(db, now, a).value, k)
  {
    match a
    case DoSuspend(j, w, input) => SuspendEffect(db, j, w, input, now);
    case DoAnswer(j, id, answer, bytes) =>
      assert AskOk(db, j);
      AnswerEffect(db, j, id, answer, bytes, now);
      CloseKeepsInput(db, j, answer, k);
    case DoCancel(j, reason, bytes) =>
      assert AskOk(db, j);
      CancelEffect(db, j, reason, bytes, now);
      CloseKeepsInput(db, j, Cancellation(reason), k);
    case _ => OthersKeepInputs(db, now, a);
  }

  lemma {:induction false} InputForever(w: World, steps: seq<Step>, j: JobId, k: InputKey)
    requires WorldOk(w, j) && WorkerStages(steps)
    ensures InputStays(w.db, Play(w, steps, j).db, k)
  {
    if steps != [] {
      var front, last := steps[..|steps| - 1], steps[|steps| - 1];
      assert forall i | 0 <= i < |front| :: front[i] == steps[i];
      InputForever(w, front, j, k);
      RunKeeps(w, front, j);
      var v := Play(w, front, j);
      if last.Act? && Attempt(v.db, v.now, last.action).Success? {
        InputStaysAfter(v.db, v.now, last.action, k);
      }
    }
  }

  /** The user's answer to the call a job waits on is what any later replay of that call reads,
      in every later run: no second answer and no cancellation replaces it. */
  lemma ReplayReadsTheAnswer(w: World, j: JobId, id: InputId, answer: Answer, bytes: nat, steps: seq<Step>)
    requires WorldOk(w, j) && Attempt(w.db, w.now, DoAnswer(j, id, answer, bytes)).Success? && WorkerStages(steps)
    ensures j in w.db.pendingCall
    ensures var v := Play(Next(w, Act(DoAnswer(j, id, answer, bytes)), j), steps, j);
            AnsweredInput(v.db, j, w.db.pendingCall[j]) == Some(answer)
  {
    var step := Act(DoAnswer(j, id, answer, bytes));
    var w1 := Next(w, step, j);
    NextKeeps(w, step, j);
    var k := InputKey(j, w.db.pendingCall[j]);
    AnswerEffect(w.db, j, id, answer, bytes, w.now);
    assert w1.db.inputs[k].answer == Some(answer);
    InputForever(w1, steps, j, k);
  }

  // ---------------------------------------------------------------- the kind of the answer

  /** Call ids are unique: the calls under one id ask one kind of question. */
  predicate AsksItsKind(callKind: InputKey -> InputKind, a: Action) {
    a.DoSuspend? ==> a.input.kind == callKind(InputKey(a.job, a.input.call))
  }

  predicate KindOk(db: Db, callKind: InputKey -> InputKind, k: InputKey) {
    k in db.inputs ==>
      && db.inputs[k].kind == callKind(k)
      && (db.inputs[k].answer.Some? ==>
            || ValidAnswer(db.inputs[k].kind, db.inputs[k].answer.value)
            || (db.inputs[k].kind == Clarification && db.inputs[k].answer.value.Reject?
                && k.job in db.jobs && db.jobs[k.job].status == Rejected))
  }

  lemma RejectedStays(db: Db, now: Time, a: Action, j: JobId)
    requires Coherent(db) && Attempt(db, now, a).Success? && j in db.jobs && db.jobs[j].status == Rejected
    ensures j in Attempt(db, now, a).value.jobs && Attempt(db, now, a).value.jobs[j].status == Rejected
  {
    TerminalRowKept(db, now, a, j);
  }

  lemma KindAfterSuspend(db: Db, callKind: InputKey -> InputKind, j: JobId, w: WorkerId, input: NewInput, now: Time, k: InputKey)
    requires KindOk(db, callKind, k) && input.kind == callKind(InputKey(j, input.call)) && Suspend(db, j, w, input, now).Success?
    ensures KindOk(Suspend(db, j, w, input, now).value, callKind, k)
  {
    SuspendEffect(db, j, w, input, now);
  }

  lemma KindAfterAnswer(db: Db, callKind: InputKey -> InputKind, j: JobId, id: InputId, answer: Answer, bytes: nat, now: Time, k: InputKey)
    requires KindOk(db, callKind, k) && AnswerInput(db, j, id, answer, bytes, now).Success?
    ensures KindOk(AnswerInput(db, j, id, answer, bytes, now).value, callKind, k)
  {
    AnswerEffect(db, j, id, answer, bytes, now);
  }

  lemma KindAfterCancel(db: Db, callKind: InputKey -> InputKind, j: JobId, reason: string, bytes: nat, now: Time, k: InputKey)
    requires KindOk(db, callKind, k) && Cancel(db, j, reason, bytes, now).Success?
    ensures KindOk(Cancel(db, j, reason, bytes, now).value, callKind, k)
  {
    CancelEffect(db, j, reason, bytes, now);
  }

  lemma KindKept(db: Db, callKind: InputKey -> InputKind, now: Time, a: Action, k: InputKey)
    requires Coherent(db) && KindOk(db, callKind, k) && AsksItsKind(callKind, a) && Attempt(db, now, a).Success?
    ensures KindOk(Attempt(db, now, a).value, callKind, k)
  {
    match a
    case DoSuspend(j, w, input) => KindAfterSuspend(db, callKind, j, w, input, now, k);
    case DoAnswer(j, id, answer, bytes) => KindAfterAnswer(db, callKind, j, id, answer, bytes, now, k);
    case DoCancel(j, reason, bytes) => KindAfterCancel(db, callKind, j, reason, bytes, now, k);
    case _ =>
      OthersKeepInputs(db, now, a);
      if k.job in db.jobs && db.jobs[k.job].status == Rejected { RejectedStays(db, now, a, k.job); }
  }

  predicate AsksItsKinds(callKind: InputKey -> InputKind, steps: seq<Step>) {
    forall i | 0 <= i < |steps| :: steps[i].Act? ==> AsksItsKind(callKind, steps[i].action)
  }

  lemma {:induction false} KindsOverRuns(steps: seq<Step>, callKind: InputKey -> InputKind, k: InputKey)
    requires WorkerStages(steps) && AsksItsKinds(callKind, steps)
    ensures KindOk(Play(START, steps, k.job).db, callKind, k)
  {
    if steps != [] {
      var front, last := steps[..|steps| - 1], steps[|steps| - 1];
      assert forall i | 0 <= i < |front| :: front[i] == steps[i];
      KindsOverRuns(front, callKind, k);
      ReachableOk(front, k.job);
      var v := Play(START, front, k.job);
      if last.Act? && Attempt(v.db, v.now, last.action).Success? {
        KindKept(v.db, callKind, v.now, last.action, k);
      }
    }
  }

  /** With unique call ids, a call of a job that is not rejected reads an answer of the right
      kind: text exactly for a clarification.  The branches of the worker for a wrong kind are
      reached only by a worker of a cancelled job. */
  lemma WrongKindUnreachable(steps: seq<Step>, callKind: InputKey -> InputKind, j: JobId, call: string)
    requires WorkerStages(steps) && AsksItsKinds(callKind, steps)
    ensures var db := Play(START, steps, j).db; var answer := AnsweredInput(db, j, call);
            answer.Some? && !(j in db.jobs && db.jobs[j].status == Rejected) ==>
              (answer.value.Text? <==> callKind(InputKey(j, call)) == Clarification)
  {
    KindsOverRuns(steps, callKind, InputKey(j, call));
  }

  /** The rest of that family: cancelling a job that waits for a clarification always answers
      the clarification with a rejection, which a worker fenced out earlier may still read. */
  lemma CancelledClarificationReadsRejection(db: Db, j: JobId, reason: string, bytes: nat, now: Time)
    requires Coherent(db) && j in db.pendingCall && Cancel(db, j, reason, bytes, now).Success?
    requires Asked(db, j).Some? && Asked(db, j).value.kind == Clarification
    ensures var d := Cancel(db, j, reason, bytes, now).value;
            && AnsweredInput(d, j, db.pendingCall[j]) == Some(Cancellation(reason))
            && !ValidAnswer(Clarification, Cancellation(reason))
  {
    assert AskOk(db, j);
    CancelEffect(db, j, reason, bytes, now);
  }

  /** The question under this id has been answered, and not in its kind. */
  predicate WrongKind(db: Db, j: JobId, call: string) {
    && InputKey(j, call) in db.inputs && db.inputs[InputKey(j, call)].answer.Some?
    && !(db.inputs[InputKey(j, call)].answer.value.Text? <==> db.inputs[InputKey(j, call)].kind == Clarification)
  }

  /** This transaction cancels job j while it waits for the clarification under this id. */
  predicate CancelsClarification(db: Db, now: Time, a: Action, j: JobId, call: string) {
    && a.DoCancel? && a.job == j && Attempt(db, now, a).Success?
    && j in db.pendingCall && db.pendingCall[j] == call && Asked(db, j).Some? && Asked(db, j).value.kind == Clarification
  }

  lemma WrongKindStays(db: Db, now: Time, a: Action, j: JobId, call: string)
    requires Coherent(db) && Attempt(db, now, a).Success? && WrongKind(db, j, call)
    ensures WrongKind(Attempt(db, now, a).value, j, call)
  {
    InputStaysAfter(db, now, a, InputKey(j, call));
  }

  lemma WrongKindByCancel(db: Db, now: Time, a: Action, j: JobId, call: string)
    requires Coherent(db) && Attempt(db, now, a).Success? && !WrongKind(db, j, call)
    ensures WrongKind(Attempt(db, now, a).value, j, call) <==> CancelsClarification(db, now, a, j, call)
  {
    match a
    case DoSuspend(i, w, input) => AskedUnanswered(db, i, w, input, now, j, call);
    case DoAnswer(i, id, answer, bytes) => AnsweredInKind(db, i, id, answer, bytes, now, j, call);
    case DoCancel(i, reason, bytes) => CancelledInKind(db, i, reason, bytes, now, j, call);
    case _ => OthersKeepInputs(db, now, a);
  }

  lemma AskedUnanswered(db: Db, i: JobId, w: WorkerId, input: NewInput, now: Time, j: JobId, call: string)
    requires Suspend(db, i, w, input, now).Success? && !WrongKind(db, j, call)
    ensures !WrongKind(Suspend(db, i, w, input, now).value, j, call)
  {
    SuspendEffect(db, i, w, input, now);
  }

  lemma AnsweredInKind(db: Db, i: JobId, id: InputId, answer: Answer, bytes: nat, now: Time, j: JobId, call: string)
    requires AnswerInput(db, i, id, answer, bytes, now).Success? && !WrongKind(db, j, call)
    ensures !WrongKind(AnswerInput(db, i, id, answer, bytes, now).value, j, call)
  {
    AnswerEffect(db, i, id, answer, bytes, now);
  }

  lemma CancelledInKind(db: Db, i: JobId, reason: string, bytes: nat, now: Time, j: JobId, call: string)
    requires Coherent(db) && Cancel(db, i, reason, bytes, now).Success? && !WrongKind(db, j, call)
    ensures WrongKind(Cancel(db, i, reason, bytes, now).value, j, call) <==>
            i == j && j in db.pendingCall && db.pendingCall[j] == call && Asked(db, j).Some? && Asked(db, j).value.kind == Clarification
  {
    assert AskOk(db, i);
    CancelEffect(db, i, reason, bytes, now);
    ClosedInKind(db, i, Cancellation(reason), j, call);
  }

  lemma ClosedInKind(db: Db, i: JobId, answer: Answer, j: JobId, call: string)
    requires AskOk(db, i) && answer.Reject? && !WrongKind(db, j, call)
    ensures WrongKind(CloseInput(db, i, answer), j, call) <==>
            i == j && j in db.pendingCall && db.pendingCall[j] == call && Asked(db, j).Some? && Asked(db, j).value.kind == Clarification
  {
  }

  /** Step n of the run is such a cancellation. */
  predicate ClarificationCancelledAt(steps: seq<Step>, n: nat, j: JobId, call: string) {
    && n < |steps| && steps[n].Act?
    && var v := Play(START, steps[..n], j); CancelsClarification(v.db, v.now, steps[n].action, j, call)
  }

  lemma CancelledBefore(steps: seq<Step>, j: JobId, call: string)
    requires steps != []
    ensures var front, last := steps[..|steps| - 1], steps[|steps| - 1]; var v := Play(START, front, j);
            (exists n: nat :: ClarificationCancelledAt(steps, n, j, call)) <==>
            (exists n: nat :: ClarificationCancelledAt(front, n, j, call)) ||
            (last.Act? && CancelsClarification(v.db, v.now, last.action, j, call))
  {
    var front := steps[..|steps| - 1];
    forall n: nat | n < |front| ensures ClarificationCancelledAt(steps, n, j, call) <==> ClarificationCancelledAt(front, n, j, call) {
      assert front[..n] == steps[..n] && front[n] == steps[n];
    }
    assert ClarificationCancelledAt(steps, |front|, j, call) <==>
           (steps[|front|].Act? &&
            CancelsClarification(Play(START, front, j).db, Play(START, front, j).now, steps[|front|].action, j, call));
  }

  /** In every run, whatever ids calls have, an answer is of another kind than its question
      exactly when the job was cancelled while it waited for that clarification. */
  lemma {:induction false} WrongKindExactly(steps: seq<Step>, j: JobId, call: string)
    requires WorkerStages(steps)
    ensures WrongKind(Play(START, steps, j).db, j, call) <==> exists n: nat :: ClarificationCancelledAt(steps, n, j, call)
  {
    if steps != [] {
      var front, last := steps[..|steps| - 1], steps[|steps| - 1];
      assert forall i | 0 <= i < |front| :: front[i] == steps[i];
      WrongKindExactly(front, j, call);
      CancelledBefore(steps, j, call);
      ReachableOk(front, j);
      WrongKindStep(Play(START, front, j), last, j, call);
    }
  }

  lemma WrongKindStep(v: World, s: Step, j: JobId, call: string)
    requires WorldOk(v, j)
    ensures WrongKind(Next(v, s, j).db, j, call) <==>
            WrongKind(v.db, j, call) || (s.Act? && CancelsClarification(v.db, v.now, s.action, j, call))
  {
    if s.Act? && Attempt(v.db, v.now, s.action).Success? {
      if WrongKind(v.db, j, call) {
        WrongKindStays(v.db, v.now, s.action, j, call);
      } else {
        WrongKindByCancel(v.db, v.now, s.action, j, call);
      }
    }
  }
}
