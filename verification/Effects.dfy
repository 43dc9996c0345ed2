/** What each transaction of a job writes, table by table, as later proofs use it. */
module Effects {
  import opened Wrappers
  import opened AgentTypes
  import opened Schema
  import opened Transactions
  import opened Coherence
  import Text

  function SavedCheckpoint(db: Db, j: JobId): Option<Checkpoint> {
    if j in db.runs then Some(db.runs[j].checkpoint) else None
  }

  predicate SameRun(db: Db, d: Db, i: JobId) {
    (i in d.runs <==> i in db.runs) && (i in db.runs ==> d.runs[i] == db.runs[i])
  }

  /** Job j gets this row; questions and pending calls become these; of the runs only the byte
      count of j may change; keys, approvals and archives stay. */
  ghost predicate Effect(db: Db, d: Db, j: JobId, row: Job, inputs: map<InputKey, Input>, pending: map<JobId, string>) {
    && d.jobs == db.jobs[j := row] && d.inputs == inputs && d.pendingCall == pending
    && d.jobByKey == db.jobByKey && d.approvals == db.approvals && d.archives == db.archives
    && (forall i | i != j :: SameRun(db, d, i))
    && (j in d.runs <==> j in db.runs) && SavedCheckpoint(d, j) == SavedCheckpoint(db, j)
  }

  /** No event, no artifact, no tool row changes. */
  predicate Plain(db: Db, d: Db) {
    && d.runs == db.runs && d.events == db.events && d.nextEvent == db.nextEvent
    && d.artifacts == db.artifacts && d.tools == db.tools
  }

  lemma MoveEffect(db: Db, j: JobId, row: Job, status: VersionStatus)
    ensures var d := WithVersionStatus(WithJob(db, j, row), j, status);
            Effect(db, d, j, row, db.inputs, db.pendingCall) && Plain(db, d)
  {
  }

  lemma ClaimEffect(db: Db, j: JobId, w: WorkerId, now: Time)
    requires Claim(db, j, w, LEASE, now).Success?
    ensures var d := Claim(db, j, w, LEASE, now).value;
            Effect(db, d, j, ClaimedRow(db.jobs[j], w, LEASE, now), db.inputs, db.pendingCall) && Plain(db, d)
  {
    if db.jobs[j].version in db.versions {
      MoveEffect(db, j, ClaimedRow(db.jobs[j], w, LEASE, now), ClaimedStatus(db.versions[db.jobs[j].version].status));
    }
  }

  function StagedRow(job: Job, stage: JobStage, now: Time): Job {
    job.(stage := stage, leaseUntil := Some(now + LEASE), updatedAt := now)
  }

  lemma SetStageEffect(db: Db, j: JobId, w: WorkerId, stage: JobStage, now: Time)
    requires SetStage(db, j, w, stage, now).Success?
    ensures var d := SetStage(db, j, w, stage, now).value;
            Effect(db, d, j, StagedRow(db.jobs[j], stage, now), db.inputs, db.pendingCall) && Plain(db, d)
  {
    if StageVersionStatus(stage).Some? {
      MoveEffect(db, j, StagedRow(db.jobs[j], stage, now), StageVersionStatus(stage).value);
    }
  }

  function RejectedRow(job: Job, now: Time): Job {
    job.(status := Rejected, stage := CompleteStage, leaseUntil := None, updatedAt := now)
  }

  lemma RejectEffect(db: Db, j: JobId, w: WorkerId, now: Time)
    requires RejectJob(db, j, w, now).Success?
    ensures var d := RejectJob(db, j, w, now).value;
            Effect(db, d, j, RejectedRow(db.jobs[j], now), db.inputs, db.pendingCall) && Plain(db, d)
  {
    MoveEffect(db, j, RejectedRow(db.jobs[j], now), RejectedVersion);
  }

  // ---------------------------------------------------------------- transactions with an event

  /** The tables an event does not touch. */
  lemma WithEventEffect(db: Db, j: JobId, kind: string, p: EventPayload)
    requires j in db.runs
    ensures var d := WithEvent(db, j, kind, p);
            && OnlyTrace(db, d) && (forall i | i != j :: SameRun(db, d, i))
            && (j in d.runs <==> j in db.runs) && SavedCheckpoint(d, j) == SavedCheckpoint(db, j)
  {
  }

  /** An event appended to tables db1 that already carry the effect. */
  lemma AppendEffect(db: Db, db1: Db, j: JobId, row: Job, kind: string, bytes: nat, limit: int)
    requires Effect(db, db1, j, row, db1.inputs, db1.pendingCall) && AppendEvent(db1, j, kind, bytes, limit).Success?
    ensures var d := AppendEvent(db1, j, kind, bytes, limit).value;
            Effect(db, d, j, row, db1.inputs, db1.pendingCall) && OnlyTrace(db1, d)
  {
    var p := RecordedPayload(bytes, limit - db1.runs[j].traceBytes);
    if p.None? {
      assert AppendEvent(db1, j, kind, bytes, limit) == Success(db1);
    } else {
      WithEventEffect(db1, j, kind, p.value);
      var d := WithEvent(db1, j, kind, p.value);
      forall i | i != j ensures SameRun(db, d, i) { assert SameRun(db, db1, i) && SameRun(db1, d, i); }
      assert AppendEvent(db1, j, kind, bytes, limit) == Success(WithEvent(db1, j, kind, p.value));
    }
  }

  lemma AppendOwnEffect(db: Db, j: JobId, w: WorkerId, kind: string, bytes: nat)
    requires AppendOwnEvent(db, j, w, kind, bytes).Success?
    ensures var d := AppendOwnEvent(db, j, w, kind, bytes).value;
            Effect(db, d, j, db.jobs[j], db.inputs, db.pendingCall) && OnlyTrace(db, d)
  {
    assert db.jobs == db.jobs[j := db.jobs[j]];
    AppendEffect(db, db, j, db.jobs[j], kind, bytes, ORDINARY_LIMIT);
  }

  function AwaitingRow(job: Job, now: Time): Job {
    job.(status := AwaitingInput, stage := AwaitingStage, worker := None, leaseUntil := None, updatedAt := now)
  }

  function AskedInput(db: Db, j: JobId, input: NewInput): Input
    requires j in db.jobs
  {
    Input(input.id, input.kind, input.context, db.jobs[j].stage, None)
  }

  /** A question is stored once; asking it again under the same call writes nothing. */
  lemma SuspendEffect(db: Db, j: JobId, w: WorkerId, input: NewInput, now: Time)
    requires Suspend(db, j, w, input, now).Success?
    ensures Owns(db, j, w)
    ensures var d := Suspend(db, j, w, input, now).value; var key := InputKey(j, input.call);
            if key in db.inputs then d == db
            else
              && Effect(db, d, j, AwaitingRow(db.jobs[j], now), db.inputs[key := AskedInput(db, j, input)],
                        db.pendingCall[j := input.call])
              && d.tools == db.tools && d.versions == db.versions && d.artifacts == db.artifacts
  {
    var key := InputKey(j, input.call);
    if key !in db.inputs {
      var db1 := db.(inputs := db.inputs[key := AskedInput(db, j, input)], pendingCall := db.pendingCall[j := input.call]);
      assert db.jobs == db.jobs[j := db.jobs[j]];
      AppendEffect(db, db1, j, db.jobs[j], "input_requested", input.bytes, ORDINARY_LIMIT);
      var r := AppendEvent(db1, j, "input_requested", input.bytes, ORDINARY_LIMIT);
      assert Suspend(db, j, w, input, now).value == WithJob(r.value, j, AwaitingRow(db.jobs[j], now));
    }
  }

  function AnsweredRow(job: Job, stage: JobStage, now: Time): Job {
    job.(status := Queued, stage := stage, availableAt := now, worker := None, leaseUntil := None, updatedAt := now)
  }

  lemma CloseEffect(db: Db, j: JobId, answer: Answer)
    ensures var d := CloseInput(db, j, answer);
            && d.jobs == db.jobs && d.versions == db.versions && d.jobByKey == db.jobByKey && d.approvals == db.approvals
            && d.archives == db.archives && Plain(db, d)
  {
  }

  lemma AnswerEffect(db: Db, j: JobId, id: InputId, answer: Answer, bytes: nat, now: Time)
    requires AnswerInput(db, j, id, answer, bytes, now).Success?
    ensures IsPending(db, j, id) && ValidAnswer(db.inputs[InputKey(j, db.pendingCall[j])].kind, answer)
    ensures var d := AnswerInput(db, j, id, answer, bytes, now).value;
            var closed := CloseInput(db, j, answer);
            && Effect(db, d, j, AnsweredRow(db.jobs[j], db.inputs[InputKey(j, db.pendingCall[j])].resumeStage, now),
                      closed.inputs, closed.pendingCall)
            && d.tools == db.tools && d.versions == db.versions && d.artifacts == db.artifacts
  {
    var row := AnsweredRow(db.jobs[j], db.inputs[InputKey(j, db.pendingCall[j])].resumeStage, now);
    CloseEffect(db, j, answer);
    var db1 := WithJob(CloseInput(db, j, answer), j, row);
    AppendEffect(db, db1, j, row, "input_answered", bytes, ORDINARY_LIMIT);
  }

  function CancelledRow(job: Job, now: Time): Job {
    job.(status := Rejected, stage := CompleteStage, worker := None, leaseUntil := None, updatedAt := now)
  }

  function Cancellation(reason: string): Answer {
    Reject(Some(Text.Trim(reason)))
  }

  lemma CancelledEffect(db: Db, j: JobId, reason: string, now: Time)
    requires j in db.jobs
    ensures var d := CancelledDb(db, j, reason, now); var closed := CloseInput(db, j, Cancellation(reason));
            && Effect(db, d, j, CancelledRow(db.jobs[j], now), closed.inputs, closed.pendingCall) && Plain(db, d)
            && d.versions == WithVersionStatus(WithJob(db, j, CancelledRow(db.jobs[j], now)), j, RejectedVersion).versions
  {
    var db1 := WithVersionStatus(WithJob(db, j, CancelledRow(db.jobs[j], now)), j, RejectedVersion);
    MoveEffect(db, j, CancelledRow(db.jobs[j], now), RejectedVersion);
    CloseEffect(db1, j, Cancellation(reason));
  }

  lemma CancelEffect(db: Db, j: JobId, reason: string, bytes: nat, now: Time)
    requires Cancel(db, j, reason, bytes, now).Success?
    ensures j in db.jobs && !Terminal(db.jobs[j].status)
    ensures var d := Cancel(db, j, reason, bytes, now).value; var closed := CloseInput(db, j, Cancellation(reason));
            && Effect(db, d, j, CancelledRow(db.jobs[j], now), closed.inputs, closed.pendingCall)
            && d.tools == db.tools && d.artifacts == db.artifacts
            && d.versions == WithVersionStatus(WithJob(db, j, CancelledRow(db.jobs[j], now)), j, RejectedVersion).versions
  {
    CancelledEffect(db, j, reason, now);
    AppendEffect(db, CancelledDb(db, j, reason, now), j, CancelledRow(db.jobs[j], now), "job_cancelled", bytes, TRACE_LIMIT);
  }

  function PublishedRow(job: Job, now: Time): Job {
    job.(status := Ready, stage := CompleteStage, leaseUntil := None, updatedAt := now)
  }

  lemma PublishEffect(db: Db, j: JobId, w: WorkerId, a: PublishedArtifact, now: Time)
    requires Publish(db, j, w, a, now).Success?
    ensures Owns(db, j, w)
    ensures var d := Publish(db, j, w, a, now).value; var written := PublishedDb(db, j, a, now);
            && Effect(db, d, j, PublishedRow(db.jobs[j], now), db.inputs, db.pendingCall)
            && d.versions == written.versions && d.tools == written.tools && d.artifacts == written.artifacts
  {
    var written := PublishedDb(db, j, a, now);
    AppendEffect(db, written, j, PublishedRow(db.jobs[j], now), "candidate_validated", PUBLISH_BYTES, TRACE_LIMIT);
  }
}
