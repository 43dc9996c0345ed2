/** Runs of the registry with any number of workers, users and a clock, and what they keep
    of one job. */
module Histories {
  import opened Wrappers
  import opened AgentTypes
  import opened Schema
  import opened Transactions
  import opened Coherence
  import opened Effects

  datatype Step = Tick(elapsed: nat) | Act(action: Action)

  /** What a job was suspended with. */
  datatype Frozen = Frozen(stage: JobStage, attempts: nat, checkpoint: Option<Checkpoint>)

  /** History variables of one job: no transaction reads them.  `resumes` counts the claims
      that an answer preceded, `touched` is the time of the latest claim, renewal or stage
      change. */
  datatype History = History(
    claims: nat,
    resumes: nat,
    answers: nat,
    claimer: Option<WorkerId>,
    touched: Time,
    frozen: Option<Frozen>)

  const NO_HISTORY: History := History(0, 0, 0, None, 0, None)

  datatype World = World(db: Db, now: Time, h: History)

  const START: World := World(EMPTY, 0, NO_HISTORY)

  /** The history after a transaction of job j that committed. */
  function Recorded(h: History, db: Db, now: Time, a: Action, j: JobId): History {
    match a
    case DoClaim(_, w) =>
      if j !in db.jobs then h
      else if Resumes(db.jobs[j]) then h.(claims := h.claims + 1, resumes := h.resumes + 1, claimer := Some(w), touched := now)
      else h.(claims := h.claims + 1, claimer := Some(w), touched := now)
    case DoRenew(_, _) => h.(touched := now)
    case DoSetStage(_, _, _) => h.(touched := now)
    case DoSuspend(_, _, input) =>
      if InputKey(j, input.call) in db.inputs || j !in db.jobs then h
      else h.(frozen := Some(Frozen(db.jobs[j].stage, db.jobs[j].attempts, SavedCheckpoint(db, j))))
    case DoAnswer(_, _, _, _) => h.(answers := h.answers + 1)
    case _ => h
  }

  /** The job a transaction writes. */
  function JobOf(a: Action): Option<JobId> {
    match a
    case DoRegister(_, _, _, j) => Some(j)
    case DoClaim(j, _) => Some(j)
    case DoRenew(j, _) => Some(j)
    case DoSetStage(j, _, _) => Some(j)
    case DoSuspend(j, _, _) => Some(j)
    case DoAnswer(j, _, _, _) => Some(j)
    case DoCancel(j, _, _) => Some(j)
    case DoSaveCheckpoint(j, _, _) => Some(j)
    case DoAppendEvent(j, _, _, _) => Some(j)
    case DoSaveContract(j, _, _) => Some(j)
    case DoPublish(j, _, _) => Some(j)
    case DoReject(j, _) => Some(j)
    case _ => None
  }

  /** One step of the world, with the history of job j. */
  function Next(w: World, s: Step, j: JobId): World {
    match s
    case Tick(elapsed) => w.(now := w.now + elapsed)
    case Act(a) =>
      var r := Attempt(w.db, w.now, a);
      if r.Failure? then w
      else World(r.value, w.now, if JobOf(a) == Some(j) then Recorded(w.h, w.db, w.now, a, j) else w.h)
  }

  function Play(w: World, steps: seq<Step>, j: JobId): World {
    if steps == [] then w else Next(Play(w, steps[..|steps| - 1], j), steps[|steps| - 1], j)
  }

  /** Workers pass only the five working stages. */
  predicate WorkerStages(steps: seq<Step>) {
    forall i | 0 <= i < |steps| :: steps[i].Act? ==> WorkerStage(steps[i].action)
  }

  // ---------------------------------------------------------------- isolation

  predicate SameRow(db: Db, d: Db, i: JobId) {
    && (i in d.jobs <==> i in db.jobs) && (i in db.jobs ==> d.jobs[i] == db.jobs[i])
    && (i in d.pendingCall <==> i in db.pendingCall) && (i in db.pendingCall ==> d.pendingCall[i] == db.pendingCall[i])
    && SameRun(db, d, i)
  }

  predicate SameInput(db: Db, d: Db, k: InputKey) {
    (k in d.inputs <==> k in db.inputs) && (k in db.inputs ==> d.inputs[k] == db.inputs[k])
  }

  /** The row, the questions and the run of job i are the same. */
  ghost predicate Isolated(db: Db, d: Db, i: JobId) {
    SameRow(db, d, i) && forall k: InputKey | k.job == i :: SameInput(db, d, k)
  }

  /** An effect on job j that touches only questions of j. */
  lemma EffectIsolated(db: Db, d: Db, j: JobId, row: Job, inputs: map<InputKey, Input>, pending: map<JobId, string>, i: JobId)
    requires i != j && Effect(db, d, j, row, inputs, pending)
    requires forall k: InputKey | k.job == i :: (k in inputs <==> k in db.inputs) && (k in inputs ==> inputs[k] == db.inputs[k])
    requires (i in pending <==> i in db.pendingCall) && (i in pending ==> pending[i] == db.pendingCall[i])
    ensures Isolated(db, d, i)
  {
    assert SameRun(db, d, i);
  }

  lemma SuspendIsolated(db: Db, j: JobId, w: WorkerId, input: NewInput, now: Time, i: JobId)
    requires i != j && Suspend(db, j, w, input, now).Success?
    ensures Isolated(db, Suspend(db, j, w, input, now).value, i)
  {
    SuspendEffect(db, j, w, input, now);
    var key := InputKey(j, input.call);
    if key !in db.inputs {
      EffectIsolated(db, Suspend(db, j, w, input, now).value, j, AwaitingRow(db.jobs[j], now),
                     db.inputs[key := AskedInput(db, j, input)], db.pendingCall[j := input.call], i);
    }
  }

  lemma ClosedIsolated(db: Db, d: Db, j: JobId, row: Job, answer: Answer, i: JobId)
    requires i != j && Effect(db, d, j, row, CloseInput(db, j, answer).inputs, CloseInput(db, j, answer).pendingCall)
    ensures Isolated(db, d, i)
  {
    EffectIsolated(db, d, j, row, CloseInput(db, j, answer).inputs, CloseInput(db, j, answer).pendingCall, i);
  }

  lemma AnswerIsolated(db: Db, j: JobId, id: InputId, answer: Answer, bytes: nat, now: Time, i: JobId)
    requires i != j && AnswerInput(db, j, id, answer, bytes, now).Success?
    ensures Isolated(db, AnswerInput(db, j, id, answer, bytes, now).value, i)
  {
    AnswerEffect(db, j, id, answer, bytes, now);
    var row := AnsweredRow(db.jobs[j], db.inputs[InputKey(j, db.pendingCall[j])].resumeStage, now);
    ClosedIsolated(db, AnswerInput(db, j, id, answer, bytes, now).value, j, row, answer, i);
  }

  lemma CancelIsolated(db: Db, j: JobId, reason: string, bytes: nat, now: Time, i: JobId)
    requires i != j && Cancel(db, j, reason, bytes, now).Success?
    ensures Isolated(db, Cancel(db, j, reason, bytes, now).value, i)
  {
    CancelEffect(db, j, reason, bytes, now);
    ClosedIsolated(db, Cancel(db, j, reason, bytes, now).value, j, CancelledRow(db.jobs[j], now), Cancellation(reason), i);
  }

  lemma PublishIsolated(db: Db, j: JobId, w: WorkerId, a: PublishedArtifact, now: Time, i: JobId)
    requires i != j && Publish(db, j, w, a, now).Success?
    ensures Isolated(db, Publish(db, j, w, a, now).value, i)
  {
    PublishEffect(db, j, w, a, now);
    EffectIsolated(db, Publish(db, j, w, a, now).value, j, PublishedRow(db.jobs[j], now), db.inputs, db.pendingCall, i);
  }

  lemma RowIsolated(db: Db, d: Db, j: JobId, row: Job, i: JobId)
    requires i != j && Effect(db, d, j, row, db.inputs, db.pendingCall)
    ensures Isolated(db, d, i)
  {
    EffectIsolated(db, d, j, row, db.inputs, db.pendingCall, i);
  }

  lemma RegisterIsolated(db: Db, name: string, request: Request, key: string, j: JobId, now: Time, i: JobId)
    requires i != j && Register(db, name, request, key, j, now).Success?
    ensures Isolated(db, Register(db, name, request, key, j, now).value, i)
  {
    if !(key in db.jobByKey && db.jobByKey[key] in db.jobs) {
      assert Register(db, name, request, key, j, now).value == Registered(db, name, request, key, j, now);
    }
  }

  lemma SaveCheckpointIsolated(db: Db, j: JobId, w: WorkerId, c: Checkpoint, i: JobId)
    requires i != j && SaveCheckpoint(db, j, w, c).Success?
    ensures Isolated(db, SaveCheckpoint(db, j, w, c).value, i)
  {
  }

  /** Revocations, approvals and compactions change no job. */
  lemma JoblessIsolated(db: Db, now: Time, a: Action, i: JobId)
    requires Attempt(db, now, a).Success? && JobOf(a).None?
    ensures Isolated(db, Attempt(db, now, a).value, i)
  {
    match a
    case DoRevoke(tool, revision) =>
      assert Attempt(db, now, a).value.jobs == WithRevoked(db, VersionKey(tool, revision)).jobs;
    case _ =>
  }

  /** A transaction leaves every job but its own, and their questions, as they were. */
  lemma Isolation(db: Db, now: Time, a: Action, i: JobId)
    requires Attempt(db, now, a).Success? && JobOf(a) != Some(i)
    ensures Isolated(db, Attempt(db, now, a).value, i)
  {
    var d := Attempt(db, now, a).value;
    match a
    case DoSuspend(j, w, input) => SuspendIsolated(db, j, w, input, now, i);
    case DoAnswer(j, id, answer, bytes) => AnswerIsolated(db, j, id, answer, bytes, now, i);
    case DoCancel(j, reason, bytes) => CancelIsolated(db, j, reason, bytes, now, i);
    case DoAppendEvent(j, w, kind, bytes) =>
      AppendOwnEffect(db, j, w, kind, bytes);
      RowIsolated(db, d, j, db.jobs[j], i);
    case DoPublish(j, w, artifact) => PublishIsolated(db, j, w, artifact, now, i);
    case DoClaim(j, w) =>
      ClaimEffect(db, j, w, now);
      RowIsolated(db, d, j, ClaimedRow(db.jobs[j], w, LEASE, now), i);
    case DoSetStage(j, w, stage) =>
      SetStageEffect(db, j, w, stage, now);
      RowIsolated(db, d, j, StagedRow(db.jobs[j], stage, now), i);
    case DoReject(j, w) =>
      RejectEffect(db, j, w, now);
      RowIsolated(db, d, j, RejectedRow(db.jobs[j], now), i);
    case DoRegister(name, request, key, j) => RegisterIsolated(db, name, request, key, j, now, i);
    case DoSaveCheckpoint(j, w, c) => SaveCheckpointIsolated(db, j, w, c, i);
    case DoRenew(_, _) =>
    case DoSaveContract(_, _, _) =>
    case _ => JoblessIsolated(db, now, a, i);
  }

  // ---------------------------------------------------------------- tables that are not of one job

  /** Accepted keys, approvals and artifacts are the same. */
  predicate SameIndexes(db: Db, d: Db) {
    d.jobByKey == db.jobByKey && d.approvals == db.approvals && d.artifacts == db.artifacts
  }

  /** Only registrations accept keys, only approvals and revocations change approvals, and only
      publications record artifacts. */
  lemma IndexesKept(db: Db, now: Time, a: Action)
    requires Attempt(db, now, a).Success?
    requires !a.DoRegister? && !a.DoPublish? && !a.DoApproveCapability? && !a.DoRevokeCapability?
    ensures SameIndexes(db, Attempt(db, now, a).value)
  {
    match a
    case DoSuspend(j, w, input) => SuspendEffect(db, j, w, input, now);
    case DoAnswer(j, id, answer, bytes) => AnswerEffect(db, j, id, answer, bytes, now);
    case DoCancel(j, reason, bytes) => CancelEffect(db, j, reason, bytes, now);
    case DoAppendEvent(j, w, kind, bytes) => AppendOwnEffect(db, j, w, kind, bytes);
    case DoClaim(j, w) => ClaimEffect(db, j, w, now);
    case DoSetStage(j, w, stage) => SetStageEffect(db, j, w, stage, now);
    case DoReject(j, w) => RejectEffect(db, j, w, now);
    case _ =>
  }

  lemma PublishedIndexes(db: Db, j: JobId, w: WorkerId, a: PublishedArtifact, now: Time)
    requires Publish(db, j, w, a, now).Success?
    ensures var d := Publish(db, j, w, a, now).value;
            && d.jobByKey == db.jobByKey && d.approvals == db.approvals
            && d.artifacts == if a.digest in db.artifacts then db.artifacts else db.artifacts[a.digest := a.manifest]
  {
    PublishEffect(db, j, w, a, now);
  }

  // ---------------------------------------------------------------- what a history says of its job

  /** The question job j waits for. */
  function Asked(db: Db, j: JobId): Option<Input> {
    if j in db.pendingCall && InputKey(j, db.pendingCall[j]) in db.inputs then Some(db.inputs[InputKey(j, db.pendingCall[j])])
    else None
  }

  /** Every claim is either an attempt or follows an answer; the owner is the
      latest claimer; the lease runs from the last time the owner touched the job. */
  predicate Accounts(job: Job, h: History) {
    && h.claims == job.attempts + h.resumes
    && h.resumes <= h.answers <= h.resumes + 1
    && (job.status != Rejected ==> h.answers == h.resumes + if Resumes(job) then 1 else 0)
    && (job.worker.Some? ==> job.worker == h.claimer)
    && (job.status == Running ==> job.leaseUntil == Some(h.touched + LEASE))
  }

  /** A job that waits, or was answered, is as it was when it was suspended. */
  predicate Remembers(job: Job, asked: Option<Input>, saved: Option<Checkpoint>, h: History) {
    && (job.status == AwaitingInput ==> asked.Some? && h.frozen == Some(Frozen(asked.value.resumeStage, job.attempts, saved)))
    && (Resumes(job) ==> h.frozen == Some(Frozen(job.stage, job.attempts, saved)))
  }

  predicate HistoryOk(db: Db, h: History, j: JobId) {
    if j !in db.jobs then h == NO_HISTORY
    else Accounts(db.jobs[j], h) && Remembers(db.jobs[j], Asked(db, j), SavedCheckpoint(db, j), h)
  }

  lemma SameRowKeeps(db: Db, d: Db, h: History, j: JobId)
    requires HistoryOk(db, h, j) && Isolated(db, d, j)
    ensures HistoryOk(d, h, j)
  {
    if j in db.pendingCall { assert SameInput(db, d, InputKey(j, db.pendingCall[j])); }
  }

  lemma ClaimRecorded(db: Db, h: History, j: JobId, w: WorkerId, now: Time)
    requires Coherent(db) && HistoryOk(db, h, j) && Claim(db, j, w, LEASE, now).Success?
    ensures HistoryOk(Claim(db, j, w, LEASE, now).value, Recorded(h, db, now, DoClaim(j, w), j), j)
  {
    RowOf(db, j);
    ClaimEffect(db, j, w, now);
  }

  lemma SuspendRecorded(db: Db, h: History, j: JobId, w: WorkerId, input: NewInput, now: Time)
    requires HistoryOk(db, h, j) && Suspend(db, j, w, input, now).Success?
    ensures HistoryOk(Suspend(db, j, w, input, now).value, Recorded(h, db, now, DoSuspend(j, w, input), j), j)
  {
    SuspendEffect(db, j, w, input, now);
    var d := Suspend(db, j, w, input, now).value;
    if InputKey(j, input.call) !in db.inputs {
      assert Asked(d, j) == Some(AskedInput(db, j, input));
    }
  }

  lemma AnswerRecorded(db: Db, h: History, j: JobId, id: InputId, answer: Answer, bytes: nat, now: Time)
    requires Coherent(db) && HistoryOk(db, h, j) && AnswerInput(db, j, id, answer, bytes, now).Success?
    ensures HistoryOk(AnswerInput(db, j, id, answer, bytes, now).value, Recorded(h, db, now, DoAnswer(j, id, answer, bytes), j), j)
  {
    AnswerEffect(db, j, id, answer, bytes, now);
    assert InputOk(db, InputKey(j, db.pendingCall[j]));
  }

  lemma SaveCheckpointRecorded(db: Db, h: History, j: JobId, w: WorkerId, c: Checkpoint)
    requires HistoryOk(db, h, j) && SaveCheckpoint(db, j, w, c).Success?
    ensures HistoryOk(SaveCheckpoint(db, j, w, c).value, h, j)
  {
  }

  lemma RegisterRecorded(db: Db, h: History, j: JobId, name: string, request: Request, key: string, now: Time)
    requires HistoryOk(db, h, j) && Register(db, name, request, key, j, now).Success?
    ensures HistoryOk(Register(db, name, request, key, j, now).value, h, j)
  {
    if !(key in db.jobByKey && db.jobByKey[key] in db.jobs) {
      assert Registered(db, name, request, key, j, now).jobs[j].stage == QueuedStage;
    }
  }

  /** The job keeps its owner's data, or ends. */
  lemma RowRecorded(db: Db, d: Db, h: History, j: JobId, row: Job)
    requires HistoryOk(db, h, j) && j in db.jobs && Effect(db, d, j, row, db.inputs, db.pendingCall)
    requires row.attempts == db.jobs[j].attempts && row.worker == db.jobs[j].worker
    requires row == db.jobs[j] || (db.jobs[j].status == Running && Terminal(row.status))
    ensures HistoryOk(d, h, j)
  {
  }

  lemma CancelRecorded(db: Db, h: History, j: JobId, reason: string, bytes: nat, now: Time)
    requires HistoryOk(db, h, j) && Cancel(db, j, reason, bytes, now).Success?
    ensures HistoryOk(Cancel(db, j, reason, bytes, now).value, h, j)
  {
    CancelEffect(db, j, reason, bytes, now);
  }

  lemma SetStageRecorded(db: Db, h: History, j: JobId, w: WorkerId, stage: JobStage, now: Time)
    requires HistoryOk(db, h, j) && SetStage(db, j, w, stage, now).Success?
    ensures HistoryOk(SetStage(db, j, w, stage, now).value, h.(touched := now), j)
  {
    SetStageEffect(db, j, w, stage, now);
  }

  /** A transaction of job j. */
  lemma OwnRecorded(db: Db, h: History, now: Time, a: Action, j: JobId)
    requires Coherent(db) && HistoryOk(db, h, j) && JobOf(a) == Some(j) && Attempt(db, now, a).Success?
    ensures HistoryOk(Attempt(db, now, a).value, Recorded(h, db, now, a, j), j)
  {
    var d := Attempt(db, now, a).value;
    match a
    case DoRegister(name, request, key, _) => RegisterRecorded(db, h, j, name, request, key, now);
    case DoClaim(_, w) => ClaimRecorded(db, h, j, w, now);
    case DoSetStage(_, w, stage) => SetStageRecorded(db, h, j, w, stage, now);
    case DoSuspend(_, w, input) => SuspendRecorded(db, h, j, w, input, now);
    case DoAnswer(_, id, answer, bytes) => AnswerRecorded(db, h, j, id, answer, bytes, now);
    case DoCancel(_, reason, bytes) => CancelRecorded(db, h, j, reason, bytes, now);
    case DoAppendEvent(_, w, kind, bytes) =>
      AppendOwnEffect(db, j, w, kind, bytes);
      RowRecorded(db, d, h, j, db.jobs[j]);
    case DoSaveCheckpoint(_, w, c) => SaveCheckpointRecorded(db, h, j, w, c);
    case DoPublish(_, w, artifact) =>
      PublishEffect(db, j, w, artifact, now);
      RowRecorded(db, d, h, j, PublishedRow(db.jobs[j], now));
    case DoReject(_, w) =>
      RejectEffect(db, j, w, now);
      RowRecorded(db, d, h, j, RejectedRow(db.jobs[j], now));
    case _ =>
  }

  ghost predicate WorldOk(w: World, j: JobId) {
    Coherent(w.db) && HistoryOk(w.db, w.h, j)
  }

  lemma NextKeeps(w: World, s: Step, j: JobId)
    requires WorldOk(w, j) && (s.Act? ==> WorkerStage(s.action))
    ensures WorldOk(Next(w, s, j), j)
  {
    if s.Act? && Attempt(w.db, w.now, s.action).Success? {
      AttemptCoherent(w.db, w.now, s.action);
      if JobOf(s.action) == Some(j) {
        OwnRecorded(w.db, w.h, w.now, s.action, j);
      } else {
        Isolation(w.db, w.now, s.action, j);
        SameRowKeeps(w.db, Attempt(w.db, w.now, s.action).value, w.h, j);
      }
    }
  }

  /** In every run from the empty registry, of any length and by any workers and users, the
      tables are coherent and the history of every job agrees with its row. */
  lemma {:induction false} RunKeeps(w: World, steps: seq<Step>, j: JobId)
    requires WorldOk(w, j) && WorkerStages(steps)
    ensures WorldOk(Play(w, steps, j), j)
  {
    if steps != [] {
      var front := steps[..|steps| - 1];
      assert forall i | 0 <= i < |front| :: front[i] == steps[i];
      RunKeeps(w, front, j);
      NextKeeps(Play(w, front, j), steps[|steps| - 1], j);
    }
  }

  lemma ReachableOk(steps: seq<Step>, j: JobId)
    requires WorkerStages(steps)
    ensures WorldOk(Play(START, steps, j), j)
  {
    EmptyCoherent();
    RunKeeps(START, steps, j);
  }
}
