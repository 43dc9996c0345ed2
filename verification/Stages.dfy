/** The stage of a job and the status of its version, over every run. */
module Stages {
  import opened Wrappers
  import opened AgentTypes
  import opened Schema
  import opened Transactions
  import opened Coherence
  import opened Commits
  import opened Histories

  /** A live job's version is a draft until the first claim; after it the version is building exactly
      in the building stage, validating exactly in the validating stage, and synthesizing exactly in
      the others.  The stage of a job that waits is the one its question will resume. */
  predicate StageAgrees(db: Db, j: JobId) {
    j in db.jobs && db.jobs[j].version in db.versions && db.jobs[j].status in {Queued, Running, AwaitingInput} ==>
      var job, status := db.jobs[j], VersionOf(db, j).status;
      if job.status == AwaitingInput then
        j in db.pendingCall && InputKey(j, db.pendingCall[j]) in db.inputs &&
        Matches(status, db.inputs[InputKey(j, db.pendingCall[j])].resumeStage)
      else if job.stage == QueuedStage then job.status == Queued && status == DraftVersion
      else Matches(status, job.stage)
  }

  // ---------------------------------------------------------------- transactions of the job itself

  lemma RegisterAgrees(db: Db, now: Time, a: Action, j: JobId)
    requires Coherent(db) && a.DoRegister? && a.newJob == j && StageAgrees(db, j) && Attempt(db, now, a).Success?
    ensures StageAgrees(Attempt(db, now, a).value, j)
  {
    RegisterCommits(db, a.name, a.request, a.key, j, now);
  }

  lemma ClaimAgrees(db: Db, now: Time, j: JobId, w: WorkerId)
    requires Coherent(db) && StageAgrees(db, j) && Attempt(db, now, DoClaim(j, w)).Success?
    ensures StageAgrees(Attempt(db, now, DoClaim(j, w)).value, j)
  {
    RowOf(db, j);
    ClaimCommits(db, j, w, now);
  }

  lemma SuspendAgrees(db: Db, now: Time, j: JobId, w: WorkerId, input: NewInput)
    requires Coherent(db) && StageAgrees(db, j) && Attempt(db, now, DoSuspend(j, w, input)).Success?
    ensures StageAgrees(Attempt(db, now, DoSuspend(j, w, input)).value, j)
  {
    SuspendCommits(db, j, w, input, now);
    var d := Attempt(db, now, DoSuspend(j, w, input)).value;
    if InputKey(j, input.call) !in db.inputs {
      RowOf(db, j);
      assert Untraced(db, d).jobs == d.jobs && Untraced(db, d).versions == d.versions;
      assert Untraced(db, d).inputs == d.inputs && Untraced(db, d).pendingCall == d.pendingCall;
    }
  }

  lemma AnswerAgrees(db: Db, now: Time, j: JobId, id: InputId, answer: Answer, bytes: nat)
    requires Coherent(db) && StageAgrees(db, j) && Attempt(db, now, DoAnswer(j, id, answer, bytes)).Success?
    ensures StageAgrees(Attempt(db, now, DoAnswer(j, id, answer, bytes)).value, j)
  {
    AnswerCommits(db, j, id, answer, bytes, now);
    var d := Attempt(db, now, DoAnswer(j, id, answer, bytes)).value;
    RowOf(db, j);
    assert InputOk(db, InputKey(j, db.pendingCall[j]));
    assert Untraced(db, d).jobs == d.jobs && Untraced(db, d).versions == d.versions;
  }

  lemma CancelAgrees(db: Db, now: Time, j: JobId, reason: string, bytes: nat)
    requires Coherent(db) && Attempt(db, now, DoCancel(j, reason, bytes)).Success?
    ensures StageAgrees(Attempt(db, now, DoCancel(j, reason, bytes)).value, j)
  {
    CancelCommits(db, j, reason, bytes, now);
    var d := Attempt(db, now, DoCancel(j, reason, bytes)).value;
    assert Untraced(db, d).jobs == d.jobs;
  }

  lemma PublishAgrees(db: Db, now: Time, j: JobId, w: WorkerId, artifact: PublishedArtifact)
    requires Coherent(db) && Attempt(db, now, DoPublish(j, w, artifact)).Success?
    ensures StageAgrees(Attempt(db, now, DoPublish(j, w, artifact)).value, j)
  {
    PublishCommits(db, j, w, artifact, now);
    var d := Attempt(db, now, DoPublish(j, w, artifact)).value;
    assert Untraced(db, d).jobs == d.jobs;
  }

  /** These change neither stage, status, question nor version status. */
  lemma QuietAgrees(db: Db, now: Time, a: Action, j: JobId)
    requires Coherent(db) && StageAgrees(db, j) && JobOf(a) == Some(j) && Attempt(db, now, a).Success?
    requires a.DoRenew? || a.DoSaveCheckpoint? || a.DoAppendEvent? || a.DoSaveContract?
    ensures StageAgrees(Attempt(db, now, a).value, j)
  {
    var d := Attempt(db, now, a).value;
    match a
    case DoRenew(_, w) => RenewCommits(db, j, w, now);
    case DoSaveCheckpoint(_, w, c) => CheckpointCommits(db, j, w, c, now);
    case DoSaveContract(_, w, contract) => ContractCommits(db, j, w, contract, now);
    case DoAppendEvent(_, w, kind, bytes) =>
      EventCommits(db, j, w, kind, bytes, now);
      assert Untraced(db, d).jobs == d.jobs && Untraced(db, d).versions == d.versions;
      assert Untraced(db, d).inputs == d.inputs && Untraced(db, d).pendingCall == d.pendingCall;
  }

  lemma OwnAgrees(db: Db, now: Time, a: Action, j: JobId)
    requires Coherent(db) && WorkerStage(a) && StageAgrees(db, j) && JobOf(a) == Some(j) && Attempt(db, now, a).Success?
    ensures StageAgrees(Attempt(db, now, a).value, j)
  {
    match a
    case DoRegister(_, _, _, _) => RegisterAgrees(db, now, a, j);
    case DoClaim(_, w) => ClaimAgrees(db, now, j, w);
    case DoSetStage(_, w, stage) => StageCommits(db, j, w, stage, now);
    case DoSuspend(_, w, input) => SuspendAgrees(db, now, j, w, input);
    case DoAnswer(_, id, answer, bytes) => AnswerAgrees(db, now, j, id, answer, bytes);
    case DoCancel(_, reason, bytes) => CancelAgrees(db, now, j, reason, bytes);
    case DoPublish(_, w, artifact) => PublishAgrees(db, now, j, w, artifact);
    case DoReject(_, w) => RejectCommits(db, j, w, now);
    case _ => QuietAgrees(db, now, a, j);
  }

  // ---------------------------------------------------------------- transactions of others

  predicate KeepsVersion(db: Db, d: Db, k: VersionKey) {
    k in db.versions ==> k in d.versions && d.versions[k] == db.versions[k]
  }

  /** A transaction of another job leaves the version of a live job as it is. */
  lemma OthersKeepVersion(db: Db, now: Time, a: Action, j: JobId)
    requires Coherent(db) && WorkerStage(a) && JobOf(a) != Some(j) && Attempt(db, now, a).Success?
    requires j in db.jobs && !Terminal(db.jobs[j].status)
    ensures KeepsVersion(db, Attempt(db, now, a).value, db.jobs[j].version)
  {
    var d := Attempt(db, now, a).value;
    RowOf(db, j);
    if JobOf(a).Some? {
      assert OwnVersion(db, JobOf(a).value, j);
      OtherJobKeepsVersion(db, now, a, j);
    } else {
      match a
      case DoRevoke(tool, revision) => RevokeCommits(db, tool, revision, now);
      case _ =>
    }
  }

  lemma OtherJobKeepsVersion(db: Db, now: Time, a: Action, j: JobId)
    requires Coherent(db) && WorkerStage(a) && JobOf(a).Some? && JobOf(a).value != j && Attempt(db, now, a).Success?
    requires j in db.jobs && db.jobs[j].version in db.versions
    ensures KeepsVersion(db, Attempt(db, now, a).value, db.jobs[j].version)
  {
    var d, i := Attempt(db, now, a).value, JobOf(a).value;
    assert OwnVersion(db, i, j);
    match a
    case DoRegister(name, request, key, _) => RegisteredElsewhere(db, now, a, j);
    case DoClaim(_, w) => ClaimCommits(db, i, w, now);
    case DoSetStage(_, w, stage) => StageCommits(db, i, w, stage, now);
    case DoReject(_, w) => RejectCommits(db, i, w, now);
    case DoRenew(_, w) => RenewCommits(db, i, w, now);
    case DoSaveCheckpoint(_, w, c) => CheckpointCommits(db, i, w, c, now);
    case DoSaveContract(_, w, contract) => ContractCommits(db, i, w, contract, now);
    case _ => TracedKeepsVersion(db, now, a, j);
  }

  lemma RegisteredElsewhere(db: Db, now: Time, a: Action, j: JobId)
    requires Coherent(db) && a.DoRegister? && Attempt(db, now, a).Success? && j in db.jobs && db.jobs[j].version in db.versions
    ensures KeepsVersion(db, Attempt(db, now, a).value, db.jobs[j].version)
  {
    RegisterCommits(db, a.name, a.request, a.key, a.newJob, now);
    assert VersionOk(db, db.jobs[j].version);
  }

  lemma TracedKeepsVersion(db: Db, now: Time, a: Action, j: JobId)
    requires Coherent(db) && JobOf(a).Some? && JobOf(a).value != j && Attempt(db, now, a).Success?
    requires a.DoSuspend? || a.DoAnswer? || a.DoCancel? || a.DoPublish? || a.DoAppendEvent?
    requires j in db.jobs && db.jobs[j].version in db.versions
    ensures KeepsVersion(db, Attempt(db, now, a).value, db.jobs[j].version)
  {
    var d, i := Attempt(db, now, a).value, JobOf(a).value;
    assert OwnVersion(db, i, j);
    assert Untraced(db, d).versions == d.versions;
    match a
    case DoSuspend(_, w, input) => SuspendCommits(db, i, w, input, now);
    case DoAnswer(_, id, answer, bytes) => AnswerCommits(db, i, id, answer, bytes, now);
    case DoCancel(_, reason, bytes) => CancelCommits(db, i, reason, bytes, now);
    case DoPublish(_, w, artifact) => PublishCommits(db, i, w, artifact, now);
    case DoAppendEvent(_, w, kind, bytes) => EventCommits(db, i, w, kind, bytes, now);
  }

  lemma OtherAgrees(db: Db, now: Time, a: Action, j: JobId)
    requires Coherent(db) && WorkerStage(a) && StageAgrees(db, j) && JobOf(a) != Some(j) && Attempt(db, now, a).Success?
    ensures StageAgrees(Attempt(db, now, a).value, j)
  {
    var d := Attempt(db, now, a).value;
    Isolation(db, now, a, j);
    if j in db.jobs && !Terminal(db.jobs[j].status) {
      RowOf(db, j);
      OthersKeepVersion(db, now, a, j);
      if j in db.pendingCall { assert SameInput(db, d, InputKey(j, db.pendingCall[j])); }
    }
  }

  // ---------------------------------------------------------------- every run

  /** In every run, with each stage change as one step, the version of a live job is building,
      validating or synthesizing exactly as the stage of the job says. */
  lemma {:induction false} StagesAgreeInEveryRun(steps: seq<Step>, j: JobId)
    requires WorkerStages(steps)
    ensures StageAgrees(Play(START, steps, j).db, j)
  {
    if steps != [] {
      var front, last := steps[..|steps| - 1], steps[|steps| - 1];
      assert forall i | 0 <= i < |front| :: front[i] == steps[i];
      StagesAgreeInEveryRun(front, j);
      ReachableOk(front, j);
      var v := Play(START, front, j);
      if last.Act? && Attempt(v.db, v.now, last.action).Success? {
        if JobOf(last.action) == Some(j) {
          OwnAgrees(v.db, v.now, last.action, j);
        } else {
          OtherAgrees(v.db, v.now, last.action, j);
        }
      }
    }
  }

  /** So a claim after an answer finds the version as the suspension left it: still building or
      validating where the stage says so. */
  lemma ResumedStageAgrees(steps: seq<Step>, j: JobId, w: WorkerId)
    requires WorkerStages(steps)
    requires var v := Play(START, steps, j); Attempt(v.db, v.now, DoClaim(j, w)).Success? && Resumes(v.db.jobs[j])
    ensures var v := Play(START, steps, j); var d := Attempt(v.db, v.now, DoClaim(j, w)).value;
            && j in d.jobs && d.jobs[j].version in d.versions && d.jobs[j].stage == v.db.jobs[j].stage
            && Matches(VersionOf(d, j).status, v.db.jobs[j].stage)
  {
    var v := Play(START, steps, j);
    ReachableOk(steps, j);
    StagesAgreeInEveryRun(steps, j);
    RowOf(v.db, j);
    ClaimCommits(v.db, j, w, v.now);
  }
}
