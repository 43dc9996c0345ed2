/** How a job ends: cancellation, the two statements of set_job_stage, and the finality of a
    terminal job. */
module Endings {
  import opened Wrappers
  import opened AgentTypes
  import opened Schema
  import opened Transactions
  import opened Coherence
  import opened Effects
  import opened Histories
  import opened Text

  // ---------------------------------------------------------------- terminal jobs

  lemma TerminalOwnRowKept(db: Db, now: Time, a: Action, j: JobId)
    requires Coherent(db) && Attempt(db, now, a).Success? && JobOf(a) == Some(j)
    requires j in db.jobs && Terminal(db.jobs[j].status)
    ensures j in Attempt(db, now, a).value.jobs && Attempt(db, now, a).value.jobs[j] == db.jobs[j]
  {
    match a
    case DoAppendEvent(_, w, kind, bytes) => AppendOwnEffect(db, j, w, kind, bytes);
    case DoAnswer(_, id, answer, bytes) => AnswerEffect(db, j, id, answer, bytes, now);
    case _ =>
  }

  /** Nothing changes the row of a terminal job. */
  lemma TerminalRowKept(db: Db, now: Time, a: Action, j: JobId)
    requires Coherent(db) && Attempt(db, now, a).Success?
    requires j in db.jobs && Terminal(db.jobs[j].status)
    ensures j in Attempt(db, now, a).value.jobs && Attempt(db, now, a).value.jobs[j] == db.jobs[j]
  {
    if JobOf(a) == Some(j) {
      TerminalOwnRowKept(db, now, a, j);
    } else {
      Isolation(db, now, a, j);
    }
  }

  /** A job that is ready or rejected keeps its row through every later run, and its version
      stays rejected, or goes at most from ready to revoked. */
  lemma {:induction false} TerminalForever(w: World, steps: seq<Step>, j: JobId)
    requires WorldOk(w, j) && WorkerStages(steps)
    requires j in w.db.jobs && Terminal(w.db.jobs[j].status)
    ensures var d := Play(w, steps, j).db;
            && j in d.jobs && d.jobs[j] == w.db.jobs[j] && d.jobs[j].version in d.versions
            && d.versions[d.jobs[j].version].status in
                 (if d.jobs[j].status == Ready then {ReadyVersion, Revoked} else {RejectedVersion})
  {
    if steps == [] {
      RowOf(w.db, j);
    } else {
      var front, last := steps[..|steps| - 1], steps[|steps| - 1];
      assert forall i | 0 <= i < |front| :: front[i] == steps[i];
      TerminalForever(w, front, j);
      var v := Play(w, front, j);
      RunKeeps(w, front, j);
      NextKeeps(v, last, j);
      if last.Act? && Attempt(v.db, v.now, last.action).Success? {
        TerminalRowKept(v.db, v.now, last.action, j);
      }
      RowOf(Next(v, last, j).db, j);
    }
  }

  // ---------------------------------------------------------------- cancellation

  /** A job can be cancelled exactly when the reason is acceptable, the job is not terminal and
      some worker has already saved a checkpoint of it: the cancellation event needs a run. */
  lemma CancelExactly(db: Db, j: JobId, reason: string, bytes: nat, now: Time)
    requires Coherent(db)
    ensures Cancel(db, j, reason, bytes, now).Success? <==>
              && !Blank(reason) && |Trim(reason)| <= 4096
              && j in db.jobs && !Terminal(db.jobs[j].status) && j in db.runs
    ensures !Blank(reason) && |Trim(reason)| <= 4096 && j in db.jobs && !Terminal(db.jobs[j].status) && j !in db.runs ==>
              Cancel(db, j, reason, bytes, now) == Failure(InvariantViolated)
  {
    if j in db.jobs { CancelledEffect(db, j, reason, now); }
  }

  /** A job nobody has claimed yet cannot be cancelled. */
  lemma FreshJobCannotBeCancelled(name: string, request: Request, key: string, j: JobId, reason: string, bytes: nat, now: Time)
    requires !Blank(reason) && |Trim(reason)| <= 4096
    ensures var db := Registered(EMPTY, name, request, key, j, now);
            && Register(EMPTY, name, request, key, j, now) == Success(db)
            && db.jobs[j].status == Queued
            && Cancel(db, j, reason, bytes, now) == Failure(InvariantViolated)
  {
    var db := Registered(EMPTY, name, request, key, j, now);
    CancelledEffect(db, j, reason, now);
    assert Register(EMPTY, name, request, key, j, now) == Success(db);
  }

  // ---------------------------------------------------------------- set_job_stage

  lemma SecondStatementKeeps(db: Db, j: JobId, stage: JobStage)
    requires Coherent(db) && Working(stage) && j in db.jobs
    requires !Terminal(db.jobs[j].status) && db.jobs[j].stage != QueuedStage
    ensures Coherent(SetStageVersion(db, j, stage))
  {
    RowOf(db, j);
    assert WithJob(db, j, db.jobs[j]) == db by { assert db.jobs[j := db.jobs[j]] == db.jobs; }
    MoveWithVersion(db, SetStageVersion(db, j, stage), j, db.jobs[j], StageVersionStatus(stage).value);
  }

  /** What the second statement does to the version of job j. */
  lemma SecondStatementEffect(db: Db, j: JobId, stage: JobStage)
    requires Working(stage) && j in db.jobs && db.jobs[j].version in db.versions
    ensures var d := SetStageVersion(db, j, stage);
            && d.jobs == db.jobs && d.tools == db.tools && d.pendingCall == db.pendingCall
            && db.jobs[j].version in d.versions && Busy(d.versions[db.jobs[j].version].status)
  {
  }

  lemma SecondStatementBreaks(db: Db, j: JobId, stage: JobStage)
    requires Working(stage) && j in db.jobs && db.jobs[j].version in db.versions
    requires Terminal(db.jobs[j].status) || (db.jobs[j].status == Queued && db.jobs[j].stage == QueuedStage)
    ensures !RowsOk(SetStageVersion(db, j, stage))
  {
    SecondStatementEffect(db, j, stage);
    assert !RowOk(SetStageVersion(db, j, stage), j);
  }

  /** The second statement of set_job_stage keeps the tables coherent exactly when the job is,
      by then, neither terminal nor queued for its first claim. */
  lemma SecondStatementExactly(db: Db, j: JobId, stage: JobStage)
    requires Coherent(db) && Working(stage) && j in db.jobs
    ensures Coherent(SetStageVersion(db, j, stage)) <==>
              !Terminal(db.jobs[j].status) && db.jobs[j].stage != QueuedStage
  {
    RowOf(db, j);
    if !Terminal(db.jobs[j].status) && db.jobs[j].stage != QueuedStage {
      SecondStatementKeeps(db, j, stage);
    } else {
      SecondStatementBreaks(db, j, stage);
    }
  }

  /** A cancellation between the two statements always leaves a rejected job whose version is
      being built again. */
  lemma CancelBetweenStatements(db: Db, db1: Db, db2: Db, j: JobId, w: WorkerId, stage: JobStage, reason: string,
                                bytes: nat, now: Time, later: Time)
    requires Coherent(db) && Working(stage) && SetStageRow(db, j, w, stage, now) == Success(db1)
    requires Cancel(db1, j, reason, bytes, later) == Success(db2)
    ensures var db3 := SetStageVersion(db2, j, stage);
            && j in db3.jobs && db3.jobs[j].status == Rejected && db3.jobs[j].version in db3.versions
            && Busy(db3.versions[db3.jobs[j].version].status) && !RowsOk(db3)
  {
    FirstStatementCoherent(db, j, w, stage, now);
    CancelledVersion(db1, j, reason, bytes, later);
    SecondStatementEffect(db2, j, stage);
    SecondStatementBreaks(db2, j, stage);
  }

  lemma CancelledVersion(db: Db, j: JobId, reason: string, bytes: nat, now: Time)
    requires Coherent(db) && Cancel(db, j, reason, bytes, now).Success?
    ensures var d := Cancel(db, j, reason, bytes, now).value;
            j in d.jobs && d.jobs[j].status == Rejected && d.jobs[j].version in d.versions
  {
    CancelCoherent(db, j, reason, bytes, now);
    CancelEffect(db, j, reason, bytes, now);
    RowOf(Cancel(db, j, reason, bytes, now).value, j);
  }

  lemma FirstStatementCoherent(db: Db, j: JobId, w: WorkerId, stage: JobStage, now: Time)
    requires Coherent(db) && Working(stage) && SetStageRow(db, j, w, stage, now).Success?
    ensures Coherent(SetStageRow(db, j, w, stage, now).value)
  {
    var d := SetStageRow(db, j, w, stage, now).value;
    RowOf(db, j);
    RowChanges(db, d, j, d.jobs[j]);
    ChangedInputsOk(db, d, j);
    MoveCoherent(db, d, j);
  }

  /** The world after worker a has run the first statement alone. */
  function FirstStatement(w: World, j: JobId, a: WorkerId, stage: JobStage): World
    requires SetStageRow(w.db, j, a, stage, w.now).Success?
  {
    World(SetStageRow(w.db, j, a, stage, w.now).value, w.now, w.h.(touched := w.now))
  }

  lemma FirstStatementOk(w: World, j: JobId, a: WorkerId, stage: JobStage)
    requires WorldOk(w, j) && Working(stage) && SetStageRow(w.db, j, a, stage, w.now).Success?
    ensures WorldOk(FirstStatement(w, j, a, stage), j)
  {
    FirstStatementCoherent(w.db, j, a, stage, w.now);
  }

  /** Worker a runs the first statement; then, in any run of other steps, its lease is lost and
      another worker b publishes the job; then a runs the second statement.  The published tool
      cannot be resolved, although a stable revision is named. */
  lemma PublishBetweenStatements(w: World, j: JobId, a: WorkerId, stage: JobStage, steps: seq<Step>, b: WorkerId,
                                 artifact: PublishedArtifact)
    requires WorldOk(w, j) && Working(stage) && SetStageRow(w.db, j, a, stage, w.now).Success?
    requires WorkerStages(steps) && b != a
    requires var v := Play(FirstStatement(w, j, a, stage), steps, j); Publish(v.db, j, b, artifact, v.now).Success?
    ensures var v := Play(FirstStatement(w, j, a, stage), steps, j);
            var d := SetStageVersion(Publish(v.db, j, b, artifact, v.now).value, j, stage); var k := v.db.jobs[j].version;
            && w.h.claimer == Some(a) && v.h.claimer == Some(b)
            && j in d.jobs && d.jobs[j].status == Ready && d.jobs[j].version == k
            && k.tool in d.tools && d.tools[k.tool].stable == Some(k.revision)
            && ResolveTool(d, k.tool, None) == Failure(ToolNotReady) && !RowsOk(d)
  {
    FirstStatementOk(w, j, a, stage);
    RunKeeps(FirstStatement(w, j, a, stage), steps, j);
    var v := Play(FirstStatement(w, j, a, stage), steps, j);
    var published := Publish(v.db, j, b, artifact, v.now).value;
    PublishedVersion(v.db, j, b, artifact, v.now);
    SecondStatementEffect(published, j, stage);
    SecondStatementBreaks(published, j, stage);
    Unresolvable(SetStageVersion(published, j, stage), v.db.jobs[j].version);
  }

  lemma Unresolvable(db: Db, k: VersionKey)
    requires k in db.versions && Busy(db.versions[k].status)
    requires k.tool in db.tools && db.tools[k.tool].stable == Some(k.revision)
    ensures ResolveTool(db, k.tool, None) == Failure(ToolNotReady)
  {
    assert k == VersionKey(k.tool, k.revision);
  }

  lemma PublishedVersion(db: Db, j: JobId, w: WorkerId, a: PublishedArtifact, now: Time)
    requires Coherent(db) && Publish(db, j, w, a, now).Success?
    ensures var d := Publish(db, j, w, a, now).value; var k := db.jobs[j].version;
            && j in d.jobs && d.jobs[j].status == Ready && d.jobs[j].version == k && k in d.versions
            && k.tool in d.tools && d.tools[k.tool].stable == Some(k.revision)
  {
    RowOf(db, j);
    PublishEffect(db, j, w, a, now);
  }
}
