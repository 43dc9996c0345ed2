/** Who may write a job: fencing after a claim, leases, and the number of attempts. */
module Ownership {
  import opened Wrappers
  import opened Schema
  import opened Transactions
  import opened Effects
  import opened Histories
  import opened Endings

  // ---------------------------------------------------------------- fencing

  /** A write of worker w as the owner of job j. */
  predicate OwnerWrite(a: Action, j: JobId, w: WorkerId) {
    match a
    case DoRenew(i, u) => i == j && u == w
    case DoSetStage(i, u, _) => i == j && u == w
    case DoSuspend(i, u, _) => i == j && u == w
    case DoSaveCheckpoint(i, u, _) => i == j && u == w
    case DoAppendEvent(i, u, _, _) => i == j && u == w
    case DoSaveContract(i, u, _) => i == j && u == w
    case DoPublish(i, u, _) => i == j && u == w
    case DoReject(i, u) => i == j && u == w
    case _ => false
  }

  /** Worker w makes no claim of job j. */
  predicate NeverClaims(steps: seq<Step>, j: JobId, w: WorkerId) {
    forall i | 0 <= i < |steps| :: steps[i] != Act(DoClaim(j, w))
  }

  /** Every owner write that succeeds comes from the worker of the latest claim. */
  lemma WriterIsLatestClaimer(w: World, j: JobId, u: WorkerId, a: Action)
    requires WorldOk(w, j) && OwnerWrite(a, j, u)
    ensures Attempt(w.db, w.now, a).Success? ==> w.h.claimer == Some(u)
    ensures w.h.claimer != Some(u) ==> Attempt(w.db, w.now, a) == Failure(JobLeaseLost)
  {
    match a
    case DoSetStage(_, _, _) =>
    case DoSuspend(_, _, _) =>
    case DoPublish(_, _, _) =>
    case _ =>
  }

  lemma ClaimerStays(w: World, s: Step, j: JobId, u: WorkerId)
    requires w.h.claimer != Some(u) && s != Act(DoClaim(j, u))
    ensures Next(w, s, j).h.claimer != Some(u)
  {
  }

  lemma {:induction false} StillNotClaimer(w: World, steps: seq<Step>, j: JobId, u: WorkerId)
    requires w.h.claimer != Some(u) && NeverClaims(steps, j, u)
    ensures Play(w, steps, j).h.claimer != Some(u)
  {
    if steps != [] {
      var front := steps[..|steps| - 1];
      assert forall i | 0 <= i < |front| :: front[i] == steps[i];
      StillNotClaimer(w, front, j, u);
      ClaimerStays(Play(w, front, j), steps[|steps| - 1], j, u);
    }
  }

  /** Once another worker has claimed the job, every write of the old owner fails with
      JobLeaseLost, whatever else happens, until the old owner claims the job again. */
  lemma OldOwnerIsFenced(w: World, j: JobId, u: WorkerId, successor: WorkerId, steps: seq<Step>, a: Action)
    requires WorldOk(w, j) && u != successor && Attempt(w.db, w.now, DoClaim(j, successor)).Success?
    requires WorkerStages(steps) && NeverClaims(steps, j, u) && OwnerWrite(a, j, u)
    ensures var v := Play(Next(w, Act(DoClaim(j, successor)), j), steps, j);
            Attempt(v.db, v.now, a) == Failure(JobLeaseLost)
  {
    var w1 := Next(w, Act(DoClaim(j, successor)), j);
    NextKeeps(w, Act(DoClaim(j, successor)), j);
    assert w1.h.claimer == Some(successor);
    StillNotClaimer(w1, steps, j, u);
    RunKeeps(w1, steps, j);
    WriterIsLatestClaimer(Play(w1, steps, j), j, u, a);
  }

  // ---------------------------------------------------------------- leases

  /** While the job runs, its owner has touched it within the last 300 seconds. */
  predicate Touched(w: World, j: JobId) {
    j in w.db.jobs && w.db.jobs[j].status == Running ==> w.now <= w.h.touched + LEASE
  }

  ghost predicate Timely(w: World, steps: seq<Step>, j: JobId) {
    forall n | 0 <= n <= |steps| :: Touched(Play(w, steps[..n], j), j)
  }

  predicate NeverSuspends(steps: seq<Step>, j: JobId) {
    forall i | 0 <= i < |steps| :: !(steps[i].Act? && steps[i].action.DoSuspend? && steps[i].action.job == j)
  }

  /** A running job can be claimed exactly when its owner has not touched it for more than 300
      seconds. */
  lemma RunningClaimableExactly(w: World, j: JobId)
    requires WorldOk(w, j) && j in w.db.jobs && w.db.jobs[j].status == Running
    ensures Claimable(w.db, j, w.now) <==> w.now > w.h.touched + LEASE
  {
  }

  predicate HeldBy(db: Db, j: JobId, u: WorkerId) {
    j in db.jobs && (Terminal(db.jobs[j].status) || Owns(db, j, u))
  }

  lemma HeldStep(w: World, s: Step, j: JobId, u: WorkerId)
    requires WorldOk(w, j) && HeldBy(w.db, j, u) && Touched(w, j)
    requires NeverSuspends([s], j)
    ensures HeldBy(Next(w, s, j).db, j, u) && Next(w, s, j).h.claims == w.h.claims
  {
    assert [s][0] == s;
    if s.Act? && Attempt(w.db, w.now, s.action).Success? {
      if JobOf(s.action) != Some(j) {
        Isolation(w.db, w.now, s.action, j);
      } else if Terminal(w.db.jobs[j].status) {
        TerminalRowKept(w.db, w.now, s.action, j);
      } else {
        HeldOwnStep(w.db, w.now, s.action, j, u);
      }
    }
  }

  lemma HeldOwnStep(db: Db, now: Time, a: Action, j: JobId, u: WorkerId)
    requires Attempt(db, now, a).Success? && JobOf(a) == Some(j) && !a.DoSuspend?
    requires Owns(db, j, u) && !Claimable(db, j, now)
    ensures HeldBy(Attempt(db, now, a).value, j, u) && !a.DoClaim?
  {
    match a
    case DoCancel(_, reason, bytes) => CancelEffect(db, j, reason, bytes, now);
    case DoPublish(_, w, artifact) => PublishEffect(db, j, w, artifact, now);
    case DoAppendEvent(_, w, kind, bytes) => AppendOwnEffect(db, j, w, kind, bytes);
    case DoSetStage(_, w, stage) => SetStageEffect(db, j, w, stage, now);
    case DoReject(_, w) => RejectEffect(db, j, w, now);
    case DoAnswer(_, id, answer, bytes) => AnswerEffect(db, j, id, answer, bytes, now);
    case _ =>
  }

  /** While its owner renews the lease or changes the stage within each 300 seconds and does
      not suspend the job, no other worker can claim it: the owner keeps it until it ends, and
      nobody claims it after that, however long the run goes on. */
  lemma {:induction false} RenewedLeaseKeepsOwner(w: World, steps: seq<Step>, j: JobId, u: WorkerId)
    requires WorldOk(w, j) && Owns(w.db, j, u) && WorkerStages(steps)
    requires NeverSuspends(steps, j) && Timely(w, steps, j)
    ensures var v := Play(w, steps, j);
            HeldBy(v.db, j, u) && v.h.claims == w.h.claims
  {
    if steps != [] {
      var front, last := steps[..|steps| - 1], steps[|steps| - 1];
      assert forall i | 0 <= i < |front| :: front[i] == steps[i];
      assert Timely(w, front, j) by {
        forall n | 0 <= n <= |front| ensures front[..n] == steps[..n] {}
      }
      RenewedLeaseKeepsOwner(w, front, j, u);
      RunKeeps(w, front, j);
      assert steps[..|steps| - 1] == front;
      HeldStep(Play(w, front, j), last, j, u);
    }
  }

  // ---------------------------------------------------------------- attempts

  /** In every run, claims = attempts + claims made after an answer; and a job that was not
      rejected has been answered once per such claim and once more when it is about to be
      resumed. */
  lemma AttemptsConserved(steps: seq<Step>, j: JobId)
    requires WorkerStages(steps) && j in Play(START, steps, j).db.jobs
    ensures var v := Play(START, steps, j); var job := v.db.jobs[j];
            && v.h.claims == job.attempts + v.h.resumes
            && (job.status != Rejected ==> v.h.answers == v.h.resumes + if Resumes(job) then 1 else 0)
            && v.h.resumes <= v.h.answers <= v.h.resumes + 1
  {
    ReachableOk(steps, j);
  }
}
