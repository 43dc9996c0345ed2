/** How often the sandbox probes for one job, over all its attempts, crashes and replays. */
module ProbeBudget {
  import opened Wrappers
  import opened ArtifactTypes
  import opened AgentTypes
  import opened Schema
  import opened Transactions
  import opened Coherence
  import opened Effects
  import opened Histories
  import opened ToolCalls
  import opened PlanIntegrity
  import opened Processes
  import opened Provenance
  import opened Collection

  // ---------------------------------------------------------------- probes of one call

  lemma EvaluateMetrics(env: Env, task: Request, ws: Workspace, audit: Audit, o: Oracle)
    ensures Evaluate(env, task, ws, audit, o).ws.metrics == ws.metrics
  {
  }

  lemma MutationProbesNothing(env: Env, task: Request, ws: Workspace, audit: Audit, c: Call, o: Oracle)
    requires Mutates(c)
    ensures ExecuteMutation(env, task, ws, audit, c, o).ws.metrics.probesRun == ws.metrics.probesRun
  {
    forall x: Workspace, a: Audit ensures Evaluate(env, task, x, a, o).ws.metrics == x.metrics {
      EvaluateMetrics(env, task, x, a, o);
    }
  }

  lemma QueryProbesOnce(env: Env, ws: Workspace, audit: Audit, c: Call, o: Oracle)
    requires !Mutates(c)
    ensures var r := ExecuteQuery(env, ws, audit, c, o);
            && ws.metrics.probesRun <= r.ws.metrics.probesRun <= ws.metrics.probesRun + 1
            && (r.ws.metrics.probesRun > ws.metrics.probesRun ==> r.execution == Continue && o.stageValidatingOk)
  {
    match c
    case Probe(_, _, _) =>
    case _ =>
  }

  /** A call probes at most once, only when the registry accepted the stage change, and then
      the agent goes on. */
  lemma ExecuteProbesOnce(env: Env, task: Request, ws: Workspace, audit: Audit, c: Call, o: Oracle)
    ensures var r := Execute(env, task, ws, audit, c, o);
            && ws.metrics.probesRun <= r.ws.metrics.probesRun <= ws.metrics.probesRun + 1
            && (r.ws.metrics.probesRun > ws.metrics.probesRun ==> r.execution == Continue && o.stageValidatingOk)
  {
    if Mutates(c) {
      MutationProbesNothing(env, task, ws, audit, c, o);
    } else {
      QueryProbesOnce(env, ws, audit, c, o);
    }
  }

  // ---------------------------------------------------------------- the invariant

  function Probes(a: Agent): nat {
    a.ws.metrics.probesRun
  }

  function SavedProbes(db: Db, j: JobId): nat {
    var c := SavedCheckpoint(db, j);
    if c.Some? then Probes(c.value.agent) else 0
  }

  function ProcOf(procs: map<ProcId, Proc>, j: JobId, w: Option<WorkerId>): Option<Proc> {
    if w.Some? && ProcId(j, w.value) in procs then Some(procs[ProcId(j, w.value)]) else None
  }

  const PROBE_LIMIT: nat := MAX_PROBES + MAX_JOB_ATTEMPTS - 1

  /** An attempt that loses its lease loses at most the probe it had not saved. */
  predicate RowBounded(job: Job, saved: nat, proc: Option<Proc>, count: nat) {
    match job.status
    case Queued => if job.stage == QueuedStage then count == saved == 0 else count + 1 <= saved + job.attempts
    case AwaitingInput => count + 1 <= saved + job.attempts
    case Running =>
      if proc.Some? then
        var live := Probes(proc.value.agent);
        job.attempts <= MAX_JOB_ATTEMPTS && saved <= live <= saved + 1 && count + 1 <= live + job.attempts
      else count <= saved + job.attempts
    case _ => true
  }

  predicate Bounded(s: Sys, j: JobId) {
    && ProbeCount(s, j) <= PROBE_LIMIT
    && (if j in s.db.jobs
        then RowBounded(s.db.jobs[j], SavedProbes(s.db, j), ProcOf(s.procs, j, s.db.jobs[j].worker), ProbeCount(s, j))
        else ProbeCount(s, j) == 0)
  }

  // ---------------------------------------------------------------- transactions without an agent

  /** The states a free transaction can move a job through. */
  predicate FreeRow(was: Option<Job>, now: Option<Job>) {
    match now
    case None => was.None?
    case Some(n) =>
      match was
      case None => n.status == Queued && n.stage == QueuedStage
      case Some(b) =>
        || (n.attempts == b.attempts && Terminal(n.status) && (n.status == Ready ==> b.status == Ready))
        || (n.attempts == b.attempts && n.status == b.status && n.worker == b.worker && (n.status == Queued ==> n.stage == b.stage))
        || (n.attempts == b.attempts && b.status == AwaitingInput && n.status == Queued && n.stage != QueuedStage)
  }

  function RowAt(db: Db, j: JobId): Option<Job> {
    if j in db.jobs then Some(db.jobs[j]) else None
  }

  lemma FreeOwnRow(db: Db, now: Time, a: Action, j: JobId)
    requires Coherent(db) && Free(a) && Attempt(db, now, a).Success? && JobOf(a) == Some(j)
    ensures FreeRow(RowAt(db, j), RowAt(Attempt(db, now, a).value, j))
  {
    match a
    case DoAnswer(_, id, answer, bytes) =>
      AnswerEffect(db, j, id, answer, bytes, now);
      assert InputOk(db, InputKey(j, db.pendingCall[j]));
    case DoCancel(_, reason, bytes) => CancelEffect(db, j, reason, bytes, now);
    case DoAppendEvent(_, w, kind, bytes) => AppendOwnEffect(db, j, w, kind, bytes);
    case DoSetStage(_, w, stage) => SetStageEffect(db, j, w, stage, now);
    case DoReject(_, w) => RejectEffect(db, j, w, now);
    case _ =>
  }

  lemma FreeRowKept(db: Db, now: Time, a: Action, j: JobId)
    requires Coherent(db) && Free(a) && Attempt(db, now, a).Success?
    ensures FreeRow(RowAt(db, j), RowAt(Attempt(db, now, a).value, j))
  {
    if JobOf(a) == Some(j) { FreeOwnRow(db, now, a, j); } else { Isolation(db, now, a, j); }
  }

  lemma OtherBounded(env: Env, s: Sys, a: Action, j: JobId)
    requires SysGood(env, s) && Bounded(s, j) && Free(a) && Attempt(s.db, s.now, a).Success?
    ensures Bounded(s.(db := Attempt(s.db, s.now, a).value), j)
  {
    FreeRowKept(s.db, s.now, a, j);
    CheckpointKept(s.db, s.now, a, j);
    assert RunOk(s.db, j);
  }

  // ---------------------------------------------------------------- the moves of processes

  /** What Bounded depends on. */
  ghost predicate SameFor(s: Sys, s': Sys, i: JobId) {
    && SameRow(s.db, s'.db, i) && ProbeCount(s', i) == ProbeCount(s, i)
    && forall w :: ProcOf(s'.procs, i, Some(w)) == ProcOf(s.procs, i, Some(w))
  }

  lemma SameForBounded(s: Sys, s': Sys, i: JobId)
    requires Bounded(s, i) && SameFor(s, s', i)
    ensures Bounded(s', i)
  {
    if i in s.db.jobs && s.db.jobs[i].worker.Some? {
      var w := s.db.jobs[i].worker.value;
      assert ProcOf(s'.procs, i, Some(w)) == ProcOf(s.procs, i, Some(w));
      assert s.db.jobs[i].worker == Some(w);
    }
  }

  /** One more attempt pays for a probe the last one lost; a resumed job lost none. */
  lemma ClaimBounds(job: Job, saved: nat, proc: Option<Proc>, count: nat, w: WorkerId, now: Time)
    requires RowBounded(job, saved, proc, count) && job.status in {Queued, Running}
    ensures count + 1 <= saved + ClaimedRow(job, w, LEASE, now).attempts
  {
  }

  lemma TakeElsewhere(s: Sys, j: JobId, w: WorkerId, i: JobId)
    requires Coherent(s.db) && Bounded(s, i) && i != j
    ensures Bounded(TakeNext(s, j, w), i)
  {
    if Claim(s.db, j, w, LEASE, s.now).Success? {
      TakeIsElsewhere(s, Claim(s.db, j, w, LEASE, s.now).value, j, w, i);
      SameForBounded(s, TakeNext(s, j, w), i);
    }
  }

  lemma TakeIsElsewhere(s: Sys, d: Db, j: JobId, w: WorkerId, i: JobId)
    requires Claim(s.db, j, w, LEASE, s.now) == Success(d) && i != j
    ensures SameFor(s, TakeNext(s, j, w), i)
  {
    ClaimEffect(s.db, j, w, s.now);
    RowIsolated(s.db, d, j, ClaimedRow(s.db.jobs[j], w, LEASE, s.now), i);
    TakeNextIs(s, s.(db := d, procs := s.procs - {ProcId(j, w)}), j, w);
  }

  lemma TakeBounded(s: Sys, j: JobId, w: WorkerId)
    requires Coherent(s.db) && Bounded(s, j)
    ensures Bounded(TakeNext(s, j, w), j)
  {
    var r := Claim(s.db, j, w, LEASE, s.now);
    if r.Success? {
      ClaimEffect(s.db, j, w, s.now);
      ClaimBounds(s.db.jobs[j], SavedProbes(s.db, j), ProcOf(s.procs, j, s.db.jobs[j].worker), ProbeCount(s, j), w, s.now);
      TakenBounded(s, r.value, j, w);
    }
  }

  lemma TakenBounded(s: Sys, d: Db, j: JobId, w: WorkerId)
    requires Claim(s.db, j, w, LEASE, s.now) == Success(d) && j in d.jobs && d.runs == s.db.runs
    requires ProbeCount(s, j) <= PROBE_LIMIT && d.jobs[j].status == Running && d.jobs[j].worker == Some(w)
    requires ProbeCount(s, j) + 1 <= SavedProbes(s.db, j) + d.jobs[j].attempts
    ensures Bounded(TakeNext(s, j, w), j)
  {
    assert SavedProbes(d, j) == SavedProbes(s.db, j);
    TakeNextIs(s, s.(db := d, procs := s.procs - {ProcId(j, w)}), j, w);
    if Started(d, j).Some? { assert Probes(Started(d, j).value) == SavedProbes(d, j); }
  }

  lemma CrashBounded(s: Sys, id: ProcId, i: JobId)
    requires Bounded(s, i)
    ensures Bounded(s.(procs := s.procs - {id}), i)
  {
  }

  lemma SaveBounded(s: Sys, j: JobId, w: WorkerId, i: JobId)
    requires Coherent(s.db) && Bounded(s, i)
    ensures Bounded(SaveNext(s, j, w), i)
  {
    var id := ProcId(j, w);
    if id in s.procs {
      var r := SaveCheckpoint(s.db, j, w, Saved(s.procs[id].agent));
      if r.Failure? {
        CrashBounded(s, id, i);
      } else {
        assert i != j ==> SavedCheckpoint(r.value, i) == SavedCheckpoint(s.db, i);
        assert SavedCheckpoint(r.value, j) == Some(Saved(s.procs[id].agent));
        assert r.value.jobs == s.db.jobs;
      }
    }
  }

  lemma SameProbesBounded(s: Sys, id: ProcId, p: Proc, i: JobId)
    requires Bounded(s, i) && id in s.procs && Probes(p.agent) == Probes(s.procs[id].agent)
    ensures Bounded(s.(procs := s.procs[id := p]), i)
  {
  }

  /** The owner's process, saved, has made as many probes as the saved checkpoint says. */
  lemma SavedOwner(env: Env, s: Sys, j: JobId, w: WorkerId)
    requires SysGood(env, s) && Bounded(s, j) && ProcId(j, w) in s.procs && s.procs[ProcId(j, w)].saved && Owns(s.db, j, w)
    ensures SavedProbes(s.db, j) == Probes(s.procs[ProcId(j, w)].agent) <= MAX_PROBES
    ensures ProbeCount(s, j) + 1 <= SavedProbes(s.db, j) + s.db.jobs[j].attempts && s.db.jobs[j].attempts <= MAX_JOB_ATTEMPTS
  {
    assert ProcGood(s, ProcId(j, w));
  }

  lemma SettledStale(s: Sys, j: JobId, w: WorkerId, task: Request, r: Outcome, o: Oracle, call: string, slip: Slip)
    requires j in s.db.jobs && !Owns(s.db, j, w)
    ensures var s' := Settled(s, j, w, task, r, o, call, slip);
            && s'.db == s.db && s'.probes == s.probes
            && forall u | u != w :: ProcOf(s'.procs, j, Some(u)) == ProcOf(s.procs, j, Some(u))
  {
  }

  /** A tool call of a process that is not the owner leaves rows, runs and counters alone. */
  lemma StaleToolBounded(env: Env, s: Sys, j: JobId, w: WorkerId, o: Oracle, slip: Slip)
    requires Bounded(s, j) && !Owns(s.db, j, w)
    ensures Bounded(ToolNext(env, s, j, w, o, slip), j)
  {
    var s' := ToolNext(env, s, j, w, o, slip);
    if s' != s {
      var a, task := s.procs[ProcId(j, w)].agent, TaskOf(s.db, j).value;
      var r, call := ResultOf(env, s, j, w, o), a.pending.value.id;
      ExecuteProbesOnce(env, task, a.ws, a.audit, a.pending.value.call, o);
      var s1 := Approving(s, j, w, o);
      SettledStale(s1, j, w, task, r, o, call, slip);
      ToolNextIs(env, s, j, w, o, slip);
      assert ProbeCount(s', j) == ProbeCount(s, j);
      StaleProcBounded(s, s', j, w);
    }
  }

  lemma StaleProcBounded(s: Sys, s': Sys, j: JobId, w: WorkerId)
    requires Bounded(s, j) && !Owns(s.db, j, w) && ProbeCount(s', j) == ProbeCount(s, j)
    requires s'.db.jobs == s.db.jobs && s'.db.runs == s.db.runs
    requires forall u | u != w :: ProcOf(s'.procs, j, Some(u)) == ProcOf(s.procs, j, Some(u))
    ensures Bounded(s', j)
  {
    if j in s.db.jobs && s.db.jobs[j].worker.Some? && s.db.jobs[j].worker != Some(w) {
      var u := s.db.jobs[j].worker.value;
      assert ProcOf(s'.procs, j, Some(u)) == ProcOf(s.procs, j, Some(u));
      assert s.db.jobs[j].worker == Some(u);
    }
  }

  lemma OwnerToolBounded(env: Env, s: Sys, j: JobId, w: WorkerId, o: Oracle, slip: Slip)
    requires SysGood(env, s) && Bounded(s, j) && Owns(s.db, j, w)
    ensures Bounded(ToolNext(env, s, j, w, o, slip), j)
  {
    if Runs(s, j, w, o) {
      assert ProcGood(s, ProcId(j, w));
      SavedOwner(env, s, j, w);
      var a, task := s.procs[ProcId(j, w)].agent, TaskOf(s.db, j).value;
      var r, call := ResultOf(env, s, j, w, o), a.pending.value.id;
      ExecuteProbesOnce(env, task, a.ws, a.audit, a.pending.value.call, o);
      ExecuteKeeps(env, task, a.ws, a.audit, a.pending.value.call, o);
      ToolNextIs(env, s, j, w, o, slip);
      SettledBounded(Approving(s, j, w, o), j, w, task, r, o, call, slip, ProbeCount(s, j) + r.ws.metrics.probesRun - a.ws.metrics.probesRun);
    }
  }

  lemma SettledBounded(s: Sys, j: JobId, w: WorkerId, task: Request, r: Outcome, o: Oracle, call: string, slip: Slip, count: nat)
    requires Owns(s.db, j, w) && ProcId(j, w) in s.procs && count <= PROBE_LIMIT
    requires count + 1 <= r.ws.metrics.probesRun + s.db.jobs[j].attempts && s.db.jobs[j].attempts <= MAX_JOB_ATTEMPTS
    requires SavedProbes(s.db, j) <= r.ws.metrics.probesRun <= SavedProbes(s.db, j) + 1
    requires r.execution != Continue ==> r.ws.metrics.probesRun == SavedProbes(s.db, j)
    ensures Bounded(Settled(s, j, w, task, r, o, call, slip).(probes := s.probes[j := count]), j)
  {
    var s' := Settled(s, j, w, task, r, o, call, slip).(probes := s.probes[j := count]);
    match r.execution
    case Continue =>
    case Failed(_) =>
    case Suspended(kind, context) =>
      var result := Suspend(s.db, j, w, Question(call, slip, kind, context), s.now);
      if result.Success? {
        SuspendEffect(s.db, j, w, Question(call, slip, kind, context), s.now);
        assert s'.db == result.value;
      }
    case Published(b) =>
      var result := Publish(s.db, j, w, Artifact(b), s.now);
      if result.Success? {
        PublishEffect(s.db, j, w, Artifact(b), s.now);
        assert s'.db == result.value && s'.db.jobs[j].status == Ready;
      }
  }

  lemma SettledElsewhere(s: Sys, j: JobId, w: WorkerId, task: Request, r: Outcome, o: Oracle, call: string, slip: Slip, i: JobId)
    requires i != j && j in s.db.jobs
    ensures SameFor(s, Settled(s, j, w, task, r, o, call, slip), i)
  {
    match r.execution
    case Suspended(kind, context) => AskedElsewhere(s, j, w, Question(call, slip, kind, context), i);
    case Published(b) => PublishedElsewhere(s, j, w, b, i);
    case _ =>
  }

  lemma AskedElsewhere(s: Sys, j: JobId, w: WorkerId, input: NewInput, i: JobId)
    requires i != j
    ensures SameRow(s.db, After(s.db, Suspend(s.db, j, w, input, s.now)), i)
  {
    if Suspend(s.db, j, w, input, s.now).Success? { SuspendIsolated(s.db, j, w, input, s.now, i); }
  }

  lemma PublishedElsewhere(s: Sys, j: JobId, w: WorkerId, b: Bundle, i: JobId)
    requires i != j
    ensures SameRow(s.db, After(s.db, Publish(s.db, j, w, Artifact(b), s.now)), i)
  {
    if Publish(s.db, j, w, Artifact(b), s.now).Success? { PublishIsolated(s.db, j, w, Artifact(b), s.now, i); }
  }

  /** A tool call for another job. */
  lemma ForeignToolBounded(env: Env, s: Sys, j: JobId, w: WorkerId, o: Oracle, slip: Slip, i: JobId)
    requires Bounded(s, i) && i != j
    ensures Bounded(ToolNext(env, s, j, w, o, slip), i)
  {
    var s' := ToolNext(env, s, j, w, o, slip);
    if s' != s {
      var a, task := s.procs[ProcId(j, w)].agent, TaskOf(s.db, j).value;
      var r, call := ResultOf(env, s, j, w, o), a.pending.value.id;
      SettledElsewhere(Approving(s, j, w, o), j, w, task, r, o, call, slip, i);
      ToolNextIs(env, s, j, w, o, slip);
      assert ProbeCount(s', i) == ProbeCount(s, i);
      SameForBounded(s, s', i);
    }
  }

  // ---------------------------------------------------------------- every run

  lemma TurnBounded(s: Sys, j: JobId, w: WorkerId, p: PendingCall, i: JobId)
    requires Bounded(s, i)
    ensures Bounded(TurnNext(s, j, w, p), i)
  {
    if TurnNext(s, j, w, p) != s { SameProbesBounded(s, ProcId(j, w), TurnNext(s, j, w, p).procs[ProcId(j, w)], i); }
  }

  lemma RefuseBounded(s: Sys, j: JobId, w: WorkerId, i: JobId)
    requires Bounded(s, i)
    ensures Bounded(RefuseNext(s, j, w), i)
  {
    if RefuseNext(s, j, w) != s { SameProbesBounded(s, ProcId(j, w), RefuseNext(s, j, w).procs[ProcId(j, w)], i); }
  }

  lemma ToolBounded(env: Env, s: Sys, j: JobId, w: WorkerId, o: Oracle, slip: Slip, i: JobId)
    requires SysGood(env, s) && Bounded(s, i)
    ensures Bounded(ToolNext(env, s, j, w, o, slip), i)
  {
    if i != j {
      ForeignToolBounded(env, s, j, w, o, slip, i);
    } else if Owns(s.db, j, w) {
      OwnerToolBounded(env, s, j, w, o, slip);
    } else {
      StaleToolBounded(env, s, j, w, o, slip);
    }
  }

  lemma MoveBounded(env: Env, s: Sys, m: Move, i: JobId)
    requires SysGood(env, s) && Bounded(s, i)
    ensures Bounded(Move1(env, s, m), i)
  {
    match m
    case Pass(_) =>
    case Other(a) => if Free(a) && Attempt(s.db, s.now, a).Success? { OtherBounded(env, s, a, i); }
    case Take(j, w) => if i == j { TakeBounded(s, j, w); } else { TakeElsewhere(s, j, w, i); }
    case Save(j, w) => SaveBounded(s, j, w, i);
    case Turn(j, w, p) => TurnBounded(s, j, w, p, i);
    case RefuseBatch(j, w) => RefuseBounded(s, j, w, i);
    case UseTool(j, w, o, slip) => ToolBounded(env, s, j, w, o, slip, i);
    case Crash(j, w) => CrashBounded(s, ProcId(j, w), i);
  }

  /** With a checkpoint before every tool call, over all attempts of a job, whatever leases are
      lost and wherever workers crash, the sandbox probes at most five times: the three an
      agent may make, and one lost with each of the first two attempts. */
  lemma {:induction false} FiveProbesPerJob(env: Env, moves: seq<Move>, j: JobId)
    ensures Bounded(Moves(env, IDLE, moves), j) && ProbeCount(Moves(env, IDLE, moves), j) <= 5
  {
    if moves != [] {
      FiveProbesPerJob(env, moves[..|moves| - 1], j);
      MovesGood(env, moves[..|moves| - 1]);
      MoveBounded(env, Moves(env, IDLE, moves[..|moves| - 1]), moves[|moves| - 1], j);
    }
  }
}
