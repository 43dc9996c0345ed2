/** Every published version rests on evidence: over every run of registry and processes. */
module Provenance {
  import opened Wrappers
  import opened ArtifactTypes
  import opened AgentTypes
  import opened Schema
  import opened Transactions
  import opened Coherence
  import opened Effects
  import opened Histories
  import opened Revisions
  import opened ToolCalls
  import opened PlanIntegrity
  import opened PublicationGate
  import opened Collection
  import opened Processes
  import Approvals

  // ---------------------------------------------------------------- what transactions leave alone

  predicate Issued(status: VersionStatus) {
    status in {ReadyVersion, Revoked}
  }

  /** The request of a version stays; only a publication makes a version ready, and nothing
      changes the contract or the digest of one that is. */
  predicate VersionStep(db: Db, d: Db, k: VersionKey) {
    && (k in db.versions ==> k in d.versions && d.versions[k].request == db.versions[k].request)
    && (k in d.versions && Issued(d.versions[k].status) ==>
          && k in db.versions && Issued(db.versions[k].status)
          && d.versions[k].digest == db.versions[k].digest && d.versions[k].contract == db.versions[k].contract)
  }

  lemma MoveVersionStep(db: Db, j: JobId, row: Job, status: VersionStatus, k: VersionKey)
    requires j in db.jobs && row.version == db.jobs[j].version
    requires !Issued(status) || (row.version in db.versions && db.versions[row.version].status == status)
    ensures VersionStep(db, WithVersionStatus(WithJob(db, j, row), j, status), k)
  {
  }

  lemma ClaimVersionStep(db: Db, j: JobId, w: WorkerId, now: Time, k: VersionKey)
    requires Claim(db, j, w, LEASE, now).Success?
    ensures VersionStep(db, Claim(db, j, w, LEASE, now).value, k)
  {
    if db.jobs[j].version in db.versions {
      MoveVersionStep(db, j, ClaimedRow(db.jobs[j], w, LEASE, now), ClaimedStatus(db.versions[db.jobs[j].version].status), k);
    }
  }

  lemma SetStageVersionStep(db: Db, j: JobId, w: WorkerId, stage: JobStage, now: Time, k: VersionKey)
    requires SetStage(db, j, w, stage, now).Success?
    ensures VersionStep(db, SetStage(db, j, w, stage, now).value, k)
  {
    if StageVersionStatus(stage).Some? {
      MoveVersionStep(db, j, StagedRow(db.jobs[j], stage, now), StageVersionStatus(stage).value, k);
    }
  }

  lemma CancelVersionStep(db: Db, j: JobId, reason: string, bytes: nat, now: Time, k: VersionKey)
    requires Cancel(db, j, reason, bytes, now).Success?
    ensures VersionStep(db, Cancel(db, j, reason, bytes, now).value, k)
  {
    CancelEffect(db, j, reason, bytes, now);
    MoveVersionStep(db, j, CancelledRow(db.jobs[j], now), RejectedVersion, k);
  }

  lemma RevokeVersionStep(db: Db, tool: string, revision: nat, k: VersionKey)
    requires Coherent(db) && RevokeVersion(db, tool, revision).Success?
    ensures VersionStep(db, RevokeVersion(db, tool, revision).value, k)
  {
    var j := RevokedJob(db, VersionKey(tool, revision));
  }

  lemma VersionKept(db: Db, now: Time, a: Action, k: VersionKey)
    requires Coherent(db) && Attempt(db, now, a).Success? && !a.DoPublish?
    ensures VersionStep(db, Attempt(db, now, a).value, k)
  {
    match a
    case DoClaim(j, w) => ClaimVersionStep(db, j, w, now, k);
    case DoSetStage(j, w, stage) => SetStageVersionStep(db, j, w, stage, now, k);
    case DoReject(j, w) => MoveVersionStep(db, j, RejectedRow(db.jobs[j], now), RejectedVersion, k);
    case DoCancel(j, reason, bytes) => CancelVersionStep(db, j, reason, bytes, now, k);
    case DoRevoke(tool, revision) => RevokeVersionStep(db, tool, revision, k);
    case DoSuspend(j, w, input) => SuspendEffect(db, j, w, input, now);
    case DoAnswer(j, id, answer, bytes) => AnswerEffect(db, j, id, answer, bytes, now);
    case DoAppendEvent(j, w, kind, bytes) => AppendOwnEffect(db, j, w, kind, bytes);
    case DoSaveContract(j, _, _) => RowOf(db, j);
    case _ =>
  }

  /** Only saving changes a checkpoint. */
  lemma CheckpointKept(db: Db, now: Time, a: Action, j: JobId)
    requires Attempt(db, now, a).Success? && !a.DoSaveCheckpoint?
    ensures SavedCheckpoint(Attempt(db, now, a).value, j) == SavedCheckpoint(db, j)
  {
    if JobOf(a) != Some(j) {
      Isolation(db, now, a, j);
    } else {
      OwnCheckpointKept(db, now, a, j);
    }
  }

  lemma OwnCheckpointKept(db: Db, now: Time, a: Action, j: JobId)
    requires Attempt(db, now, a).Success? && !a.DoSaveCheckpoint? && JobOf(a) == Some(j)
    ensures SavedCheckpoint(Attempt(db, now, a).value, j) == SavedCheckpoint(db, j)
  {
    match a
    case DoSuspend(_, w, input) => SuspendEffect(db, j, w, input, now);
    case DoAnswer(_, id, answer, bytes) => AnswerEffect(db, j, id, answer, bytes, now);
    case DoCancel(_, reason, bytes) => CancelEffect(db, j, reason, bytes, now);
    case DoAppendEvent(_, w, kind, bytes) => AppendOwnEffect(db, j, w, kind, bytes);
    case DoPublish(_, w, artifact) => PublishEffect(db, j, w, artifact, now);
    case DoClaim(_, w) => ClaimEffect(db, j, w, now);
    case DoSetStage(_, w, stage) => SetStageEffect(db, j, w, stage, now);
    case DoReject(_, w) => RejectEffect(db, j, w, now);
    case _ =>
  }

  lemma PublishedVersionStep(db: Db, j: JobId, w: WorkerId, a: PublishedArtifact, now: Time, k: VersionKey)
    requires Coherent(db) && Publish(db, j, w, a, now).Success?
    ensures var d := Publish(db, j, w, a, now).value;
            && db.jobs[j].version in db.versions
            && (k != db.jobs[j].version ==> VersionStep(db, d, k))
            && (k == db.jobs[j].version ==>
                  && k in d.versions && d.versions[k].request == db.versions[k].request
                  && d.versions[k].digest == Some(a.digest) && d.versions[k].contract == Some(a.contract))
  {
    RowOf(db, j);
    PublishEffect(db, j, w, a, now);
  }

  /** The request of a job never changes. */
  lemma TaskKept(db: Db, now: Time, a: Action, j: JobId)
    requires Coherent(db) && Attempt(db, now, a).Success? && TaskOf(db, j).Some?
    ensures TaskOf(Attempt(db, now, a).value, j) == TaskOf(db, j)
  {
    IdentityKept(db, now, a, j);
    var k := db.jobs[j].version;
    if a.DoPublish? {
      PublishedVersionStep(db, a.job, a.worker, a.artifact, now, k);
    } else {
      VersionKept(db, now, a, k);
    }
  }

  // ---------------------------------------------------------------- the invariant

  ghost predicate AgentGood(task: Request, a: Agent) {
    AgentOk(task, a.ws, a.audit) && (a.pending.Some? ==> Advertised(a.ws, a.pending.value.call))
  }

  /** A process holds a good agent, and when it is saved and still the owner, the registry
      holds that very agent. */
  ghost predicate ProcGood(s: Sys, id: ProcId) {
    id in s.procs ==>
      && TaskOf(s.db, id.job).Some? && AgentGood(TaskOf(s.db, id.job).value, s.procs[id].agent)
      && (s.procs[id].saved && Owns(s.db, id.job, id.worker) ==>
            SavedCheckpoint(s.db, id.job) == Some(Saved(s.procs[id].agent)))
  }

  ghost predicate CheckpointGood(db: Db, j: JobId) {
    SavedCheckpoint(db, j).Some? ==>
      TaskOf(db, j).Some? && AgentGood(TaskOf(db, j).value, SavedCheckpoint(db, j).value.agent)
  }

  /** A ready or revoked version carries the digest of a bundle its evidence supports. */
  ghost predicate Proven(env: Env, s: Sys, k: VersionKey) {
    k in s.db.versions && Issued(s.db.versions[k].status) ==>
      && k in s.evidence && Supports(env, s.evidence[k])
      && s.evidence[k].task == s.db.versions[k].request
      && s.db.versions[k].digest == Some(SemanticDigest(s.evidence[k].bundle))
      && s.db.versions[k].contract == Some(s.evidence[k].bundle.contract)
  }

  /** An artifact row holds the manifest its digest was computed from. */
  predicate ManifestGood(db: Db, d: Digest) {
    d in db.artifacts ==> db.artifacts[d] == d.payload.manifest
  }

  ghost predicate SysGood(env: Env, s: Sys) {
    && Coherent(s.db)
    && (forall id :: ProcGood(s, id))
    && (forall j :: CheckpointGood(s.db, j))
    && (forall k :: Proven(env, s, k))
    && (forall d :: ManifestGood(s.db, d))
  }

  // ---------------------------------------------------------------- moves that leave agents alone

  /** A transaction that neither saves nor publishes, and makes no process the owner. */
  lemma DbMoved(env: Env, s: Sys, a: Action)
    requires SysGood(env, s) && WorkerStage(a) && !a.DoSaveCheckpoint? && !a.DoPublish?
    requires Attempt(s.db, s.now, a).Success?
    requires forall id | id in s.procs && Owns(Attempt(s.db, s.now, a).value, id.job, id.worker) :: Owns(s.db, id.job, id.worker)
    ensures SysGood(env, s.(db := Attempt(s.db, s.now, a).value))
  {
    var s' := s.(db := Attempt(s.db, s.now, a).value);
    AttemptCoherent(s.db, s.now, a);
    forall id ensures ProcGood(s', id) {
      assert ProcGood(s, id);
      if id in s.procs {
        TaskKept(s.db, s.now, a, id.job);
        CheckpointKept(s.db, s.now, a, id.job);
      }
    }
    forall j ensures CheckpointGood(s'.db, j) {
      assert CheckpointGood(s.db, j);
      CheckpointKept(s.db, s.now, a, j);
      if SavedCheckpoint(s.db, j).Some? { TaskKept(s.db, s.now, a, j); }
    }
    forall k ensures Proven(env, s', k) {
      assert Proven(env, s, k);
      VersionKept(s.db, s.now, a, k);
    }
    RegistryKeepsArtifacts(s.db, s.now, a);
    forall d ensures ManifestGood(s'.db, d) { assert ManifestGood(s.db, d); }
  }

  lemma UnclaimedMoved(env: Env, s: Sys, a: Action)
    requires SysGood(env, s) && WorkerStage(a) && !a.DoSaveCheckpoint? && !a.DoPublish? && !a.DoClaim?
    requires Attempt(s.db, s.now, a).Success?
    ensures SysGood(env, s.(db := Attempt(s.db, s.now, a).value))
  {
    forall id | id in s.procs && Owns(Attempt(s.db, s.now, a).value, id.job, id.worker) ensures Owns(s.db, id.job, id.worker) {
      OwnerKept(s.db, s.now, a, id.job, id.worker);
    }
    DbMoved(env, s, a);
  }

  /** Only a claim makes a worker the owner. */
  lemma OwnerKept(db: Db, now: Time, a: Action, j: JobId, w: WorkerId)
    requires Attempt(db, now, a).Success? && !a.DoClaim?
    ensures Owns(Attempt(db, now, a).value, j, w) ==> Owns(db, j, w)
  {
    if JobOf(a) != Some(j) {
      Isolation(db, now, a, j);
    } else {
      OwnOwnerKept(db, now, a, j, w);
    }
  }

  lemma OwnOwnerKept(db: Db, now: Time, a: Action, j: JobId, w: WorkerId)
    requires Attempt(db, now, a).Success? && !a.DoClaim? && JobOf(a) == Some(j)
    ensures Owns(Attempt(db, now, a).value, j, w) ==> Owns(db, j, w)
  {
    match a
    case DoSuspend(_, u, input) => SuspendEffect(db, j, u, input, now);
    case DoAnswer(_, id, answer, bytes) => AnswerEffect(db, j, id, answer, bytes, now);
    case DoCancel(_, reason, bytes) => CancelEffect(db, j, reason, bytes, now);
    case DoAppendEvent(_, u, kind, bytes) => AppendOwnEffect(db, j, u, kind, bytes);
    case DoPublish(_, u, artifact) => PublishEffect(db, j, u, artifact, now);
    case DoSetStage(_, u, stage) => SetStageEffect(db, j, u, stage, now);
    case DoReject(_, u) => RejectEffect(db, j, u, now);
    case _ =>
  }

  lemma OtherKeepsProc(s: Sys, a: Action, id: ProcId)
    requires Coherent(s.db) && Attempt(s.db, s.now, a).Success? && !a.DoClaim? && !a.DoSaveCheckpoint?
    requires id in s.procs && ProcGood(s, id)
    ensures ProcGood(s.(db := Attempt(s.db, s.now, a).value), id)
  {
    TaskKept(s.db, s.now, a, id.job);
    CheckpointKept(s.db, s.now, a, id.job);
    OwnerKept(s.db, s.now, a, id.job, id.worker);
  }

  lemma CrashGood(env: Env, s: Sys, id: ProcId)
    requires SysGood(env, s)
    ensures SysGood(env, s.(procs := s.procs - {id}))
  {
    var s' := s.(procs := s.procs - {id});
    forall i ensures ProcGood(s', i) { assert ProcGood(s, i); }
    forall k ensures Proven(env, s', k) { assert Proven(env, s, k); }
  }

  // ---------------------------------------------------------------- claims and saves

  /** The process of a claimed job starts over from the checkpoint, or afresh. */
  lemma TakeGood(env: Env, s: Sys, j: JobId, w: WorkerId)
    requires SysGood(env, s)
    ensures SysGood(env, TakeNext(s, j, w))
  {
    var r := Claim(s.db, j, w, LEASE, s.now);
    if r.Success? {
      var s1 := s.(procs := s.procs - {ProcId(j, w)});
      CrashGood(env, s, ProcId(j, w));
      ClaimGood(env, s1, j, w);
      StartGood(env, s, s1.(db := r.value), j, w);
    }
  }

  lemma StartGood(env: Env, s: Sys, s2: Sys, j: JobId, w: WorkerId)
    requires SysGood(env, s2) && Claim(s.db, j, w, LEASE, s.now) == Success(s2.db)
    requires s2 == s.(db := s2.db, procs := s.procs - {ProcId(j, w)})
    ensures SysGood(env, TakeNext(s, j, w))
  {
    TakeNextIs(s, s2, j, w);
    match Started(s2.db, j)
    case None =>
    case Some(a) =>
      LoadedGood(env, s2, j);
      ReplacedProcGood(env, s2, ProcId(j, w), a);
      CountersDoNotMatter(env, s2.(procs := s2.procs[ProcId(j, w) := Proc(a, false)]), s.probes, TakeNext(s, j, w).starts);
  }

  lemma TakeNextIs(s: Sys, s2: Sys, j: JobId, w: WorkerId)
    requires Claim(s.db, j, w, LEASE, s.now) == Success(s2.db) && s2 == s.(db := s2.db, procs := s.procs - {ProcId(j, w)})
    ensures TakeNext(s, j, w) ==
            match Started(s2.db, j)
            case None => s2
            case Some(a) => s2.(procs := s2.procs[ProcId(j, w) := Proc(a, false)], starts := TakeNext(s, j, w).starts)
  {
    var a := Started(s2.db, j);
    if a.Some? {
      var p := Proc(a.value, false);
      assert (s.procs - {ProcId(j, w)})[ProcId(j, w) := p] == s.procs[ProcId(j, w) := p];
    }
  }

  lemma ClaimGood(env: Env, s: Sys, j: JobId, w: WorkerId)
    requires SysGood(env, s) && ProcId(j, w) !in s.procs && Claim(s.db, j, w, LEASE, s.now).Success?
    ensures SysGood(env, s.(db := Claim(s.db, j, w, LEASE, s.now).value))
  {
    var a := DoClaim(j, w);
    var d := Claim(s.db, j, w, LEASE, s.now).value;
    assert Attempt(s.db, s.now, a) == Success(d);
    ClaimEffect(s.db, j, w, s.now);
    forall id | id in s.procs && Owns(d, id.job, id.worker) ensures Owns(s.db, id.job, id.worker) {
      assert id.job == j ==> id == ProcId(j, w);
    }
    DbMoved(env, s, a);
  }

  lemma LoadedGood(env: Env, s: Sys, j: JobId)
    requires SysGood(env, s) && j in s.db.jobs && Loaded(s.db, j).Some?
    ensures TaskOf(s.db, j).Some? && AgentGood(TaskOf(s.db, j).value, Loaded(s.db, j).value)
  {
    RowOf(s.db, j);
    assert CheckpointGood(s.db, j);
    FreshAgentOk(TaskOf(s.db, j).value);
  }

  lemma SaveGood(env: Env, s: Sys, j: JobId, w: WorkerId)
    requires SysGood(env, s)
    ensures SysGood(env, SaveNext(s, j, w))
  {
    var id := ProcId(j, w);
    if id in s.procs {
      var r := SaveCheckpoint(s.db, j, w, Saved(s.procs[id].agent));
      if r.Failure? {
        CrashGood(env, s, id);
      } else {
        var s' := SaveNext(s, j, w);
        SaveCheckpointCoherent(s.db, j, w, Saved(s.procs[id].agent));
        assert ProcGood(s, id);
        forall i ensures ProcGood(s', i) { assert ProcGood(s, i); }
        forall i ensures CheckpointGood(s'.db, i) { assert CheckpointGood(s.db, i); }
        forall k ensures Proven(env, s', k) { assert Proven(env, s, k); }
        forall d ensures ManifestGood(s'.db, d) { assert ManifestGood(s.db, d); }
      }
    }
  }

  // ---------------------------------------------------------------- turns and tool calls

  lemma CountedOk(task: Request, a: Agent)
    requires AgentOk(task, a.ws, a.audit)
    ensures AgentOk(task, Counted(a.ws), a.audit)
  {
    SamePlanKeeps(task, a.ws, Counted(a.ws), a.audit);
  }

  /** A process that is not saved may hold any good agent. */
  lemma ReplacedProcGood(env: Env, s: Sys, id: ProcId, a: Agent)
    requires SysGood(env, s) && TaskOf(s.db, id.job).Some? && AgentGood(TaskOf(s.db, id.job).value, a)
    ensures SysGood(env, s.(procs := s.procs[id := Proc(a, false)]))
  {
    var s' := s.(procs := s.procs[id := Proc(a, false)]);
    forall i ensures ProcGood(s', i) { assert ProcGood(s, i); }
    forall k ensures Proven(env, s', k) { assert Proven(env, s, k); }
  }

  lemma TurnGood(env: Env, s: Sys, j: JobId, w: WorkerId, p: PendingCall)
    requires SysGood(env, s)
    ensures SysGood(env, TurnNext(s, j, w, p))
  {
    var id := ProcId(j, w);
    if id in s.procs && TurnNext(s, j, w, p) != s {
      assert ProcGood(s, id);
      var a := s.procs[id].agent;
      CountedOk(TaskOf(s.db, j).value, a);
      ReplacedProcGood(env, s, id, a.(ws := Counted(a.ws), pending := Some(p)));
    }
  }

  lemma RefuseGood(env: Env, s: Sys, j: JobId, w: WorkerId)
    requires SysGood(env, s)
    ensures SysGood(env, RefuseNext(s, j, w))
  {
    var id := ProcId(j, w);
    if id in s.procs && s.procs[id].saved {
      assert ProcGood(s, id);
      ReplacedProcGood(env, s, id, s.procs[id].agent.(pending := None));
    }
  }

  lemma CountersDoNotMatter(env: Env, s: Sys, probes: map<JobId, nat>, starts: map<JobId, nat>)
    requires SysGood(env, s)
    ensures SysGood(env, s.(probes := probes, starts := starts))
  {
    var s' := s.(probes := probes, starts := starts);
    forall i ensures ProcGood(s', i) { assert ProcGood(s, i); }
    forall k ensures Proven(env, s', k) { assert Proven(env, s, k); }
  }

  lemma SuspendedGood(env: Env, s: Sys, j: JobId, w: WorkerId, input: NewInput)
    requires SysGood(env, s) && Suspend(s.db, j, w, input, s.now).Success?
    ensures SysGood(env, s.(db := Suspend(s.db, j, w, input, s.now).value))
  {
    assert Attempt(s.db, s.now, DoSuspend(j, w, input)) == Suspend(s.db, j, w, input, s.now);
    UnclaimedMoved(env, s, DoSuspend(j, w, input));
  }

  /** A publication with its evidence. */
  lemma PublishedGood(env: Env, s: Sys, j: JobId, w: WorkerId, e: Evidence)
    requires SysGood(env, s) && Supports(env, e) && TaskOf(s.db, j) == Some(e.task)
    requires Publish(s.db, j, w, Artifact(e.bundle), s.now).Success?
    ensures SysGood(env, s.(db := Publish(s.db, j, w, Artifact(e.bundle), s.now).value,
                            evidence := s.evidence[s.db.jobs[j].version := e]))
  {
    var a := DoPublish(j, w, Artifact(e.bundle));
    var d := Attempt(s.db, s.now, a).value;
    var s' := s.(db := d, evidence := s.evidence[s.db.jobs[j].version := e]);
    assert Attempt(s.db, s.now, a) == Publish(s.db, j, w, Artifact(e.bundle), s.now);
    AttemptCoherent(s.db, s.now, a);
    AgentsAfterPublication(env, s, a);
    VersionsAfterPublication(env, s, j, w, e);
    PublishedIndexes(s.db, j, w, Artifact(e.bundle), s.now);
    forall id ensures ProcGood(s', id) { assert ProcGood(s.(db := d), id); }
    forall i ensures CheckpointGood(d, i) { assert CheckpointGood(s.(db := d).db, i); }
    assert forall k :: Proven(env, s', k);
    forall digest ensures ManifestGood(d, digest) { assert ManifestGood(s.db, digest); }
  }

  /** A publication leaves processes and checkpoints good. */
  lemma AgentsAfterPublication(env: Env, s: Sys, a: Action)
    requires SysGood(env, s) && a.DoPublish? && Attempt(s.db, s.now, a).Success?
    ensures var s' := s.(db := Attempt(s.db, s.now, a).value);
            (forall id :: ProcGood(s', id)) && forall i :: CheckpointGood(s'.db, i)
  {
    var s' := s.(db := Attempt(s.db, s.now, a).value);
    forall id ensures ProcGood(s', id) {
      assert ProcGood(s, id);
      if id in s.procs { OtherKeepsProc(s, a, id); }
    }
    forall i ensures CheckpointGood(s'.db, i) {
      assert CheckpointGood(s.db, i);
      CheckpointKept(s.db, s.now, a, i);
      if SavedCheckpoint(s.db, i).Some? { TaskKept(s.db, s.now, a, i); }
    }
  }

  lemma VersionsAfterPublication(env: Env, s: Sys, j: JobId, w: WorkerId, e: Evidence)
    requires SysGood(env, s) && Supports(env, e) && TaskOf(s.db, j) == Some(e.task)
    requires Publish(s.db, j, w, Artifact(e.bundle), s.now).Success?
    ensures var s' := s.(db := Publish(s.db, j, w, Artifact(e.bundle), s.now).value,
                         evidence := s.evidence[s.db.jobs[j].version := e]);
            forall k :: Proven(env, s', k)
  {
    var s' := s.(db := Publish(s.db, j, w, Artifact(e.bundle), s.now).value, evidence := s.evidence[s.db.jobs[j].version := e]);
    forall k ensures Proven(env, s', k) {
      assert Proven(env, s, k);
      PublishedVersionStep(s.db, j, w, Artifact(e.bundle), s.now, k);
    }
  }

  /** What a tool call comes to: a good workspace, and a supported bundle when it publishes. */
  lemma ResultGood(env: Env, s: Sys, j: JobId, w: WorkerId, o: Oracle)
    requires SysGood(env, s) && Runs(s, j, w, o)
    ensures var task, r := TaskOf(s.db, j).value, ResultOf(env, s, j, w, o);
            && AgentOk(task, r.ws, r.audit)
            && (r.execution.Published? ==>
                  && r.audit.accepted.Some? && r.audit.acceptedReview.Some? && Supports(env, EvidenceOf(task, r, o))
                  && Publish(s.db, j, w, Artifact(r.execution.bundle), s.now).Success?)
  {
    assert ProcGood(s, ProcId(j, w));
    var a, task := s.procs[ProcId(j, w)].agent, TaskOf(s.db, j).value;
    var r := ResultOf(env, s, j, w, o);
    ExecuteKeeps(env, task, a.ws, a.audit, a.pending.value.call, o);
    if r.execution.Published? {
      PublishedIsSupported(env, task, a.ws, a.audit, a.pending.value.call, o);
      ExecuteClean(env, task, a.ws, a.audit, a.pending.value.call, o);
      OwnerPublishes(s.db, j, w, Artifact(r.execution.bundle), s.now);
    }
  }

  /** A tool call leaves what its result settles to, with the probes counted. */
  lemma ToolNextIs(env: Env, s: Sys, j: JobId, w: WorkerId, o: Oracle, slip: Slip)
    requires Runs(s, j, w, o)
    ensures var call := s.procs[ProcId(j, w)].agent.pending.value.id; var s' := ToolNext(env, s, j, w, o, slip);
            s' == Settled(Approving(s, j, w, o), j, w, TaskOf(s.db, j).value, ResultOf(env, s, j, w, o), o, call, slip)
                  .(probes := s'.probes, starts := s.starts)
  {
    var call := s.procs[ProcId(j, w)].agent.pending.value.id;
    SettledStarts(Approving(s, j, w, o), j, w, TaskOf(s.db, j).value, ResultOf(env, s, j, w, o), o, call, slip);
  }

  lemma SettledStarts(s: Sys, j: JobId, w: WorkerId, task: Request, r: Outcome, o: Oracle, call: string, slip: Slip)
    requires j in s.db.jobs
    ensures Settled(s, j, w, task, r, o, call, slip).starts == s.starts
  {
  }

  /** An approval leaves everything else as it was. */
  lemma ApprovingGood(env: Env, s: Sys, j: JobId, w: WorkerId, o: Oracle)
    requires SysGood(env, s) && Runs(s, j, w, o)
    ensures SysGood(env, Approving(s, j, w, o))
  {
    var a := s.procs[ProcId(j, w)].agent;
    var hash := ApprovalWritten(a.ws, a.pending.value.call, o);
    if hash.Some? {
      assert Attempt(s.db, s.now, DoApproveCapability(hash.value)) == ApproveCapability(s.db, hash.value);
      UnclaimedMoved(env, s, DoApproveCapability(hash.value));
    }
  }

  lemma ToolGood(env: Env, s: Sys, j: JobId, w: WorkerId, o: Oracle, slip: Slip)
    requires SysGood(env, s)
    ensures SysGood(env, ToolNext(env, s, j, w, o, slip))
  {
    if Runs(s, j, w, o) {
      var task, call := TaskOf(s.db, j).value, s.procs[ProcId(j, w)].agent.pending.value.id;
      var r := ResultOf(env, s, j, w, o);
      var s1 := Approving(s, j, w, o);
      ResultGood(env, s, j, w, o);
      ApprovingGood(env, s, j, w, o);
      ToolNextIs(env, s, j, w, o, slip);
      SettledGood(env, s1, j, w, task, r, o, call, slip);
      CountersDoNotMatter(env, Settled(s1, j, w, task, r, o, call, slip), ToolNext(env, s, j, w, o, slip).probes, s.starts);
    }
  }

  /** The owner of a job with a saved run can always publish. */
  lemma OwnerPublishes(db: Db, j: JobId, w: WorkerId, a: PublishedArtifact, now: Time)
    requires j in db.jobs
    ensures Publish(db, j, w, a, now).Success? <==> Owns(db, j, w) && j in db.runs
  {
    assert PublishedDb(db, j, a, now).runs == db.runs;
  }

  lemma SettledGood(env: Env, s: Sys, j: JobId, w: WorkerId, task: Request, r: Outcome, o: Oracle, call: string, slip: Slip)
    requires SysGood(env, s) && TaskOf(s.db, j) == Some(task) && AgentOk(task, r.ws, r.audit)
    requires r.execution.Published? ==>
               && r.audit.accepted.Some? && r.audit.acceptedReview.Some? && Supports(env, EvidenceOf(task, r, o))
               && Publish(s.db, j, w, Artifact(r.execution.bundle), s.now).Success?
    ensures SysGood(env, Settled(s, j, w, task, r, o, call, slip))
  {
    var id := ProcId(j, w);
    match r.execution
    case Continue => ReplacedProcGood(env, s, id, Agent(r.ws, r.audit, None));
    case Failed(_) => CrashGood(env, s, id);
    case Suspended(kind, context) =>
      CrashGood(env, s, id);
      var s1 := s.(procs := s.procs - {id});
      var input := Question(call, slip, kind, context);
      if Suspend(s.db, j, w, input, s.now).Success? { SuspendedGood(env, s1, j, w, input); }
    case Published(b) =>
      CrashGood(env, s, id);
      PublishedGood(env, s.(procs := s.procs - {id}), j, w, EvidenceOf(task, r, o));
  }

  // ---------------------------------------------------------------- every run

  lemma MoveGood(env: Env, s: Sys, m: Move)
    requires SysGood(env, s)
    ensures SysGood(env, Move1(env, s, m))
  {
    match m
    case Pass(elapsed) =>
      forall id ensures ProcGood(Move1(env, s, m), id) { assert ProcGood(s, id); }
      forall k ensures Proven(env, Move1(env, s, m), k) { assert Proven(env, s, k); }
    case Other(a) =>
      if Free(a) && Attempt(s.db, s.now, a).Success? { UnclaimedMoved(env, s, a); }
    case Take(j, w) => TakeGood(env, s, j, w);
    case Save(j, w) => SaveGood(env, s, j, w);
    case Turn(j, w, p) => TurnGood(env, s, j, w, p);
    case RefuseBatch(j, w) => RefuseGood(env, s, j, w);
    case UseTool(j, w, o, slip) => ToolGood(env, s, j, w, o, slip);
    case Crash(j, w) => CrashGood(env, s, ProcId(j, w));
  }

  lemma IdleGood(env: Env)
    ensures SysGood(env, IDLE)
  {
    EmptyCoherent();
  }

  lemma {:induction false} MovesGood(env: Env, moves: seq<Move>)
    ensures SysGood(env, Moves(env, IDLE, moves))
  {
    if moves == [] {
      IdleGood(env);
    } else {
      MovesGood(env, moves[..|moves| - 1]);
      MoveGood(env, Moves(env, IDLE, moves[..|moves| - 1]), moves[|moves| - 1]);
    }
  }

  /** Version k was built for the request of the evidence and carries its bundle's digest,
      contract and manifest. */
  predicate Backs(db: Db, k: VersionKey, e: Evidence) {
    && k in db.versions && e.task == db.versions[k].request
    && db.versions[k].digest == Some(SemanticDigest(e.bundle)) && db.versions[k].contract == Some(e.bundle.contract)
    && SemanticDigest(e.bundle) in db.artifacts && db.artifacts[SemanticDigest(e.bundle)] == e.bundle.manifest
  }

  /** The evidence kept for a published version backs it. */
  lemma EvidenceBacks(env: Env, s: Sys, k: VersionKey)
    requires SysGood(env, s) && k in s.db.versions && Issued(s.db.versions[k].status)
    ensures k in s.evidence && Supports(env, s.evidence[k]) && Backs(s.db, k, s.evidence[k])
  {
    assert Proven(env, s, k) && Coherence.ArtifactOk(s.db, k) && ManifestGood(s.db, SemanticDigest(s.evidence[k].bundle));
  }

  lemma {:induction false} TaskForever(w: World, steps: seq<Step>, j: JobId)
    requires WorldOk(w, j) && WorkerStages(steps) && TaskOf(w.db, j).Some?
    ensures TaskOf(Play(w, steps, j).db, j) == TaskOf(w.db, j)
  {
    if steps != [] {
      var front, last := steps[..|steps| - 1], steps[|steps| - 1];
      assert forall i | 0 <= i < |front| :: front[i] == steps[i];
      TaskForever(w, front, j);
      RunKeeps(w, front, j);
      var v := Play(w, front, j);
      if last.Act? && Attempt(v.db, v.now, last.action).Success? { TaskKept(v.db, v.now, last.action, j); }
    }
  }

  /** In every state after its registration a job builds the very request it was registered
      with. */
  lemma JobBuildsItsRequest(w: World, j: JobId, name: string, request: Request, key: string, steps: seq<Step>)
    requires WorldOk(w, j) && WorkerStages(steps) && key !in w.db.jobByKey
    requires Attempt(w.db, w.now, DoRegister(name, request, key, j)).Success?
    ensures TaskOf(Play(Next(w, Act(DoRegister(name, request, key, j)), j), steps, j).db, j) == Some(request)
  {
    var step := Act(DoRegister(name, request, key, j));
    assert Next(w, step, j).db == Registered(w.db, name, request, key, j, w.now);
    NextKeeps(w, step, j);
    TaskForever(Next(w, step, j), steps, j);
  }

  /** A supported bundle passes the approval gate exactly when each of its grants is active. */
  lemma SupportedGate(env: Env, e: Evidence, db: Db)
    requires Supports(env, e)
    ensures Approvals.GateOpen(db, e.bundle.manifest) <==>
              forall i | 0 <= i < |e.bundle.manifest.grants| :: ActiveCapability(db, e.bundle.manifest.grants[i].approvalHash)
  {
    Approvals.GateOpenExactly(db, e.bundle.manifest);
  }
}
