/** What every transaction keeps of the tables: jobs, versions, questions and the stable
    pointer agree in every reachable state of the registry.

    Each invariant quantifies over one named fact per row, so that a proof names the rows it
    looks at. */
module Coherence {
  import opened Wrappers
  import opened ArtifactTypes
  import opened AgentTypes
  import opened Schema
  import opened Transactions

  predicate Busy(status: VersionStatus) {
    status in {Synthesizing, Building, Validating}
  }

  /** How the columns of a job agree with each other, with its version, and with its pending
      question. */
  predicate RowCoherent(job: Job, version: VersionStatus, asks: bool) {
    match job.status
    case Queued =>
      && job.worker.None? && job.leaseUntil.None? && !asks
      && (if job.stage == QueuedStage then version == DraftVersion && job.attempts == 0
          else Working(job.stage) && Busy(version) && job.attempts > 0)
    case Running =>
      job.worker.Some? && job.leaseUntil.Some? && !asks && Working(job.stage) && Busy(version) && job.attempts > 0
    case AwaitingInput =>
      job.worker.None? && job.leaseUntil.None? && asks && job.stage == AwaitingStage && Busy(version) && job.attempts > 0
    case Ready =>
      job.worker.Some? && job.leaseUntil.None? && !asks && job.stage == CompleteStage && version in {ReadyVersion, Revoked}
    case Rejected =>
      job.leaseUntil.None? && !asks && job.stage == CompleteStage && version == RejectedVersion
  }

  // ---------------------------------------------------------------- one fact per row

  predicate JobOk(db: Db, j: JobId) {
    j in db.jobs ==>
      db.jobs[j].version in db.versions && db.jobs[j].key in db.jobByKey && db.jobByKey[db.jobs[j].key] == j
  }

  predicate OwnVersion(db: Db, i: JobId, j: JobId) {
    i in db.jobs && j in db.jobs && db.jobs[i].version == db.jobs[j].version ==> i == j
  }

  predicate KeyOk(db: Db, key: string) {
    key in db.jobByKey ==> db.jobByKey[key] in db.jobs && db.jobs[db.jobByKey[key]].key == key
  }

  predicate RunOk(db: Db, j: JobId) {
    j in db.runs ==> j in db.jobs
  }

  predicate IsJobOf(db: Db, j: JobId, k: VersionKey) {
    j in db.jobs && db.jobs[j].version == k
  }

  ghost predicate HasJob(db: Db, k: VersionKey) {
    exists j :: IsJobOf(db, j, k)
  }

  ghost predicate VersionOk(db: Db, k: VersionKey) {
    k in db.versions ==> k.tool in db.tools && 1 <= k.revision <= db.tools[k.tool].latest && HasJob(db, k)
  }

  predicate DenseOk(db: Db, t: string, r: nat) {
    t in db.tools && 1 <= r <= db.tools[t].latest ==> VersionKey(t, r) in db.versions
  }

  predicate AskOk(db: Db, j: JobId) {
    j in db.pendingCall ==>
      && j in db.jobs && InputKey(j, db.pendingCall[j]) in db.inputs
      && db.inputs[InputKey(j, db.pendingCall[j])].answer.None?
  }

  predicate InputOk(db: Db, k: InputKey) {
    k in db.inputs ==>
      && k.job in db.jobs && Working(db.inputs[k].resumeStage)
      && (db.inputs[k].answer.None? ==> k.job in db.pendingCall && db.pendingCall[k.job] == k.call)
  }

  predicate RowOk(db: Db, j: JobId) {
    j in db.jobs && db.jobs[j].version in db.versions ==>
      RowCoherent(db.jobs[j], db.versions[db.jobs[j].version].status, j in db.pendingCall)
  }

  /** stable_revision is None exactly when no version is ready, and otherwise names one. */
  ghost predicate StableAt(db: Db, t: string) {
    t in db.tools ==>
      match db.tools[t].stable
      case None => forall r: nat :: !ReadyAt(db, t, r)
      case Some(r) => ReadyAt(db, t, r)
  }

  predicate ArtifactOk(db: Db, k: VersionKey) {
    k in db.versions && db.versions[k].status in {ReadyVersion, Revoked} ==>
      db.versions[k].digest.Some? && db.versions[k].digest.value in db.artifacts
  }

  // ---------------------------------------------------------------- the invariants

  ghost predicate JobsOk(db: Db) {
    && (forall j :: JobOk(db, j))
    && (forall i, j :: OwnVersion(db, i, j))
    && (forall key :: KeyOk(db, key))
    && (forall j :: RunOk(db, j))
  }

  /** The revisions of a tool are 1..latest, each with a job. */
  ghost predicate VersionsOk(db: Db) {
    && (forall k :: VersionOk(db, k))
    && (forall t, r :: DenseOk(db, t, r))
  }

  ghost predicate InputsOk(db: Db) {
    && (forall j :: AskOk(db, j))
    && (forall k :: InputOk(db, k))
  }

  ghost predicate RowsOk(db: Db) {
    forall j :: RowOk(db, j)
  }

  ghost predicate StableOk(db: Db) {
    forall t :: StableAt(db, t)
  }

  ghost predicate ArtifactsOk(db: Db) {
    forall k :: ArtifactOk(db, k)
  }

  ghost predicate Coherent(db: Db) {
    JobsOk(db) && VersionsOk(db) && InputsOk(db) && RowsOk(db) && StableOk(db) && ArtifactsOk(db)
  }

  lemma EmptyCoherent()
    ensures Coherent(EMPTY)
  {
  }

  /** What coherence says of one job. */
  lemma RowOf(db: Db, j: JobId)
    requires Coherent(db) && j in db.jobs
    ensures db.jobs[j].version in db.versions && db.jobs[j].version.tool in db.tools
    ensures RowCoherent(db.jobs[j], db.versions[db.jobs[j].version].status, j in db.pendingCall)
  {
    assert JobOk(db, j) && RowOk(db, j);
    assert VersionOk(db, db.jobs[j].version);
  }

  // ---------------------------------------------------------------- changing one job and its version

  predicate SameJob(db: Db, d: Db, i: JobId) {
    (i in d.jobs <==> i in db.jobs) && (i in db.jobs ==> d.jobs[i] == db.jobs[i])
  }

  predicate SameVersion(db: Db, d: Db, k: VersionKey) {
    (k in d.versions <==> k in db.versions) && (k in db.versions ==> d.versions[k] == db.versions[k])
  }

  predicate SameLatest(db: Db, d: Db, t: string) {
    (t in d.tools <==> t in db.tools) && (t in db.tools ==> d.tools[t].latest == db.tools[t].latest)
  }

  /** d differs from db in the row of job j, the row of its version, its question, and in
      tables that hold no job. */
  ghost predicate ChangesJob(db: Db, d: Db, j: JobId) {
    && j in db.jobs && j in d.jobs
    && (forall i | i != j :: SameJob(db, d, i))
    && d.jobs[j].version == db.jobs[j].version && d.jobs[j].key == db.jobs[j].key
    && db.jobs[j].version in db.versions && db.jobs[j].version in d.versions
    && (forall k | k != db.jobs[j].version :: SameVersion(db, d, k))
    && d.jobByKey == db.jobByKey
    && (forall i | i in d.runs :: i in db.runs || i == j)
    && (forall t :: SameLatest(db, d, t))
    && (forall i | i != j :: i in d.pendingCall <==> i in db.pendingCall)
  }

  /** An explicit update of the two rows is such a change. */
  lemma RowsChange(db: Db, d: Db, j: JobId, row: Job, v: Version)
    requires j in db.jobs && db.jobs[j].version in db.versions
    requires row.version == db.jobs[j].version && row.key == db.jobs[j].key
    requires d.jobs == db.jobs[j := row] && d.versions == db.versions[row.version := v]
    requires d.jobByKey == db.jobByKey && (forall t :: SameLatest(db, d, t))
    requires (forall i | i in d.runs :: i in db.runs || i == j)
    requires (forall i | i != j :: i in d.pendingCall <==> i in db.pendingCall)
    ensures ChangesJob(db, d, j)
  {
    forall i | i != j ensures SameJob(db, d, i) {}
    forall k | k != row.version ensures SameVersion(db, d, k) {}
  }

  lemma RowChanges(db: Db, d: Db, j: JobId, row: Job)
    requires j in db.jobs && db.jobs[j].version in db.versions
    requires row.version == db.jobs[j].version && row.key == db.jobs[j].key
    requires d.jobs == db.jobs[j := row] && d.versions == db.versions
    requires d.jobByKey == db.jobByKey && d.tools == db.tools
    requires (forall i | i in d.runs :: i in db.runs || i == j)
    requires (forall i | i != j :: i in d.pendingCall <==> i in db.pendingCall)
    ensures ChangesJob(db, d, j)
  {
    forall i | i != j ensures SameJob(db, d, i) {}
    forall k ensures SameVersion(db, d, k) {}
    forall t ensures SameLatest(db, d, t) {}
  }

  lemma SameTools(db: Db, d: Db)
    requires d.tools == db.tools
    ensures forall t :: SameLatest(db, d, t)
  {
  }

  lemma ChangedJobsOk(db: Db, d: Db, j: JobId)
    requires JobsOk(db) && ChangesJob(db, d, j)
    ensures JobsOk(d)
  {
    forall i ensures JobOk(d, i) {
      assert JobOk(db, i) && (i != j ==> SameJob(db, d, i));
      assert i in db.jobs ==> db.jobs[i].version != db.jobs[j].version ==> SameVersion(db, d, db.jobs[i].version);
    }
    forall i, i' ensures OwnVersion(d, i, i') {
      assert OwnVersion(db, i, i') && (i != j ==> SameJob(db, d, i)) && (i' != j ==> SameJob(db, d, i'));
    }
    forall key ensures KeyOk(d, key) {
      assert KeyOk(db, key);
      assert key in db.jobByKey ==> db.jobByKey[key] != j ==> SameJob(db, d, db.jobByKey[key]);
    }
    forall i ensures RunOk(d, i) { assert RunOk(db, i) && (i != j ==> SameJob(db, d, i)); }
  }

  lemma ChangedVersionsOk(db: Db, d: Db, j: JobId)
    requires VersionsOk(db) && ChangesJob(db, d, j)
    ensures VersionsOk(d)
  {
    forall k ensures VersionOk(d, k) {
      assert VersionOk(db, k) && (k != db.jobs[j].version ==> SameVersion(db, d, k)) && SameLatest(db, d, k.tool);
      if k in db.versions {
        var i :| IsJobOf(db, i, k);
        assert i != j ==> SameJob(db, d, i);
        assert IsJobOf(d, i, k);
      }
    }
    forall t, r ensures DenseOk(d, t, r) {
      assert DenseOk(db, t, r) && SameLatest(db, d, t);
      assert VersionKey(t, r) != db.jobs[j].version ==> SameVersion(db, d, VersionKey(t, r));
    }
  }

  lemma ChangedRowsOk(db: Db, d: Db, j: JobId)
    requires JobsOk(db) && RowsOk(db) && ChangesJob(db, d, j)
    requires RowCoherent(d.jobs[j], d.versions[d.jobs[j].version].status, j in d.pendingCall)
    ensures RowsOk(d)
  {
    forall i ensures RowOk(d, i) {
      assert RowOk(db, i) && OwnVersion(db, i, j) && JobOk(db, i) && (i != j ==> SameJob(db, d, i));
      assert i in db.jobs && i != j ==> SameVersion(db, d, db.jobs[i].version);
    }
  }

  /** Neither before nor after is the version ready or revoked. */
  lemma ChangedStableOk(db: Db, d: Db, j: JobId)
    requires StableOk(db) && ArtifactsOk(db) && ChangesJob(db, d, j) && d.tools == db.tools && d.artifacts == db.artifacts
    requires db.versions[db.jobs[j].version].status != ReadyVersion
    requires d.versions[db.jobs[j].version].status !in {ReadyVersion, Revoked}
    ensures StableOk(d) && ArtifactsOk(d)
  {
    forall t ensures StableAt(d, t) {
      assert StableAt(db, t);
      forall r: nat ensures ReadyAt(d, t, r) == ReadyAt(db, t, r) {
        assert VersionKey(t, r) != db.jobs[j].version ==> SameVersion(db, d, VersionKey(t, r));
      }
    }
    forall k ensures ArtifactOk(d, k) {
      assert ArtifactOk(db, k) && (k != db.jobs[j].version ==> SameVersion(db, d, k));
    }
  }

  lemma ChangedInputsOk(db: Db, d: Db, j: JobId)
    requires InputsOk(db) && ChangesJob(db, d, j) && d.inputs == db.inputs && d.pendingCall == db.pendingCall
    ensures InputsOk(d)
  {
    forall i ensures AskOk(d, i) { assert AskOk(db, i) && (i != j ==> SameJob(db, d, i)); }
    forall k ensures InputOk(d, k) { assert InputOk(db, k) && (k.job != j ==> SameJob(db, d, k.job)); }
  }

  /** A job that is not terminal moves to another state that is not published. */
  lemma MoveCoherent(db: Db, d: Db, j: JobId)
    requires Coherent(db) && ChangesJob(db, d, j) && InputsOk(d)
    requires d.tools == db.tools && d.artifacts == db.artifacts
    requires !Terminal(db.jobs[j].status) && d.jobs[j].status != Ready
    requires RowCoherent(d.jobs[j], d.versions[d.jobs[j].version].status, j in d.pendingCall)
    ensures Coherent(d)
  {
    RowOf(db, j);
    ChangedJobsOk(db, d, j);
    ChangedVersionsOk(db, d, j);
    ChangedRowsOk(db, d, j);
    ChangedStableOk(db, d, j);
  }

  /** Coherence does not depend on events, archives, approvals or checkpoints. */
  lemma SameRowsCoherent(db: Db, d: Db)
    requires Coherent(db)
    requires d.tools == db.tools && d.versions == db.versions && d.jobs == db.jobs && d.jobByKey == db.jobByKey
    requires d.inputs == db.inputs && d.pendingCall == db.pendingCall && d.artifacts == db.artifacts
    requires forall i | i in d.runs :: i in db.jobs
    ensures Coherent(d)
  {
    forall i ensures JobOk(d, i) && RowOk(d, i) && AskOk(d, i) && RunOk(d, i) {
      assert JobOk(db, i) && RowOk(db, i) && AskOk(db, i);
    }
    forall i, i' ensures OwnVersion(d, i, i') { assert OwnVersion(db, i, i'); }
    forall key ensures KeyOk(d, key) { assert KeyOk(db, key); }
    forall k ensures InputOk(d, k) { assert InputOk(db, k); }
    SameVersions(db, d);
  }

  lemma SameVersions(db: Db, d: Db)
    requires VersionsOk(db) && StableOk(db) && ArtifactsOk(db)
    requires d.tools == db.tools && d.versions == db.versions && d.jobs == db.jobs && d.artifacts == db.artifacts
    ensures VersionsOk(d) && StableOk(d) && ArtifactsOk(d)
  {
    forall k ensures VersionOk(d, k) && ArtifactOk(d, k) {
      assert VersionOk(db, k) && ArtifactOk(db, k);
      if k in db.versions {
        var i :| IsJobOf(db, i, k);
        assert IsJobOf(d, i, k);
      }
    }
    forall t, r ensures DenseOk(d, t, r) { assert DenseOk(db, t, r); }
    forall t ensures StableAt(d, t) {
      assert StableAt(db, t);
      assert forall r: nat :: ReadyAt(d, t, r) == ReadyAt(db, t, r);
    }
  }

  /** The part of the tables an appended event leaves alone. */
  ghost predicate OnlyTrace(db: Db, d: Db) {
    && d.tools == db.tools && d.versions == db.versions && d.jobs == db.jobs && d.jobByKey == db.jobByKey
    && d.inputs == db.inputs && d.pendingCall == db.pendingCall
    && (forall i :: i in d.runs <==> i in db.runs)
    && d.artifacts == db.artifacts && d.archives == db.archives && d.approvals == db.approvals
  }

  lemma AppendEventFrame(db: Db, j: JobId, kind: string, bytes: nat, limit: int)
    requires AppendEvent(db, j, kind, bytes, limit).Success?
    ensures OnlyTrace(db, AppendEvent(db, j, kind, bytes, limit).value) && j in db.runs
  {
    var p := RecordedPayload(bytes, limit - db.runs[j].traceBytes);
    if p.None? {
      assert AppendEvent(db, j, kind, bytes, limit) == Success(db);
    } else {
      WithEventFrame(db, j, kind, p.value);
      assert AppendEvent(db, j, kind, bytes, limit) == Success(WithEvent(db, j, kind, p.value));
    }
  }

  lemma WithEventFrame(db: Db, j: JobId, kind: string, p: EventPayload)
    requires j in db.runs
    ensures OnlyTrace(db, WithEvent(db, j, kind, p))
  {
  }

  lemma TraceCoherent(db: Db, d: Db)
    requires Coherent(db) && OnlyTrace(db, d)
    ensures Coherent(d)
  {
    forall j | j in d.runs ensures j in db.jobs { assert RunOk(db, j); }
    SameRowsCoherent(db, d);
  }

  // ---------------------------------------------------------------- registration

  lemma RegisterCoherent(db: Db, name: string, request: Request, key: string, newJob: JobId, now: Time)
    requires Coherent(db) && Register(db, name, request, key, newJob, now).Success?
    ensures Coherent(Register(db, name, request, key, newJob, now).value)
  {
    var d := Register(db, name, request, key, newJob, now).value;
    assert KeyOk(db, key);
    if key !in db.jobByKey {
      var k := VersionKey(name, LatestRevision(db, name) + 1);
      RegisteredJobs(db, d, name, request, key, newJob, now);
      RegisteredVersions(db, d, name, request, key, newJob, now);
      RegisteredRows(db, d, name, request, key, newJob, now);
      RegisteredStable(db, d, name, request, key, newJob, now);
    }
  }

  lemma RegisteredJobs(db: Db, d: Db, name: string, request: Request, key: string, newJob: JobId, now: Time)
    requires JobsOk(db) && newJob !in db.jobs && key !in db.jobByKey
    requires VersionKey(name, LatestRevision(db, name) + 1) !in db.versions
    requires d == Registered(db, name, request, key, newJob, now)
    ensures JobsOk(d)
  {
    forall i ensures JobOk(d, i) { assert JobOk(db, i); }
    forall i, i' ensures OwnVersion(d, i, i') { assert OwnVersion(db, i, i') && JobOk(db, i) && JobOk(db, i'); }
    forall x ensures KeyOk(d, x) { assert KeyOk(db, x); }
    forall i ensures RunOk(d, i) { assert RunOk(db, i); }
  }

  lemma RegisteredVersions(db: Db, d: Db, name: string, request: Request, key: string, newJob: JobId, now: Time)
    requires VersionsOk(db) && newJob !in db.jobs
    requires d == Registered(db, name, request, key, newJob, now)
    ensures VersionsOk(d)
  {
    forall k ensures VersionOk(d, k) {
      assert VersionOk(db, k);
      if k == VersionKey(name, LatestRevision(db, name) + 1) {
        assert IsJobOf(d, newJob, k);
      } else if k in db.versions {
        var i :| IsJobOf(db, i, k);
        assert IsJobOf(d, i, k);
      }
    }
    forall t, r ensures DenseOk(d, t, r) { assert DenseOk(db, t, r); }
  }

  lemma RegisteredRows(db: Db, d: Db, name: string, request: Request, key: string, newJob: JobId, now: Time)
    requires JobsOk(db) && RowsOk(db) && InputsOk(db) && newJob !in db.jobs
    requires VersionKey(name, LatestRevision(db, name) + 1) !in db.versions
    requires d == Registered(db, name, request, key, newJob, now)
    ensures RowsOk(d) && InputsOk(d)
  {
    forall i ensures RowOk(d, i) && AskOk(d, i) { assert RowOk(db, i) && AskOk(db, i) && JobOk(db, i); }
    forall k ensures InputOk(d, k) { assert InputOk(db, k); }
  }

  lemma RegisteredStable(db: Db, d: Db, name: string, request: Request, key: string, newJob: JobId, now: Time)
    requires StableOk(db) && ArtifactsOk(db) && VersionsOk(db)
    requires VersionKey(name, LatestRevision(db, name) + 1) !in db.versions
    requires d == Registered(db, name, request, key, newJob, now)
    ensures StableOk(d) && ArtifactsOk(d)
  {
    forall t ensures StableAt(d, t) {
      assert StableAt(db, t);
      forall r: nat ensures ReadyAt(d, t, r) == ReadyAt(db, t, r) && (t !in db.tools ==> !ReadyAt(db, t, r)) {
        assert VersionOk(db, VersionKey(t, r));
      }
    }
    forall k ensures ArtifactOk(d, k) { assert ArtifactOk(db, k); }
  }

  // ---------------------------------------------------------------- owner writes

  lemma ClaimCoherent(db: Db, j: JobId, w: WorkerId, lease: Time, now: Time)
    requires Coherent(db) && Claim(db, j, w, lease, now).Success?
    ensures Coherent(Claim(db, j, w, lease, now).value)
  {
    var d := Claim(db, j, w, lease, now).value;
    RowOf(db, j);
    var row := ClaimedRow(db.jobs[j], w, lease, now);
    MoveWithVersion(db, d, j, row, ClaimedStatus(db.versions[row.version].status));
  }

  lemma RenewCoherent(db: Db, j: JobId, w: WorkerId, lease: Time, now: Time)
    requires Coherent(db) && RenewLease(db, j, w, lease, now).Success?
    ensures Coherent(RenewLease(db, j, w, lease, now).value)
  {
    var d := RenewLease(db, j, w, lease, now).value;
    RowOf(db, j);
    RowChanges(db, d, j, d.jobs[j]);
    ChangedInputsOk(db, d, j);
    MoveCoherent(db, d, j);
  }

  /** A non-terminal job and its version move together. */
  lemma MoveWithVersion(db: Db, d: Db, j: JobId, row: Job, status: VersionStatus)
    requires Coherent(db) && j in db.jobs && d == WithVersionStatus(WithJob(db, j, row), j, status)
    requires row.version == db.jobs[j].version && row.key == db.jobs[j].key
    requires !Terminal(db.jobs[j].status) && row.status != Ready
    requires RowCoherent(row, status, j in db.pendingCall)
    ensures Coherent(d)
  {
    RowOf(db, j);
    SameTools(db, d);
    RowsChange(db, d, j, row, db.versions[row.version].(status := status));
    ChangedInputsOk(db, d, j);
    MoveCoherent(db, d, j);
  }

  lemma SetStageCoherent(db: Db, j: JobId, w: WorkerId, stage: JobStage, now: Time)
    requires Coherent(db) && Working(stage) && SetStage(db, j, w, stage, now).Success?
    ensures Coherent(SetStage(db, j, w, stage, now).value)
  {
    RowOf(db, j);
    var row := db.jobs[j].(stage := stage, leaseUntil := Some(now + LEASE), updatedAt := now);
    MoveWithVersion(db, SetStage(db, j, w, stage, now).value, j, row, StageVersionStatus(stage).value);
  }

  lemma RejectCoherent(db: Db, j: JobId, w: WorkerId, now: Time)
    requires Coherent(db) && RejectJob(db, j, w, now).Success?
    ensures Coherent(RejectJob(db, j, w, now).value)
  {
    RowOf(db, j);
    var row := db.jobs[j].(status := Rejected, stage := CompleteStage, leaseUntil := None, updatedAt := now);
    MoveWithVersion(db, RejectJob(db, j, w, now).value, j, row, RejectedVersion);
  }

  lemma SaveContractCoherent(db: Db, j: JobId, w: WorkerId, contract: Contract)
    requires Coherent(db) && SaveContract(db, j, w, contract).Success?
    ensures Coherent(SaveContract(db, j, w, contract).value)
  {
    var d := SaveContract(db, j, w, contract).value;
    RowOf(db, j);
    var k := db.jobs[j].version;
    assert db.jobs == db.jobs[j := db.jobs[j]];
    SameTools(db, d);
    RowsChange(db, d, j, db.jobs[j], db.versions[k].(contract := Some(contract)));
    ChangedInputsOk(db, d, j);
    MoveCoherent(db, d, j);
  }

  // ---------------------------------------------------------------- questions

  lemma AskedInputs(db: Db, d: Db, j: JobId, call: string, input: Input)
    requires InputsOk(db) && j in db.jobs && j !in db.pendingCall && InputKey(j, call) !in db.inputs
    requires d.inputs == db.inputs[InputKey(j, call) := input] && d.pendingCall == db.pendingCall[j := call]
    requires input.answer.None? && Working(input.resumeStage) && d.jobs.Keys == db.jobs.Keys
    ensures InputsOk(d)
  {
    forall i ensures AskOk(d, i) { assert AskOk(db, i); }
    forall k ensures InputOk(d, k) { assert InputOk(db, k); }
  }

  lemma SuspendCoherent(db: Db, j: JobId, w: WorkerId, input: NewInput, now: Time)
    requires Coherent(db) && Suspend(db, j, w, input, now).Success?
    ensures Coherent(Suspend(db, j, w, input, now).value)
  {
    var d := Suspend(db, j, w, input, now).value;
    var k := InputKey(j, input.call);
    RowOf(db, j);
    if k !in db.inputs {
      var asked := Input(input.id, input.kind, input.context, db.jobs[j].stage, None);
      var db1 := db.(inputs := db.inputs[k := asked], pendingCall := db.pendingCall[j := input.call]);
      var r := AppendEvent(db1, j, "input_requested", input.bytes, ORDINARY_LIMIT);
      AppendEventFrame(db1, j, "input_requested", input.bytes, ORDINARY_LIMIT);
      var row := db.jobs[j].(status := AwaitingInput, stage := AwaitingStage, worker := None, leaseUntil := None, updatedAt := now);
      assert d == WithJob(r.value, j, row);
      AskedInputs(db, d, j, input.call, asked);
      RowChanges(db, d, j, row);
      MoveCoherent(db, d, j);
    }
  }

  lemma ClosedInputs(db: Db, d: Db, j: JobId, answer: Answer)
    requires InputsOk(db) && d.jobs.Keys == db.jobs.Keys
    requires d.inputs == CloseInput(db, j, answer).inputs && d.pendingCall == CloseInput(db, j, answer).pendingCall
    ensures InputsOk(d) && j !in d.pendingCall
    ensures forall i | i != j :: i in d.pendingCall <==> i in db.pendingCall
  {
    assert AskOk(db, j);
    if j in db.pendingCall {
      AskedInputClosed(db, d, j, answer);
    } else {
      forall i ensures AskOk(d, i) { assert AskOk(db, i); }
      forall k ensures InputOk(d, k) { assert InputOk(db, k); }
    }
  }

  lemma AskedInputClosed(db: Db, d: Db, j: JobId, answer: Answer)
    requires InputsOk(db) && d.jobs.Keys == db.jobs.Keys && j in db.pendingCall
    requires InputKey(j, db.pendingCall[j]) in db.inputs
    requires var k := InputKey(j, db.pendingCall[j]); d.inputs == db.inputs[k := db.inputs[k].(answer := Some(answer))]
    requires d.pendingCall == db.pendingCall - {j}
    ensures InputsOk(d)
  {
    forall i ensures AskOk(d, i) { assert AskOk(db, i); }
    forall k ensures InputOk(d, k) { assert InputOk(db, k); }
  }

  lemma AnswerCoherent(db: Db, j: JobId, id: InputId, answer: Answer, bytes: nat, now: Time)
    requires Coherent(db) && AnswerInput(db, j, id, answer, bytes, now).Success?
    ensures Coherent(AnswerInput(db, j, id, answer, bytes, now).value)
  {
    var d := AnswerInput(db, j, id, answer, bytes, now).value;
    var k := InputKey(j, db.pendingCall[j]);
    var row := db.jobs[j].(status := Queued, stage := db.inputs[k].resumeStage, availableAt := now, worker := None,
                           leaseUntil := None, updatedAt := now);
    RowOf(db, j);
    assert InputOk(db, k);
    AppendEventFrame(WithJob(CloseInput(db, j, answer), j, row), j, "input_answered", bytes, ORDINARY_LIMIT);
    ClosedInputs(db, d, j, answer);
    RowChanges(db, d, j, row);
    MoveCoherent(db, d, j);
  }

  lemma CancelCoherent(db: Db, j: JobId, reason: string, bytes: nat, now: Time)
    requires Coherent(db) && Cancel(db, j, reason, bytes, now).Success?
    ensures Coherent(Cancel(db, j, reason, bytes, now).value)
  {
    var d := Cancel(db, j, reason, bytes, now).value;
    AppendEventFrame(CancelledDb(db, j, reason, now), j, "job_cancelled", bytes, TRACE_LIMIT);
    CancelledCoherent(db, j, reason, now);
    TraceCoherent(CancelledDb(db, j, reason, now), d);
  }

  lemma CancelledCoherent(db: Db, j: JobId, reason: string, now: Time)
    requires Coherent(db) && j in db.jobs && !Terminal(db.jobs[j].status)
    ensures Coherent(CancelledDb(db, j, reason, now))
  {
    var row := db.jobs[j].(status := Rejected, stage := CompleteStage, worker := None, leaseUntil := None, updatedAt := now);
    var answer := Reject(Some(Text.Trim(reason)));
    RowOf(db, j);
    var db1 := WithVersionStatus(WithJob(db, j, row), j, RejectedVersion);
    var d := CloseInput(db1, j, answer);
    assert d == CancelledDb(db, j, reason, now);
    ClosedFrame(db1, j, answer);
    ClosedInputs(db, d, j, answer);
    SameTools(db, d);
    RowsChange(db, d, j, row, db.versions[row.version].(status := RejectedVersion));
    MoveCoherent(db, d, j);
  }

  lemma ClosedFrame(db: Db, j: JobId, answer: Answer)
    ensures var d := CloseInput(db, j, answer);
            && d.jobs == db.jobs && d.versions == db.versions && d.tools == db.tools && d.jobByKey == db.jobByKey
            && d.runs == db.runs && d.artifacts == db.artifacts
  {
  }

  // ---------------------------------------------------------------- publication

  lemma PublishCoherent(db: Db, j: JobId, w: WorkerId, a: PublishedArtifact, now: Time)
    requires Coherent(db) && Publish(db, j, w, a, now).Success?
    ensures Coherent(Publish(db, j, w, a, now).value)
  {
    var d := Publish(db, j, w, a, now).value;
    RowOf(db, j);
    var k := db.jobs[j].version;
    var db1 := PublishedDb(db, j, a, now);
    AppendEventFrame(db1, j, "candidate_validated", PUBLISH_BYTES, TRACE_LIMIT);
    assert OnlyTrace(db1, d);
    PublishedLatest(db, d, k);
    RowsChange(db, d, j, db1.jobs[j], db1.versions[k]);
    ChangedJobsOk(db, d, j);
    ChangedVersionsOk(db, d, j);
    ChangedRowsOk(db, d, j);
    ChangedInputsOk(db, d, j);
    PublishedStable(db, d, k);
  }

  lemma PublishedLatest(db: Db, d: Db, k: VersionKey)
    requires k.tool in db.tools && d.tools == db.tools[k.tool := db.tools[k.tool].(stable := Some(k.revision))]
    ensures forall t :: SameLatest(db, d, t)
  {
  }

  lemma PublishedStable(db: Db, d: Db, k: VersionKey)
    requires StableOk(db) && ArtifactsOk(db) && k in d.versions && forall x | x != k :: SameVersion(db, d, x)
    requires d.versions[k].status == ReadyVersion && d.versions[k].digest.Some? && d.versions[k].digest.value in d.artifacts
    requires forall x | x in db.artifacts :: x in d.artifacts
    requires k.tool in db.tools && d.tools == db.tools[k.tool := db.tools[k.tool].(stable := Some(k.revision))]
    ensures StableOk(d) && ArtifactsOk(d)
  {
    forall t ensures StableAt(d, t) {
      assert StableAt(db, t);
      assert ReadyAt(d, k.tool, k.revision);
      if t != k.tool {
        forall r: nat ensures ReadyAt(d, t, r) == ReadyAt(db, t, r) { assert SameVersion(db, d, VersionKey(t, r)); }
      }
    }
    forall x ensures ArtifactOk(d, x) { assert ArtifactOk(db, x) && (x != k ==> SameVersion(db, d, x)); }
  }

  // ---------------------------------------------------------------- revocation

  /** The fallback is the greatest ready revision up to the bound, other than the excepted one. */
  lemma {:induction false} GreatestReadyIsGreatest(db: Db, tool: string, bound: nat, except: nat)
    ensures var g := GreatestReady(db, tool, bound, except);
            if g.Some? then
              && g.value <= bound && g.value != except && ReadyAt(db, tool, g.value)
              && forall r: nat | r <= bound && r != except && ReadyAt(db, tool, r) :: r <= g.value
            else forall r: nat | r <= bound && r != except :: !ReadyAt(db, tool, r)
  {
    if !(ReadyAt(db, tool, bound) && bound != except) && bound > 0 {
      GreatestReadyIsGreatest(db, tool, bound - 1, except);
    }
  }

  /** A revocable version belongs to a published job; it is never in the deprecated state. */
  lemma RevokedJob(db: Db, k: VersionKey)
    returns (j: JobId)
    requires Coherent(db) && k in db.versions && db.versions[k].status in {ReadyVersion, Deprecated}
    ensures db.versions[k].status == ReadyVersion
    ensures IsJobOf(db, j, k) && db.jobs[j].status == Ready
  {
    assert VersionOk(db, k);
    j :| IsJobOf(db, j, k);
    RowOf(db, j);
  }

  lemma RevokeCoherent(db: Db, tool: string, revision: nat)
    requires Coherent(db) && RevokeVersion(db, tool, revision).Success?
    ensures Coherent(RevokeVersion(db, tool, revision).value)
  {
    var d := RevokeVersion(db, tool, revision).value;
    var k := VersionKey(tool, revision);
    var j := RevokedJob(db, k);
    RowOf(db, j);
    RevokedChanges(db, d, j, tool, revision);
    ChangedJobsOk(db, d, j);
    ChangedVersionsOk(db, d, j);
    ChangedRowsOk(db, d, j);
    ChangedInputsOk(db, d, j);
    RevokedStable(db, d, tool, revision);
    forall x ensures ArtifactOk(d, x) { assert ArtifactOk(db, x); }
  }

  lemma RevokedChanges(db: Db, d: Db, j: JobId, tool: string, revision: nat)
    requires RevokeVersion(db, tool, revision) == Success(d) && IsJobOf(db, j, VersionKey(tool, revision))
    ensures ChangesJob(db, d, j) && d.versions[VersionKey(tool, revision)].status == Revoked
  {
    var k := VersionKey(tool, revision);
    assert db.jobs == db.jobs[j := db.jobs[j]];
    RevokedLatest(db, d, tool, NextStable(db, k));
    RowsChange(db, d, j, db.jobs[j], db.versions[k].(status := Revoked));
  }

  lemma RevokedLatest(db: Db, d: Db, tool: string, stable: Option<nat>)
    requires tool in db.tools && d.tools == db.tools[tool := db.tools[tool].(stable := stable)]
    ensures forall t :: SameLatest(db, d, t)
  {
  }

  lemma RevokedStable(db: Db, d: Db, tool: string, revision: nat)
    requires StableOk(db) && VersionsOk(db) && RevokeVersion(db, tool, revision) == Success(d)
    requires db.versions[VersionKey(tool, revision)].status == ReadyVersion
    ensures StableOk(d)
  {
    var k := VersionKey(tool, revision);
    var db1 := WithRevoked(db, k);
    forall t, r: nat ensures ReadyAt(d, t, r) == ReadyAt(db1, t, r) == (ReadyAt(db, t, r) && VersionKey(t, r) != k) { }
    forall t ensures StableAt(d, t) {
      assert StableAt(db, t);
      if t == tool && db.tools[tool].stable == Some(revision) {
        GreatestReadyIsGreatest(db1, tool, db.tools[tool].latest, revision);
        forall r: nat | ReadyAt(db1, tool, r) ensures r <= db.tools[tool].latest { assert VersionOk(db, VersionKey(tool, r)); }
      }
    }
  }

  // ---------------------------------------------------------------- all of them

  /** The stages a worker passes. */
  predicate WorkerStage(a: Action) {
    a.DoSetStage? ==> Working(a.stage)
  }

  lemma RunsKept(db: Db, d: Db)
    requires Coherent(db) && d.runs == db.runs
    ensures forall i | i in d.runs :: i in db.jobs
  {
    forall i | i in d.runs ensures i in db.jobs { assert RunOk(db, i); }
  }

  lemma SaveCheckpointCoherent(db: Db, j: JobId, w: WorkerId, c: Checkpoint)
    requires Coherent(db) && SaveCheckpoint(db, j, w, c).Success?
    ensures Coherent(SaveCheckpoint(db, j, w, c).value)
  {
    var d := SaveCheckpoint(db, j, w, c).value;
    forall i | i in d.runs ensures i in db.jobs { assert RunOk(db, i); }
    SameRowsCoherent(db, d);
  }

  lemma AppendOwnEventCoherent(db: Db, j: JobId, w: WorkerId, kind: string, bytes: nat)
    requires Coherent(db) && AppendOwnEvent(db, j, w, kind, bytes).Success?
    ensures Coherent(AppendOwnEvent(db, j, w, kind, bytes).value)
  {
    AppendEventFrame(db, j, kind, bytes, ORDINARY_LIMIT);
    TraceCoherent(db, AppendOwnEvent(db, j, w, kind, bytes).value);
  }

  lemma CompactCoherent(db: Db, now: Time)
    requires Coherent(db)
    ensures Coherent(Compact(db, now).value)
  {
    RunsKept(db, Compact(db, now).value);
    SameRowsCoherent(db, Compact(db, now).value);
  }

  lemma ApprovalCoherent(db: Db, approvals: map<CapabilityHash, bool>)
    requires Coherent(db)
    ensures Coherent(db.(approvals := approvals))
  {
    RunsKept(db, db.(approvals := approvals));
    SameRowsCoherent(db, db.(approvals := approvals));
  }

  /** Every committed transaction keeps the tables coherent. */
  lemma AttemptCoherent(db: Db, now: Time, a: Action)
    requires Coherent(db) && WorkerStage(a) && Attempt(db, now, a).Success?
    ensures Coherent(Attempt(db, now, a).value)
  {
    match a
    case DoRegister(name, request, key, newJob) => RegisterCoherent(db, name, request, key, newJob, now);
    case DoClaim(j, w) => ClaimCoherent(db, j, w, LEASE, now);
    case DoRenew(j, w) => RenewCoherent(db, j, w, LEASE, now);
    case DoSetStage(j, w, stage) => SetStageCoherent(db, j, w, stage, now);
    case DoSuspend(j, w, input) => SuspendCoherent(db, j, w, input, now);
    case DoAnswer(j, id, answer, bytes) => AnswerCoherent(db, j, id, answer, bytes, now);
    case DoCancel(j, reason, bytes) => CancelCoherent(db, j, reason, bytes, now);
    case DoPublish(j, w, artifact) => PublishCoherent(db, j, w, artifact, now);
    case DoReject(j, w) => RejectCoherent(db, j, w, now);
    case DoSaveContract(j, w, contract) => SaveContractCoherent(db, j, w, contract);
    case DoRevoke(tool, revision) => RevokeCoherent(db, tool, revision);
    case DoSaveCheckpoint(j, w, c) => SaveCheckpointCoherent(db, j, w, c);
    case DoAppendEvent(j, w, kind, bytes) => AppendOwnEventCoherent(db, j, w, kind, bytes);
    case DoCompact => CompactCoherent(db, now);
    case DoApproveCapability(hash) => ApprovalCoherent(db, db.approvals[hash := true]);
    case DoRevokeCapability(hash, _) => ApprovalCoherent(db, db.approvals[hash := false]);
  }
}
