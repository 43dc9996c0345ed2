/** The registry as an object: each method is one transaction that works on its own copy of
    the tables, statement by statement, and commits or rolls back (jit-storage, lib.rs). */
module Registry {
  import opened Wrappers
  import opened ArtifactTypes
  import opened AgentTypes
  import opened Schema
  import opened Transactions
  import opened Coherence
  import opened Commits
  import opened Effects
  import opened Text
  import Approvals
  import Revisions
  import Traces

  datatype ClaimedJob = ClaimedJob(job: JobId, task: Request, attempts: nat, checkpoint: Option<Checkpoint>)

  datatype RevokeResponse = RevokeResponse(revision: nat, stable: Option<nat>)

  type Reply = Result<(), StorageFailure>

  /** What a caller learns of a transaction without a result. */
  function ReplyOf(tx: Tx): Reply {
    if tx.Success? then Success(()) else Failure(tx.error)
  }

  /** append_agent_event_in_transaction, on the tables of the surrounding transaction. */
  method AppendInTransaction(db: Db, j: JobId, kind: string, bytes: nat, limit: int)
    returns (r: Tx)
    ensures r == AppendEvent(db, j, kind, bytes, limit)
  {
    if j !in db.runs { return Failure(InvariantViolated); }
    var payload, size := WithinBudget(bytes, limit - db.runs[j].traceBytes);
    if payload.None? { return Success(db); }
    SameEvent(db, j, kind, payload.value);
    var tx := db.(events := db.events + [Event(db.nextEvent, j, kind, payload.value)], nextEvent := db.nextEvent + 1);
    tx := tx.(runs := tx.runs[j := tx.runs[j].(traceBytes := tx.runs[j].traceBytes + size)]);
    assert tx == WithEvent(db, j, kind, payload.value);
    return Success(tx);
  }

  /** The payload, else the marker of an exhausted budget, else nothing. */
  method WithinBudget(bytes: nat, remaining: int)
    returns (payload: Option<EventPayload>, size: nat)
    ensures payload == RecordedPayload(bytes, remaining)
    ensures payload.Some? ==> size == PayloadSize(payload.value) <= remaining
  {
    var bounded := BoundedPayload(bytes);
    size := PayloadSize(bounded);
    if size <= remaining { return Some(bounded), size; }
    size := PayloadSize(OverBudget);
    if size > remaining { return None, size; }
    return Some(OverBudget), size;
  }

  lemma SameEvent(db: Db, j: JobId, kind: string, p: EventPayload)
    requires j in db.runs
    ensures var tx := db.(events := db.events + [Event(db.nextEvent, j, kind, p)], nextEvent := db.nextEvent + 1);
            tx.(runs := tx.runs[j := tx.runs[j].(traceBytes := tx.runs[j].traceBytes + PayloadSize(p))]) == WithEvent(db, j, kind, p)
  {
  }

  class Registry {
    var db: Db

    ghost predicate Valid()
      reads this
    {
      Coherent(db)
    }

    constructor ()
      ensures Valid() && db == EMPTY
    {
      db := EMPTY;
      EmptyCoherent();
    }

    // -------------------------------------------------------------- registration

    /** A key already accepted answers with the job it was accepted for. */
    method Register(name: string, request: Request, key: string, newJob: JobId, now: Time)
      returns (r: Result<Registration, StorageFailure>)
      requires Valid()
      modifies this
      ensures var t := Attempt(old(db), now, DoRegister(name, request, key, newJob));
              && Valid() && db == After(old(db), t) && r.Success? == t.Success? && (r.Failure? ==> t == Failure(r.error))
      ensures r.Success? ==>
                && key in db.jobByKey && db.jobByKey[key] == r.value.job && r.value.job in db.jobs
                && db.jobs[r.value.job].version == r.value.version && r.value.version in db.versions
                && db.versions[r.value.version].status == r.value.status
    {
      var tx := db;
      assert KeyOk(db, key);
      if key in tx.jobByKey && tx.jobByKey[key] in tx.jobs {
        var stored := tx.jobs[tx.jobByKey[key]];
        if stored.fingerprint != RequestHash(name, request) { return Failure(IdempotencyConflict); }
        assert JobOk(db, tx.jobByKey[key]);
        return Success(Registration(stored.version, tx.versions[stored.version].status, tx.jobByKey[key]));
      }
      if name !in tx.tools { tx := tx.(tools := tx.tools[name := Tool(0, None)]); }
      var row := tx.tools[name];
      if row.latest >= MAX_REVISION { return Failure(InvariantViolated); }
      var version := VersionKey(name, row.latest + 1);
      tx := tx.(tools := tx.tools[name := row.(latest := row.latest + 1)]);
      if version in tx.versions || newJob in tx.jobs { return Failure(UniqueViolation); }
      tx := tx.(versions := tx.versions[version := Version(request, DraftVersion, None, None)]);
      tx := tx.(jobs := tx.jobs[newJob := Job(version, key, RequestHash(name, request), Queued, QueuedStage, 0, now, None, None, now)],
                jobByKey := tx.jobByKey[key := newJob]);
      assert tx == Registered(db, name, request, key, newJob, now);
      AttemptCoherent(db, now, DoRegister(name, request, key, newJob));
      db := tx;
      return Success(Registration(version, DraftVersion, newJob));
    }

    // -------------------------------------------------------------- claims and leases

    /** Any claimable job may be the one the locks leave over; None only when there is none. */
    method ClaimSynthesisJob(w: WorkerId, now: Time)
      returns (r: Option<ClaimedJob>)
      requires Valid()
      modifies this
      ensures Valid()
      ensures match r
              case None => db == old(db) && forall j :: !Claimable(old(db), j, now)
              case Some(c) =>
                && Attempt(old(db), now, DoClaim(c.job, w)) == Success(db)
                && c.job in db.jobs && c.attempts == db.jobs[c.job].attempts
                && db.jobs[c.job].version in db.versions && c.task == db.versions[db.jobs[c.job].version].request
                && c.checkpoint == SavedCheckpoint(db, c.job)
    {
      var tx := db;
      var candidates := set j | j in tx.jobs && Claimable(tx, j, now);
      if candidates == {} {
        forall j ensures !Claimable(db, j, now) { assert j !in candidates; }
        return None;
      }
      var j :| j in candidates;
      var row := tx.jobs[j];
      RowOf(db, j);
      tx := WithJob(tx, j, row.(status := Running,
                                stage := if row.status == Queued && row.stage == QueuedStage then ContractStage else row.stage,
                                attempts := row.attempts + if row.status == Queued && row.stage != QueuedStage then 0 else 1,
                                worker := Some(w), leaseUntil := Some(now + LEASE), updatedAt := now));
      if tx.versions[row.version].status in {DraftVersion, ContractReady, Synthesizing} {
        tx := WithVersionStatus(tx, j, Synthesizing);
      }
      SameClaim(db, j, w, now, tx);
      AttemptCoherent(db, now, DoClaim(j, w));
      db := tx;
      RowOf(db, j);
      return Some(ClaimedJob(j, tx.versions[row.version].request, tx.jobs[j].attempts, SavedCheckpoint(tx, j)));
    }

    method RenewJobLease(j: JobId, w: WorkerId, now: Time)
      returns (r: Reply)
      requires Valid()
      modifies this
      ensures var t := Attempt(old(db), now, DoRenew(j, w)); Valid() && db == After(old(db), t) && r == ReplyOf(t)
      ensures r.Success? <==> Owns(old(db), j, w)
      ensures r.Success? ==> Owns(db, j, w) && forall later: Time :: Claimable(db, j, later) <==> later > now + LEASE
    {
      if !Owns(db, j, w) { return Failure(JobLeaseLost); }
      AttemptCoherent(db, now, DoRenew(j, w));
      db := WithJob(db, j, db.jobs[j].(leaseUntil := Some(now + LEASE), updatedAt := now));
      return Success(());
    }

    /** Two statements that each commit; nothing comes between them here.  A worker passes one
        of the five working stages. */
    method SetJobStage(j: JobId, w: WorkerId, stage: JobStage, now: Time)
      returns (r: Reply)
      requires Valid()
      modifies this
      ensures var t := Attempt(old(db), now, DoSetStage(j, w, stage)); db == After(old(db), t) && r == ReplyOf(t)
      ensures Working(stage) ==> Valid()
      ensures r == if RunsUnder(old(db), j, w) then Success(()) else Failure(JobLeaseLost)
      ensures Working(stage) && r.Success? ==> StagedAs(old(db), db, j, stage, now)
    {
      if Working(stage) { StageCommits(db, j, w, stage, now); }
      if !Owns(db, j, w) { return Failure(JobLeaseLost); }
      ghost var before := db;
      if Working(stage) { AttemptCoherent(before, now, DoSetStage(j, w, stage)); }
      db := WithJob(db, j, db.jobs[j].(stage := stage, leaseUntil := Some(now + LEASE), updatedAt := now));
      var status := StageVersionStatus(stage);
      if status.Some? { db := WithVersionStatus(db, j, status.value); }
      return Success(());
    }

    // -------------------------------------------------------------- questions

    method SuspendJobForInput(j: JobId, w: WorkerId, input: NewInput, now: Time)
      returns (r: Result<InputId, StorageFailure>)
      requires Valid()
      modifies this
      ensures var t := Attempt(old(db), now, DoSuspend(j, w, input));
              && Valid() && db == After(old(db), t) && r.Success? == t.Success? && (r.Failure? ==> t == Failure(r.error))
      ensures r.Success? ==> InputKey(j, input.call) in db.inputs && db.inputs[InputKey(j, input.call)].id == r.value
    {
      ghost var t := Attempt(db, now, DoSuspend(j, w, input));
      var tx := db;
      if !Owns(tx, j, w) { return Failure(JobLeaseLost); }
      var resumeStage := tx.jobs[j].stage;
      if resumeStage in {QueuedStage, AwaitingStage, CompleteStage} { return Failure(InvariantViolated); }
      var key := InputKey(j, input.call);
      if key in tx.inputs { return Success(tx.inputs[key].id); }
      if j in tx.pendingCall { return Failure(UniqueViolation); }
      tx := tx.(inputs := tx.inputs[key := Input(input.id, input.kind, input.context, resumeStage, None)],
                pendingCall := tx.pendingCall[j := input.call]);
      var appended := AppendInTransaction(tx, j, "input_requested", input.bytes, ORDINARY_LIMIT);
      if appended.Failure? { return Failure(appended.error); }
      AppendEventFrame(tx, j, "input_requested", input.bytes, ORDINARY_LIMIT);
      tx := appended.value;
      tx := WithJob(tx, j, tx.jobs[j].(status := AwaitingInput, stage := AwaitingStage, worker := None,
                                       leaseUntil := None, updatedAt := now));
      assert t == Success(tx);
      AttemptCoherent(db, now, DoSuspend(j, w, input));
      db := tx;
      return Success(input.id);
    }

    method AnswerJobInput(j: JobId, id: InputId, answer: Answer, bytes: nat, now: Time)
      returns (r: Reply)
      requires Valid()
      modifies this
      ensures var t := Attempt(old(db), now, DoAnswer(j, id, answer, bytes)); Valid() && db == After(old(db), t) && r == ReplyOf(t)
    {
      ghost var t := Attempt(db, now, DoAnswer(j, id, answer, bytes));
      var tx := db;
      if !IsPending(tx, j, id) { return Failure(JobInputNotFound); }
      var key := InputKey(j, tx.pendingCall[j]);
      var input := tx.inputs[key];
      if !ValidAnswer(input.kind, answer) { return Failure(InvalidJobInputAnswer); }
      tx := tx.(inputs := tx.inputs[key := input.(answer := Some(answer))], pendingCall := tx.pendingCall - {j});
      tx := WithJob(tx, j, tx.jobs[j].(status := Queued, stage := input.resumeStage, availableAt := now, worker := None,
                                       leaseUntil := None, updatedAt := now));
      var appended := AppendInTransaction(tx, j, "input_answered", bytes, ORDINARY_LIMIT);
      if appended.Failure? { return Failure(appended.error); }
      assert t == appended;
      AttemptCoherent(db, now, DoAnswer(j, id, answer, bytes));
      db := appended.value;
      return Success(());
    }

    // -------------------------------------------------------------- the ends of a job

    method CancelJob(j: JobId, reason: string, bytes: nat, now: Time)
      returns (r: Reply)
      requires Valid()
      modifies this
      ensures var t := Attempt(old(db), now, DoCancel(j, reason, bytes)); Valid() && db == After(old(db), t) && r == ReplyOf(t)
    {
      ghost var t := Attempt(db, now, DoCancel(j, reason, bytes));
      if Blank(reason) || |Trim(reason)| > 4096 { return Failure(InvalidCancellationReason); }
      var tx := db;
      if j !in tx.jobs { return Failure(JobNotFound); }
      if Terminal(tx.jobs[j].status) { return Failure(JobNotCancellable(tx.jobs[j].status)); }
      tx := WithJob(tx, j, tx.jobs[j].(status := Rejected, stage := CompleteStage, worker := None, leaseUntil := None,
                                       updatedAt := now));
      tx := WithVersionStatus(tx, j, RejectedVersion);
      tx := CloseInput(tx, j, Reject(Some(Trim(reason))));
      var appended := AppendInTransaction(tx, j, "job_cancelled", bytes, TRACE_LIMIT);
      if appended.Failure? { return Failure(appended.error); }
      assert t == appended;
      AttemptCoherent(db, now, DoCancel(j, reason, bytes));
      db := appended.value;
      return Success(());
    }

    method PublishJob(j: JobId, w: WorkerId, a: PublishedArtifact, now: Time)
      returns (r: Reply)
      requires Valid()
      modifies this
      ensures var t := Attempt(old(db), now, DoPublish(j, w, a)); Valid() && db == After(old(db), t) && r == ReplyOf(t)
    {
      ghost var t := Attempt(db, now, DoPublish(j, w, a));
      var tx := db;
      if !Owns(tx, j, w) { return Failure(JobLeaseLost); }
      RowOf(db, j);
      var k := tx.jobs[j].version;
      if a.digest !in tx.artifacts { tx := tx.(artifacts := tx.artifacts[a.digest := a.manifest]); }
      tx := tx.(versions := tx.versions[k := tx.versions[k].(status := ReadyVersion, contract := Some(a.contract), digest := Some(a.digest))]);
      tx := tx.(tools := tx.tools[k.tool := tx.tools[k.tool].(stable := Some(k.revision))]);
      tx := WithJob(tx, j, tx.jobs[j].(status := Ready, stage := CompleteStage, leaseUntil := None, updatedAt := now));
      var appended := AppendInTransaction(tx, j, "candidate_validated", PUBLISH_BYTES, TRACE_LIMIT);
      if appended.Failure? { return Failure(appended.error); }
      assert t == appended;
      AttemptCoherent(db, now, DoPublish(j, w, a));
      db := appended.value;
      return Success(());
    }

    method RejectJob(j: JobId, w: WorkerId, now: Time)
      returns (r: Reply)
      requires Valid()
      modifies this
      ensures var t := Attempt(old(db), now, DoReject(j, w)); Valid() && db == After(old(db), t) && r == ReplyOf(t)
    {
      var tx := db;
      if !Owns(tx, j, w) { return Failure(JobLeaseLost); }
      AttemptCoherent(db, now, DoReject(j, w));
      tx := WithJob(tx, j, tx.jobs[j].(status := Rejected, stage := CompleteStage, leaseUntil := None, updatedAt := now));
      tx := WithVersionStatus(tx, j, RejectedVersion);
      db := tx;
      return Success(());
    }

    // -------------------------------------------------------------- checkpoints, events, contracts

    method SaveAgentCheckpoint(j: JobId, w: WorkerId, c: Checkpoint, now: Time)
      returns (r: Reply)
      requires Valid()
      modifies this
      ensures var t := Attempt(old(db), now, DoSaveCheckpoint(j, w, c)); Valid() && db == After(old(db), t) && r == ReplyOf(t)
    {
      if !OwnsOrPublished(db, j, w) { return Failure(JobLeaseLost); }
      AttemptCoherent(db, now, DoSaveCheckpoint(j, w, c));
      if j in db.runs {
        db := db.(runs := db.runs[j := db.runs[j].(checkpoint := c)]);
      } else {
        db := db.(runs := db.runs[j := Run(c, 0)]);
      }
      return Success(());
    }

    method AppendAgentEvent(j: JobId, w: WorkerId, kind: string, bytes: nat, now: Time)
      returns (r: Reply)
      requires Valid()
      modifies this
      ensures var t := Attempt(old(db), now, DoAppendEvent(j, w, kind, bytes)); Valid() && db == After(old(db), t) && r == ReplyOf(t)
    {
      if !OwnsOrPublished(db, j, w) { return Failure(JobLeaseLost); }
      var appended := AppendInTransaction(db, j, kind, bytes, ORDINARY_LIMIT);
      if appended.Failure? { return Failure(appended.error); }
      AttemptCoherent(db, now, DoAppendEvent(j, w, kind, bytes));
      db := appended.value;
      return Success(());
    }

    method SaveContract(j: JobId, w: WorkerId, contract: Contract, now: Time)
      returns (r: Reply)
      requires Valid()
      modifies this
      ensures var t := Attempt(old(db), now, DoSaveContract(j, w, contract)); Valid() && db == After(old(db), t) && r == ReplyOf(t)
    {
      if !Owns(db, j, w) { return Failure(JobLeaseLost); }
      RowOf(db, j);
      AttemptCoherent(db, now, DoSaveContract(j, w, contract));
      var k := db.jobs[j].version;
      db := db.(versions := db.versions[k := db.versions[k].(contract := Some(contract))]);
      return Success(());
    }

    // -------------------------------------------------------------- versions

    method RevokeToolVersion(tool: string, revision: nat, now: Time)
      returns (r: Result<RevokeResponse, StorageFailure>)
      requires Valid()
      modifies this
      ensures var t := Attempt(old(db), now, DoRevoke(tool, revision));
              && Valid() && db == After(old(db), t) && r.Success? == t.Success? && (r.Failure? ==> t == Failure(r.error))
      ensures r.Success? ==> tool in db.tools && r.value == RevokeResponse(revision, db.tools[tool].stable)
    {
      var tx := db;
      if tool !in tx.tools { return Failure(ToolNotFound); }
      var stable := tx.tools[tool].stable;
      var k := VersionKey(tool, revision);
      if k !in tx.versions { return Failure(VersionNotFound); }
      if tx.versions[k].status !in {ReadyVersion, Deprecated} { return Failure(VersionNotRevocable(tx.versions[k].status)); }
      AttemptCoherent(db, now, DoRevoke(tool, revision));
      tx := WithRevoked(tx, k);
      if stable == Some(revision) {
        stable := GreatestReady(tx, tool, tx.tools[tool].latest, revision);
        tx := tx.(tools := tx.tools[tool := tx.tools[tool].(stable := stable)]);
      } else {
        assert tx.tools == tx.tools[tool := tx.tools[tool].(stable := stable)];
      }
      db := tx;
      return Success(RevokeResponse(revision, stable));
    }

    method ResolveTool(tool: string, requested: Option<nat>)
      returns (r: Result<ResolvedTool, StorageFailure>)
      requires Valid()
      ensures r == Transactions.ResolveTool(db, tool, requested)
      ensures var at := Revisions.Wanted(db, tool, requested);
              && (r.Success? <==> tool in db.tools && at.Some? && ReadyAt(db, tool, at.value))
              && (r.Success? ==> Revisions.Answers(db, VersionKey(tool, at.value), r.value))
              && (r.Failure? ==> r.error == if tool in db.tools then ToolNotReady else ToolNotFound)
    {
      Revisions.ResolvesExactly(db, tool, requested);
      if tool !in db.tools { return Failure(ToolNotFound); }
      var selected := if requested.Some? then requested else db.tools[tool].stable;
      if selected.None? { return Failure(ToolNotReady); }
      var k := VersionKey(tool, selected.value);
      if k !in db.versions || db.versions[k].status != ReadyVersion { return Failure(ToolNotReady); }
      assert ArtifactOk(db, k);
      var v := db.versions[k];
      return Success(ResolvedTool(selected.value, v.digest.value, v.request.inputFormat, v.request.outputFormat));
    }

    // -------------------------------------------------------------- archives and references

    method CompactAgentTraces(now: Time)
      requires Valid()
      modifies this
      ensures Valid() && Attempt(old(db), now, DoCompact) == Success(db)
      ensures forall j :: j in db.archives ==> EventsOf(db.events, j) == []
      ensures forall j :: j !in old(db.archives) ==>
                            Traces.ArchiveOf(db, j) + EventsOf(db.events, j) == EventsOf(old(db.events), j)
    {
      AttemptCoherent(db, now, DoCompact);
      forall j { Traces.CompactEffect(db, now, j); }
      var tx := db;
      tx := tx.(archives := CompactedArchives(tx, now));
      tx := tx.(events := WithoutArchived(tx.events, tx.archives.Keys));
      db := tx;
    }

    /** The digests of the artifact rows, then those in the checkpoints of active jobs. */
    method ReferencedArtifacts(excluded: Option<JobId>)
      returns (digests: set<Digest>)
      ensures digests == ReferencedDigests(db, excluded)
    {
      digests := db.artifacts.Keys;
      var active := set j | j in db.runs && Protects(db, j, excluded);
      ghost var seen: set<JobId> := {};
      var todo := active;
      while todo != {}
        invariant seen == active - todo && todo <= active
        invariant digests == db.artifacts.Keys + CandidatesOf(db, seen)
      {
        var j :| j in todo;
        digests := digests + db.runs[j].checkpoint.agent.ws.candidateDigests;
        MoreCandidates(db, seen, j);
        todo := todo - {j};
        seen := seen + {j};
      }
      assert seen == active;
      assert CandidatesOf(db, active) ==
             set j, d | j in db.runs && Protects(db, j, excluded) && d in db.runs[j].checkpoint.agent.ws.candidateDigests :: d;
    }

    // -------------------------------------------------------------- approvals

    method ApproveHttpCapability(hash: CapabilityHash, now: Time)
      requires Valid()
      modifies this
      ensures Valid() && Attempt(old(db), now, DoApproveCapability(hash)) == Success(db)
      ensures ActiveCapability(db, hash)
      ensures forall h | h != hash :: ActiveCapability(db, h) <==> ActiveCapability(old(db), h)
    {
      AttemptCoherent(db, now, DoApproveCapability(hash));
      db := db.(approvals := db.approvals[hash := true]);
    }

    method RevokeHttpCapability(hash: CapabilityHash, reason: string, now: Time)
      returns (r: Reply)
      requires Valid()
      modifies this
      ensures var t := Attempt(old(db), now, DoRevokeCapability(hash, reason)); Valid() && db == After(old(db), t) && r == ReplyOf(t)
      ensures r.Success? ==> !ActiveCapability(db, hash) && ActiveCapability(old(db), hash)
      ensures forall h | h != hash || r.Failure? :: ActiveCapability(db, h) <==> ActiveCapability(old(db), h)
    {
      if Blank(reason) || |reason| > 4096 { return Failure(InvalidRevocationReason); }
      if !ActiveCapability(db, hash) { return Failure(HttpCapabilityNotFound); }
      AttemptCoherent(db, now, DoRevokeCapability(hash, reason));
      db := db.(approvals := db.approvals[hash := false]);
      return Success(());
    }

    method AllHttpCapabilitiesApproved(hashes: seq<CapabilityHash>)
      returns (r: bool)
      ensures r <==> Approvals.Distinct(hashes) && forall i | 0 <= i < |hashes| :: ActiveCapability(db, hashes[i])
    {
      Approvals.CountMeansAllActive(db, hashes);
      if hashes == [] { return true; }
      var active := |set h | h in hashes && ActiveCapability(db, h)|;
      return active == |hashes|;
    }
  }

  lemma SameClaim(db: Db, j: JobId, w: WorkerId, now: Time, tx: Db)
    requires Claimable(db, j, now) && db.jobs[j].version in db.versions
    requires var db1 := WithJob(db, j, ClaimedRow(db.jobs[j], w, LEASE, now));
             tx == if db.versions[db.jobs[j].version].status in {DraftVersion, ContractReady, Synthesizing}
                   then WithVersionStatus(db1, j, Synthesizing) else db1
    ensures Claim(db, j, w, LEASE, now) == Success(tx)
  {
    var v := db.versions[db.jobs[j].version];
    if v.status !in {DraftVersion, ContractReady, Synthesizing} {
      assert v.(status := v.status) == v;
      assert db.versions[db.jobs[j].version := v] == db.versions;
    }
  }

  function CandidatesOf(db: Db, jobs: set<JobId>): set<Digest> {
    set j, d | j in jobs && j in db.runs && d in db.runs[j].checkpoint.agent.ws.candidateDigests :: d
  }

  lemma MoreCandidates(db: Db, jobs: set<JobId>, j: JobId)
    requires j in db.runs
    ensures CandidatesOf(db, jobs + {j}) == CandidatesOf(db, jobs) + db.runs[j].checkpoint.agent.ws.candidateDigests
  {
  }
}
