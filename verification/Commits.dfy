/** What each transaction comes to, for its caller: when it commits, with which error it fails, and
    which rows it leaves (jit-storage, lib.rs).  Each is stated of coherent tables, column by
    column, in the terms of the tables. */
module Commits {
  import opened Wrappers
  import opened ArtifactTypes
  import opened AgentTypes
  import opened Schema
  import opened Transactions
  import opened Coherence
  import Text

  /** Job j is running under worker w. */
  predicate RunsUnder(db: Db, j: JobId, w: WorkerId) {
    j in db.jobs && db.jobs[j].status == Running && db.jobs[j].worker == Some(w)
  }

  /** The row of the version that job j builds. */
  function VersionOf(db: Db, j: JobId): Version
    requires j in db.jobs && db.jobs[j].version in db.versions
  {
    db.versions[db.jobs[j].version]
  }

  /** The tables d, with the row of job j and the row of its version as they are in db. */
  function Undone(db: Db, d: Db, j: JobId): Db
    requires j in db.jobs && db.jobs[j].version in db.versions
  {
    d.(jobs := d.jobs[j := db.jobs[j]], versions := d.versions[db.jobs[j].version := VersionOf(db, j)])
  }

  /** Only the row of job j and the row of its version changed. */
  predicate TwoRows(db: Db, d: Db, j: JobId)
    requires j in db.jobs && db.jobs[j].version in db.versions
  {
    j in d.jobs && db.jobs[j].version in d.versions && Undone(db, d, j) == db
  }

  lemma UpdatedRows(db: Db, d: Db, j: JobId, row: Job, v: Version)
    requires j in db.jobs && db.jobs[j].version in db.versions
    requires d == db.(jobs := db.jobs[j := row], versions := db.versions[db.jobs[j].version := v])
    ensures TwoRows(db, d, j) && d.jobs[j] == row && d.versions[db.jobs[j].version] == v
  {
    assert d.jobs[j := db.jobs[j]] == db.jobs;
    assert d.versions[db.jobs[j].version := VersionOf(db, j)] == db.versions;
  }

  // ---------------------------------------------------------------- registration

  /** A known key is answered with its job, or refused to another request; a new key gets the next
      revision of its tool, as a draft, and a queued job. */
  lemma RegisterCommits(db: Db, name: string, request: Request, key: string, newJob: JobId, now: Time)
    requires Coherent(db)
    ensures var r := Attempt(db, now, DoRegister(name, request, key, newJob));
            var latest := if name in db.tools then db.tools[name].latest else 0;
            if key in db.jobByKey then
              db.jobByKey[key] in db.jobs &&
              r == if db.jobs[db.jobByKey[key]].fingerprint == RequestHash(name, request) then Success(db) else Failure(IdempotencyConflict)
            else if latest >= 9223372036854775807 then r == Failure(InvariantViolated)
            else if newJob in db.jobs then r == Failure(UniqueViolation)
            else r.Success? && Enrolled(db, r.value, name, request, key, newJob, latest + 1, now)
  {
    assert KeyOk(db, key);
    assert VersionOk(db, VersionKey(name, LatestRevision(db, name) + 1));
  }

  /** The rows of a new revision, its job and its key; the stable pointer of the tool stays. */
  predicate Enrolled(db: Db, d: Db, name: string, request: Request, key: string, j: JobId, revision: nat, now: Time) {
    var k := VersionKey(name, revision);
    && d == db.(tools := d.tools, versions := d.versions, jobs := d.jobs, jobByKey := d.jobByKey)
    && d.tools == db.tools[name := Tool(revision, if name in db.tools then db.tools[name].stable else None)]
    && d.versions == db.versions[k := Version(request, DraftVersion, None, None)]
    && d.jobs == db.jobs[j := Job(k, key, RequestHash(name, request), Queued, QueuedStage, 0, now, None, None, now)]
    && d.jobByKey == db.jobByKey[key := j]
  }

  // ---------------------------------------------------------------- claims, leases, stages

  /** A job is claimed when it is queued and available, or running with a lease that ended before
      now.  It runs for 300 seconds under its claimer; only a job that was not answered pays an
      attempt; a version that is built or validated stays so. */
  lemma ClaimCommits(db: Db, j: JobId, w: WorkerId, now: Time)
    requires Coherent(db)
    ensures var r := Attempt(db, now, DoClaim(j, w));
            var free := j in db.jobs && ((db.jobs[j].status == Queued && db.jobs[j].availableAt <= now) ||
                                         (db.jobs[j].status == Running && db.jobs[j].leaseUntil.Some? && db.jobs[j].leaseUntil.value < now));
            if !free then r == Failure(JobNotFound) else r.Success? && ClaimedFor(db, r.value, j, w, now)
  {
    if Claimable(db, j, now) {
      RowOf(db, j);
      var row, status := ClaimedRow(db.jobs[j], w, LEASE, now), ClaimedStatus(VersionOf(db, j).status);
      UpdatedRows(db, Claim(db, j, w, LEASE, now).value, j, row, VersionOf(db, j).(status := status));
    }
  }

  predicate ClaimedFor(db: Db, d: Db, j: JobId, w: WorkerId, now: Time) {
    && j in db.jobs && db.jobs[j].version in db.versions && TwoRows(db, d, j)
    && var was, row, v := db.jobs[j], d.jobs[j], VersionOf(db, j);
       var answered := was.status == Queued && was.stage != QueuedStage;
       && row == was.(status := Running, stage := row.stage, attempts := row.attempts, worker := Some(w),
                      leaseUntil := Some(now + 300_000_000), updatedAt := now)
       && row.stage == (if was.stage == QueuedStage then ContractStage else was.stage)
       && row.attempts == was.attempts + (if answered then 0 else 1)
       && d.versions[was.version] == v.(status := if v.status in {Building, Validating} then v.status else Synthesizing)
  }

  lemma RenewCommits(db: Db, j: JobId, w: WorkerId, now: Time)
    requires Coherent(db)
    ensures var r := Attempt(db, now, DoRenew(j, w));
            if !RunsUnder(db, j, w) then r == Failure(JobLeaseLost)
            else r == Success(db.(jobs := db.jobs[j := db.jobs[j].(leaseUntil := Some(now + 300_000_000), updatedAt := now)]))
  {
  }

  /** After a stage change the job is in the stage, with a fresh lease, and its version is being
      built exactly in the building stage, validated exactly in the validating stage, and
      synthesized in every other working stage. */
  lemma StageCommits(db: Db, j: JobId, w: WorkerId, stage: JobStage, now: Time)
    requires Coherent(db) && Working(stage)
    ensures var r := Attempt(db, now, DoSetStage(j, w, stage));
            if !RunsUnder(db, j, w) then r == Failure(JobLeaseLost) else r.Success? && StagedAs(db, r.value, j, stage, now)
  {
    if Owns(db, j, w) {
      RowOf(db, j);
      var row := db.jobs[j].(stage := stage, leaseUntil := Some(now + LEASE), updatedAt := now);
      UpdatedRows(db, SetStage(db, j, w, stage, now).value, j, row,
                  VersionOf(db, j).(status := StageVersionStatus(stage).value));
    }
  }

  predicate StagedAs(db: Db, d: Db, j: JobId, stage: JobStage, now: Time) {
    && j in db.jobs && db.jobs[j].version in db.versions && TwoRows(db, d, j)
    && d.jobs[j] == db.jobs[j].(stage := stage, leaseUntil := Some(now + 300_000_000), updatedAt := now)
    && var v := d.versions[db.jobs[j].version];
       v == VersionOf(db, j).(status := v.status) && Matches(v.status, stage)
  }

  /** The version is building, validating or synthesizing as the stage of its job says. */
  predicate Matches(status: VersionStatus, stage: JobStage) {
    && (status == Building <==> stage == BuildingStage)
    && (status == Validating <==> stage == ValidatingStage)
    && (status == Synthesizing <==> stage in {ContractStage, SynthesizingStage, RepairingStage})
  }

  // ---------------------------------------------------------------- events

  /** The bytes of a decimal number. */
  function TenTo(n: nat): nat {
    if n == 0 then 1 else 10 * TenTo(n - 1)
  }

  lemma {:induction false} DigitsExactly(n: nat)
    ensures var k := DecimalDigits(n); k >= 1 && n < TenTo(k) && (k > 1 ==> TenTo(k - 1) <= n)
  {
    if n >= 10 {
      DigitsExactly(n / 10);
      var k := DecimalDigits(n / 10);
      assert TenTo(k + 1) == 10 * TenTo(k);
      if k > 1 { assert TenTo(k) == 10 * TenTo(k - 1); }
    }
  }

  /** An event of so many bytes is recorded in full up to 16 KiB, and otherwise by its length and
      hash; where that does not fit the budget a marker of 61 bytes is, if it fits, and else
      nothing.  The counter of the run grows by what was recorded. */
  predicate Logged(db: Db, d: Db, j: JobId, kind: string, bytes: nat, limit: int)
    requires j in db.runs
  {
    var run := db.runs[j];
    var size := if bytes <= 16384 then bytes else 78 + DecimalDigits(bytes) + 64;
    var left := limit - run.traceBytes;
    if size <= left then LoggedAs(db, d, j, kind, if bytes <= 16384 then Whole(bytes) else TooLarge(bytes), size)
    else if 61 <= left then LoggedAs(db, d, j, kind, OverBudget, 61)
    else d.events == db.events && d.nextEvent == db.nextEvent && d.runs == db.runs
  }

  predicate LoggedAs(db: Db, d: Db, j: JobId, kind: string, payload: EventPayload, size: nat)
    requires j in db.runs
  {
    && d.events == db.events + [Event(db.nextEvent, j, kind, payload)] && d.nextEvent == db.nextEvent + 1
    && d.runs == db.runs[j := Run(db.runs[j].checkpoint, db.runs[j].traceBytes + size)]
  }

  /** The tables d with the trace of db. */
  function Untraced(db: Db, d: Db): Db {
    d.(events := db.events, nextEvent := db.nextEvent, runs := db.runs)
  }

  lemma AppendLogs(db: Db, db1: Db, j: JobId, kind: string, bytes: nat, limit: int)
    requires Untraced(db, db1) == db1
    ensures var r := AppendEvent(db1, j, kind, bytes, limit);
            if j !in db.runs then r == Failure(InvariantViolated)
            else r.Success? && Untraced(db, r.value) == db1 && Logged(db, r.value, j, kind, bytes, limit)
  {
  }

  /** An event is appended by the owner of a running job, or by the last owner of a published one. */
  lemma EventCommits(db: Db, j: JobId, w: WorkerId, kind: string, bytes: nat, now: Time)
    ensures var r := Attempt(db, now, DoAppendEvent(j, w, kind, bytes));
            if !(j in db.jobs && db.jobs[j].worker == Some(w) && (db.jobs[j].status == Running || db.jobs[j].status == Ready))
            then r == Failure(JobLeaseLost)
            else if j !in db.runs then r == Failure(InvariantViolated)
            else r.Success? && Untraced(db, r.value) == db && Logged(db, r.value, j, kind, bytes, 523776)
  {
    AppendLogs(db, db, j, kind, bytes, ORDINARY_LIMIT);
  }

  /** So is a checkpoint saved; a run keeps its byte counter. */
  lemma CheckpointCommits(db: Db, j: JobId, w: WorkerId, c: Checkpoint, now: Time)
    ensures var r := Attempt(db, now, DoSaveCheckpoint(j, w, c));
            if !(j in db.jobs && db.jobs[j].worker == Some(w) && (db.jobs[j].status == Running || db.jobs[j].status == Ready))
            then r == Failure(JobLeaseLost)
            else r == Success(db.(runs := db.runs[j := Run(c, if j in db.runs then db.runs[j].traceBytes else 0)]))
  {
  }

  lemma ContractCommits(db: Db, j: JobId, w: WorkerId, contract: Contract, now: Time)
    requires Coherent(db)
    ensures var r := Attempt(db, now, DoSaveContract(j, w, contract));
            if !RunsUnder(db, j, w) then r == Failure(JobLeaseLost)
            else
              && db.jobs[j].version in db.versions
              && r == Success(db.(versions := db.versions[db.jobs[j].version := VersionOf(db, j).(contract := Some(contract))]))
  {
    if Owns(db, j, w) { RowOf(db, j); }
  }

  // ---------------------------------------------------------------- questions to the user

  /** A question is stored under its call, with the stage to resume in, and the job waits for it
      without owner or lease; one already stored under that call changes nothing. */
  lemma SuspendCommits(db: Db, j: JobId, w: WorkerId, input: NewInput, now: Time)
    requires Coherent(db)
    ensures var r := Attempt(db, now, DoSuspend(j, w, input)); var key := InputKey(j, input.call);
            if !RunsUnder(db, j, w) then r == Failure(JobLeaseLost)
            else if key in db.inputs then r == Success(db)
            else if j !in db.runs then r == Failure(InvariantViolated)
            else r.Success? && AskedOf(db, r.value, j, input, now) && Logged(db, r.value, j, "input_requested", input.bytes, 523776)
  {
    if Owns(db, j, w) {
      RowOf(db, j);
      var key := InputKey(j, input.call);
      var db1 := db.(inputs := db.inputs[key := Input(input.id, input.kind, input.context, db.jobs[j].stage, None)],
                     pendingCall := db.pendingCall[j := input.call]);
      AppendLogs(db, db1, j, "input_requested", input.bytes, ORDINARY_LIMIT);
    }
  }

  predicate AskedOf(db: Db, d: Db, j: JobId, input: NewInput, now: Time)
    requires j in db.jobs
  {
    var row := db.jobs[j].(status := AwaitingInput, stage := AwaitingStage, worker := None, leaseUntil := None, updatedAt := now);
    var asked := Input(input.id, input.kind, input.context, db.jobs[j].stage, None);
    Untraced(db, d) == db.(jobs := db.jobs[j := row], inputs := db.inputs[InputKey(j, input.call) := asked],
                           pendingCall := db.pendingCall[j := input.call])
  }

  /** An answer fits its question: text of at most 4096 bytes for a clarification and only for it;
      an approval, or a rejection with a reason of at most 4096 bytes, for the others. */
  predicate Fits(kind: InputKind, answer: Answer) {
    match kind
    case Clarification => answer.Text? && |answer.text| <= 4096 && exists i | 0 <= i < |answer.text| :: !Text.IsSpace(answer.text[i])
    case SourceApproval => answer.Approve? || (answer.Reject? && (answer.reason.Some? ==> |answer.reason.value| <= 4096))
    case ExampleCorrection => answer.Approve? || (answer.Reject? && (answer.reason.Some? ==> |answer.reason.value| <= 4096))
  }

  /** Job j waits for the question of this id. */
  predicate WaitsFor(db: Db, j: JobId, id: InputId) {
    && j in db.jobs && db.jobs[j].status == AwaitingInput
    && j in db.pendingCall && InputKey(j, db.pendingCall[j]) in db.inputs && db.inputs[InputKey(j, db.pendingCall[j])].id == id
  }

  /** The answer of the right kind closes the question that the job waits for and queues the job, at
      once and in the stage it was suspended in. */
  lemma AnswerCommits(db: Db, j: JobId, id: InputId, answer: Answer, bytes: nat, now: Time)
    requires Coherent(db)
    ensures var r := Attempt(db, now, DoAnswer(j, id, answer, bytes));
            if !WaitsFor(db, j, id) then r == Failure(JobInputNotFound)
            else if !Fits(db.inputs[InputKey(j, db.pendingCall[j])].kind, answer) then r == Failure(InvalidJobInputAnswer)
            else if j !in db.runs then r == Failure(InvariantViolated)
            else r.Success? && ResumedWith(db, r.value, j, answer, now) && Logged(db, r.value, j, "input_answered", bytes, 523776)
  {
    if IsPending(db, j, id) {
      var input := db.inputs[InputKey(j, db.pendingCall[j])];
      FitsExactly(input.kind, answer);
      var row := db.jobs[j].(status := Queued, stage := input.resumeStage, availableAt := now, worker := None,
                             leaseUntil := None, updatedAt := now);
      AppendLogs(db, WithJob(CloseInput(db, j, answer), j, row), j, "input_answered", bytes, ORDINARY_LIMIT);
    }
  }

  lemma FitsExactly(kind: InputKind, answer: Answer)
    ensures ValidAnswer(kind, answer) <==> Fits(kind, answer)
  {
  }

  predicate ResumedWith(db: Db, d: Db, j: JobId, answer: Answer, now: Time)
    requires j in db.jobs && j in db.pendingCall && InputKey(j, db.pendingCall[j]) in db.inputs
  {
    var key := InputKey(j, db.pendingCall[j]);
    var row := db.jobs[j].(status := Queued, stage := db.inputs[key].resumeStage, availableAt := now, worker := None,
                           leaseUntil := None, updatedAt := now);
    Untraced(db, d) == db.(jobs := db.jobs[j := row], inputs := db.inputs[key := db.inputs[key].(answer := Some(answer))],
                           pendingCall := db.pendingCall - {j})
  }

  // ---------------------------------------------------------------- the ends of a job

  /** The trimmed reason says something, in at most 4096 bytes. */
  predicate GivesReason(reason: string) {
    (exists i | 0 <= i < |reason| :: !Text.IsSpace(reason[i])) && |Text.Trim(reason)| <= 4096
  }

  /** A cancellation rejects a live job and its version, and closes its question with a rejection
      for the trimmed reason. */
  lemma CancelCommits(db: Db, j: JobId, reason: string, bytes: nat, now: Time)
    requires Coherent(db)
    ensures var r := Attempt(db, now, DoCancel(j, reason, bytes));
            if !GivesReason(reason) then r == Failure(InvalidCancellationReason)
            else if j !in db.jobs then r == Failure(JobNotFound)
            else if db.jobs[j].status == Ready || db.jobs[j].status == Rejected then r == Failure(JobNotCancellable(db.jobs[j].status))
            else if j !in db.runs then r == Failure(InvariantViolated)
            else r.Success? && CalledOff(db, r.value, j, reason, now) && Logged(db, r.value, j, "job_cancelled", bytes, 524288)
  {
    if j in db.jobs && !Terminal(db.jobs[j].status) {
      CancelledRows(db, j, reason, now);
      AppendLogs(db, CancelledDb(db, j, reason, now), j, "job_cancelled", bytes, TRACE_LIMIT);
      SameRowsCalledOff(db, j, reason, bytes, now);
    }
  }

  /** The event comes after the rows. */
  lemma SameRowsCalledOff(db: Db, j: JobId, reason: string, bytes: nat, now: Time)
    requires j in db.jobs && CalledOff(db, CancelledDb(db, j, reason, now), j, reason, now)
    requires Untraced(db, CancelledDb(db, j, reason, now)) == CancelledDb(db, j, reason, now)
    ensures forall d | Untraced(db, d) == CancelledDb(db, j, reason, now) :: CalledOff(db, d, j, reason, now)
  {
  }

  lemma CancelledRows(db: Db, j: JobId, reason: string, now: Time)
    requires Coherent(db) && j in db.jobs
    ensures var d := CancelledDb(db, j, reason, now);
            Untraced(db, d) == d && CalledOff(db, d, j, reason, now)
  {
    RowOf(db, j);
    assert AskOk(db, j);
  }

  predicate CalledOff(db: Db, d: Db, j: JobId, reason: string, now: Time) {
    && j in db.jobs && db.jobs[j].version in db.versions
    && (j in db.pendingCall ==> InputKey(j, db.pendingCall[j]) in db.inputs)
    && var row := db.jobs[j].(status := Rejected, stage := CompleteStage, worker := None, leaseUntil := None, updatedAt := now);
       var rows := db.(jobs := db.jobs[j := row], versions := db.versions[row.version := VersionOf(db, j).(status := RejectedVersion)]);
       Untraced(db, d) ==
       if j !in db.pendingCall then rows
       else
         var key := InputKey(j, db.pendingCall[j]);
         rows.(inputs := db.inputs[key := db.inputs[key].(answer := Some(Reject(Some(Text.Trim(reason)))))],
               pendingCall := db.pendingCall - {j})
  }

  lemma RejectCommits(db: Db, j: JobId, w: WorkerId, now: Time)
    requires Coherent(db)
    ensures var r := Attempt(db, now, DoReject(j, w));
            if !RunsUnder(db, j, w) then r == Failure(JobLeaseLost)
            else
              && r.Success? && db.jobs[j].version in db.versions && TwoRows(db, r.value, j)
              && r.value.jobs[j] == db.jobs[j].(status := Rejected, stage := CompleteStage, leaseUntil := None, updatedAt := now)
              && r.value.versions[db.jobs[j].version] == VersionOf(db, j).(status := RejectedVersion)
  {
    if Owns(db, j, w) {
      RowOf(db, j);
      var row := db.jobs[j].(status := Rejected, stage := CompleteStage, leaseUntil := None, updatedAt := now);
      UpdatedRows(db, RejectJob(db, j, w, now).value, j, row, VersionOf(db, j).(status := RejectedVersion));
    }
  }

  /** A publication makes the job and its version ready with the digest and contract of the
      artifact, points the tool at this revision, and records the manifest of a new digest. */
  lemma PublishCommits(db: Db, j: JobId, w: WorkerId, a: PublishedArtifact, now: Time)
    requires Coherent(db)
    ensures var r := Attempt(db, now, DoPublish(j, w, a));
            if !RunsUnder(db, j, w) then r == Failure(JobLeaseLost)
            else if j !in db.runs then r == Failure(InvariantViolated)
            else r.Success? && IssuedAs(db, r.value, j, a, now) && Logged(db, r.value, j, "candidate_validated", 84, 524288)
  {
    if Owns(db, j, w) {
      RowOf(db, j);
      AppendLogs(db, PublishedDb(db, j, a, now), j, "candidate_validated", PUBLISH_BYTES, TRACE_LIMIT);
    }
  }

  predicate IssuedAs(db: Db, d: Db, j: JobId, a: PublishedArtifact, now: Time) {
    && j in db.jobs && db.jobs[j].version in db.versions && db.jobs[j].version.tool in db.tools
    && var k := db.jobs[j].version;
       Untraced(db, d) == db.(
         jobs := db.jobs[j := db.jobs[j].(status := Ready, stage := CompleteStage, leaseUntil := None, updatedAt := now)],
         versions := db.versions[k := Version(VersionOf(db, j).request, ReadyVersion, Some(a.contract), Some(a.digest))],
         tools := db.tools[k.tool := Tool(db.tools[k.tool].latest, Some(k.revision))],
         artifacts := d.artifacts)
       && d.artifacts.Keys == db.artifacts.Keys + {a.digest}
       && forall x | x in d.artifacts :: d.artifacts[x] == if x in db.artifacts then db.artifacts[x] else a.manifest
  }

  // ---------------------------------------------------------------- versions, capabilities, archives

  /** Only a ready version is revoked; the pointer moves, to the greatest ready revision left, exactly
      when it named the revoked one. */
  lemma RevokeCommits(db: Db, tool: string, revision: nat, now: Time)
    requires Coherent(db)
    ensures var r := Attempt(db, now, DoRevoke(tool, revision)); var k := VersionKey(tool, revision);
            if tool !in db.tools then r == Failure(ToolNotFound)
            else if k !in db.versions then r == Failure(VersionNotFound)
            else if db.versions[k].status != ReadyVersion then r == Failure(VersionNotRevocable(db.versions[k].status))
            else r.Success? && Withdrawn(db, r.value, k)
  {
    var k := VersionKey(tool, revision);
    if tool in db.tools && k in db.versions && db.versions[k].status in {ReadyVersion, Deprecated} {
      var j := RevokedJob(db, k);
      var db1, d := WithRevoked(db, k), RevokeVersion(db, tool, revision).value;
      GreatestReadyIsGreatest(db1, tool, db.tools[tool].latest, revision);
      forall n: nat | IsReady(d, tool, n) ensures n <= db.tools[tool].latest && n != revision && ReadyAt(db1, tool, n) {
        assert VersionOk(db, VersionKey(tool, n));
      }
      assert forall n: nat | ReadyAt(db1, tool, n) :: IsReady(d, tool, n);
    }
  }

  predicate IsReady(db: Db, tool: string, revision: nat) {
    VersionKey(tool, revision) in db.versions && db.versions[VersionKey(tool, revision)].status == ReadyVersion
  }

  ghost predicate Withdrawn(db: Db, d: Db, k: VersionKey) {
    && k in db.versions && k.tool in db.tools && k.tool in d.tools
    && d == db.(versions := db.versions[k := db.versions[k].(status := Revoked)], tools := d.tools)
    && d.tools == db.tools[k.tool := Tool(db.tools[k.tool].latest, d.tools[k.tool].stable)]
    && (if db.tools[k.tool].stable != Some(k.revision) then d.tools[k.tool].stable == db.tools[k.tool].stable
        else match d.tools[k.tool].stable
             case Some(n) => IsReady(d, k.tool, n) && forall m: nat | IsReady(d, k.tool, m) :: m <= n
             case None => forall m: nat :: !IsReady(d, k.tool, m))
  }

  lemma CapabilityCommits(db: Db, hash: CapabilityHash, reason: string, now: Time)
    ensures Attempt(db, now, DoApproveCapability(hash)) == Success(db.(approvals := db.approvals[hash := true]))
    ensures var r := Attempt(db, now, DoRevokeCapability(hash, reason));
            if !(|reason| <= 4096 && exists i | 0 <= i < |reason| :: !Text.IsSpace(reason[i])) then r == Failure(InvalidRevocationReason)
            else if !(hash in db.approvals && db.approvals[hash]) then r == Failure(HttpCapabilityNotFound)
            else r == Success(db.(approvals := db.approvals[hash := false]))
  {
  }
}
