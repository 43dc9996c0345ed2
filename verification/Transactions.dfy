/** The registry's transactions as functions (jit-storage, lib.rs).  Success carries the
    committed tables; Failure means nothing was written. */
module Transactions {
  import opened Wrappers
  import opened ArtifactTypes
  import opened AgentTypes
  import opened Schema
  import opened Text

  type Tx = Result<Db, StorageFailure>

  /** The tables after a transaction that may have been rolled back. */
  function After(db: Db, r: Tx): Db {
    if r.Success? then r.value else db
  }

  function WithJob(db: Db, j: JobId, job: Job): Db {
    db.(jobs := db.jobs[j := job])
  }

  /** The version of job j gets this status; without such a job or version nothing happens. */
  function WithVersionStatus(db: Db, j: JobId, status: VersionStatus): Db {
    if j in db.jobs && db.jobs[j].version in db.versions then
      var k := db.jobs[j].version;
      db.(versions := db.versions[k := db.versions[k].(status := status)])
    else db
  }

  predicate Owns(db: Db, j: JobId, w: WorkerId) {
    j in db.jobs && db.jobs[j].worker == Some(w) && db.jobs[j].status == Running
  }

  /** ensure_job_owner also accepts a published job. */
  predicate OwnsOrPublished(db: Db, j: JobId, w: WorkerId) {
    j in db.jobs && db.jobs[j].worker == Some(w) && db.jobs[j].status in {Running, Ready}
  }

  // ---------------------------------------------------------------- trace events

  /** Encoded lengths: {"omitted":true,"reason":"agent trace byte budget exhausted"}, the
      replacement of a payload over 16 KiB without its two variable fields, and
      {"digest":"sha256:..."} around 64 hexadecimal digits (EncodedLengths). */
  const OMITTED_BYTES: nat := 61
  const TOO_LARGE_BYTES: nat := 78
  const HEX_DIGEST: nat := 64
  const PUBLISH_BYTES: nat := 20 + HEX_DIGEST

  lemma EncodedLengths()
    ensures OMITTED_BYTES == |"{\"omitted\":true,\"reason\":\"agent trace byte budget exhausted\"}"|
    ensures TOO_LARGE_BYTES == |"{\"bytes\":,\"omitted\":true,\"reason\":\"event payload exceeded 16 KiB\",\"sha256\":\"\"}"|
    ensures PUBLISH_BYTES == |"{\"digest\":\"sha256:\"}"| + HEX_DIGEST
  {
  }

  function DecimalDigits(n: nat): nat {
    if n < 10 then 1 else 1 + DecimalDigits(n / 10)
  }

  function PayloadSize(p: EventPayload): nat {
    match p
    case Whole(bytes) => bytes
    case TooLarge(bytes) => TOO_LARGE_BYTES + DecimalDigits(bytes) + HEX_DIGEST
    case OverBudget => OMITTED_BYTES
  }

  /** bounded_event_payload. */
  function BoundedPayload(bytes: nat): EventPayload {
    if bytes <= EVENT_LIMIT then Whole(bytes) else TooLarge(bytes)
  }

  /** What is recorded of a payload when so many bytes of budget remain. */
  function RecordedPayload(bytes: nat, remaining: int): Option<EventPayload> {
    if PayloadSize(BoundedPayload(bytes)) <= remaining then Some(BoundedPayload(bytes))
    else if PayloadSize(OverBudget) <= remaining then Some(OverBudget)
    else None
  }

  function WithEvent(db: Db, j: JobId, kind: string, p: EventPayload): Db
    requires j in db.runs
  {
    db.(events := db.events + [Event(db.nextEvent, j, kind, p)],
        nextEvent := db.nextEvent + 1,
        runs := db.runs[j := db.runs[j].(traceBytes := db.runs[j].traceBytes + PayloadSize(p))])
  }

  /** append_agent_event_in_transaction. */
  function AppendEvent(db: Db, j: JobId, kind: string, bytes: nat, limit: int): Tx {
    if j !in db.runs then Failure(InvariantViolated)
    else
      var p := RecordedPayload(bytes, limit - db.runs[j].traceBytes);
      if p.None? then Success(db) else Success(WithEvent(db, j, kind, p.value))
  }

  const ORDINARY_LIMIT: int := TRACE_LIMIT - TERMINAL_RESERVE

  // ---------------------------------------------------------------- registration

  datatype Registration = Registration(version: VersionKey, status: VersionStatus, job: JobId)

  function LatestRevision(db: Db, name: string): nat {
    if name in db.tools then db.tools[name].latest else 0
  }

  /** The rows a new registration writes. */
  function Registered(db: Db, name: string, request: Request, key: string, newJob: JobId, now: Time): Db {
    var revision := LatestRevision(db, name) + 1;
    var k := VersionKey(name, revision);
    var stable := if name in db.tools then db.tools[name].stable else None;
    db.(tools := db.tools[name := Tool(revision, stable)],
        versions := db.versions[k := Version(request, DraftVersion, None, None)],
        jobs := db.jobs[newJob := Job(k, key, RequestHash(name, request), Queued, QueuedStage, 0, now, None, None, now)],
        jobByKey := db.jobByKey[key := newJob])
  }

  function Register(db: Db, name: string, request: Request, key: string, newJob: JobId, now: Time): Tx {
    if key in db.jobByKey && db.jobByKey[key] in db.jobs then
      if db.jobs[db.jobByKey[key]].fingerprint == RequestHash(name, request) then Success(db) else Failure(IdempotencyConflict)
    else if LatestRevision(db, name) >= MAX_REVISION then Failure(InvariantViolated)
    else if newJob in db.jobs || VersionKey(name, LatestRevision(db, name) + 1) in db.versions then Failure(UniqueViolation)
    else Success(Registered(db, name, request, key, newJob, now))
  }

  // ---------------------------------------------------------------- claims and leases

  predicate Claimable(db: Db, j: JobId, now: Time) {
    && j in db.jobs
    && var job := db.jobs[j];
       || (job.status == Queued && job.availableAt <= now)
       || (job.status == Running && job.leaseUntil.Some? && job.leaseUntil.value < now)
  }

  /** A queued job in a later stage was answered: resuming it does not consume an attempt. */
  predicate Resumes(job: Job) {
    job.status == Queued && job.stage != QueuedStage
  }

  function ClaimedRow(job: Job, w: WorkerId, lease: Time, now: Time): Job {
    job.(status := Running,
         stage := if job.status == Queued && job.stage == QueuedStage then ContractStage else job.stage,
         attempts := job.attempts + if Resumes(job) then 0 else 1,
         worker := Some(w),
         leaseUntil := Some(now + lease),
         updatedAt := now)
  }

  /** Only a version not yet being built is marked as synthesizing. */
  function ClaimedStatus(status: VersionStatus): VersionStatus {
    if status in {DraftVersion, ContractReady, Synthesizing} then Synthesizing else status
  }

  function Claim(db: Db, j: JobId, w: WorkerId, lease: Time, now: Time): Tx {
    if !Claimable(db, j, now) then Failure(JobNotFound)
    else
      var job := db.jobs[j];
      var db1 := WithJob(db, j, ClaimedRow(job, w, lease, now));
      if job.version !in db.versions then Success(db1)
      else Success(WithVersionStatus(db1, j, ClaimedStatus(db.versions[job.version].status)))
  }

  function RenewLease(db: Db, j: JobId, w: WorkerId, lease: Time, now: Time): Tx {
    if !Owns(db, j, w) then Failure(JobLeaseLost)
    else Success(WithJob(db, j, db.jobs[j].(leaseUntil := Some(now + lease), updatedAt := now)))
  }

  function StageVersionStatus(stage: JobStage): Option<VersionStatus> {
    match stage
    case BuildingStage => Some(Building)
    case ValidatingStage => Some(Validating)
    case ContractStage => Some(Synthesizing)
    case SynthesizingStage => Some(Synthesizing)
    case RepairingStage => Some(Synthesizing)
    case _ => None
  }

  /** The first statement of set_job_stage. */
  function SetStageRow(db: Db, j: JobId, w: WorkerId, stage: JobStage, now: Time): Tx {
    if !Owns(db, j, w) then Failure(JobLeaseLost)
    else Success(WithJob(db, j, db.jobs[j].(stage := stage, leaseUntil := Some(now + LEASE), updatedAt := now)))
  }

  /** Its second statement, which asks nothing about owner or status. */
  function SetStageVersion(db: Db, j: JobId, stage: JobStage): Db {
    var status := StageVersionStatus(stage);
    if status.Some? then WithVersionStatus(db, j, status.value) else db
  }

  function SetStage(db: Db, j: JobId, w: WorkerId, stage: JobStage, now: Time): Tx {
    var first := SetStageRow(db, j, w, stage, now);
    if first.Failure? then first else Success(SetStageVersion(first.value, j, stage))
  }

  // ---------------------------------------------------------------- questions to the user

  datatype NewInput = NewInput(id: InputId, call: string, kind: InputKind, context: Context, bytes: nat)

  function Suspend(db: Db, j: JobId, w: WorkerId, input: NewInput, now: Time): Tx {
    if !Owns(db, j, w) then Failure(JobLeaseLost)
    else if db.jobs[j].stage in {QueuedStage, AwaitingStage, CompleteStage} then Failure(InvariantViolated)
    else if InputKey(j, input.call) in db.inputs then Success(db)
    else if j in db.pendingCall then Failure(UniqueViolation)
    else
      var db1 := db.(inputs := db.inputs[InputKey(j, input.call) := Input(input.id, input.kind, input.context, db.jobs[j].stage, None)],
                     pendingCall := db.pendingCall[j := input.call]);
      var r := AppendEvent(db1, j, "input_requested", input.bytes, ORDINARY_LIMIT);
      if r.Failure? then r
      else Success(WithJob(r.value, j, db.jobs[j].(status := AwaitingInput, stage := AwaitingStage, worker := None,
                                                   leaseUntil := None, updatedAt := now)))
  }

  function AnsweredInput(db: Db, j: JobId, call: string): Option<Answer> {
    if InputKey(j, call) in db.inputs then db.inputs[InputKey(j, call)].answer else None
  }

  /** validate_job_input_answer. */
  predicate ValidAnswer(kind: InputKind, answer: Answer) {
    match answer
    case Text(text) => kind == Clarification && !Blank(text) && |text| <= 4096
    case Approve => kind != Clarification
    case Reject(reason) => kind != Clarification && (reason.Some? ==> |reason.value| <= 4096)
  }

  /** The pending input of job j, when its id is the one asked for. */
  predicate IsPending(db: Db, j: JobId, id: InputId) {
    && j in db.jobs && db.jobs[j].status == AwaitingInput
    && j in db.pendingCall && InputKey(j, db.pendingCall[j]) in db.inputs
    && db.inputs[InputKey(j, db.pendingCall[j])].id == id
  }

  /** Close the pending input of j, if any, with this answer. */
  function CloseInput(db: Db, j: JobId, answer: Answer): Db {
    if j in db.pendingCall && InputKey(j, db.pendingCall[j]) in db.inputs then
      var k := InputKey(j, db.pendingCall[j]);
      db.(inputs := db.inputs[k := db.inputs[k].(answer := Some(answer))], pendingCall := db.pendingCall - {j})
    else db
  }

  function AnswerInput(db: Db, j: JobId, id: InputId, answer: Answer, bytes: nat, now: Time): Tx {
    if !IsPending(db, j, id) then Failure(JobInputNotFound)
    else
      var input := db.inputs[InputKey(j, db.pendingCall[j])];
      if !ValidAnswer(input.kind, answer) then Failure(InvalidJobInputAnswer)
      else
        var row := db.jobs[j].(status := Queued, stage := input.resumeStage, availableAt := now, worker := None,
                               leaseUntil := None, updatedAt := now);
        AppendEvent(WithJob(CloseInput(db, j, answer), j, row), j, "input_answered", bytes, ORDINARY_LIMIT)
  }

  // ---------------------------------------------------------------- ends of a job

  /** The rows a cancellation writes. */
  function CancelledDb(db: Db, j: JobId, reason: string, now: Time): Db
    requires j in db.jobs
  {
    var row := db.jobs[j].(status := Rejected, stage := CompleteStage, worker := None, leaseUntil := None, updatedAt := now);
    CloseInput(WithVersionStatus(WithJob(db, j, row), j, RejectedVersion), j, Reject(Some(Trim(reason))))
  }

  function Cancel(db: Db, j: JobId, reason: string, bytes: nat, now: Time): Tx {
    if Blank(reason) || |Trim(reason)| > 4096 then Failure(InvalidCancellationReason)
    else if j !in db.jobs then Failure(JobNotFound)
    else if Terminal(db.jobs[j].status) then Failure(JobNotCancellable(db.jobs[j].status))
    else AppendEvent(CancelledDb(db, j, reason, now), j, "job_cancelled", bytes, TRACE_LIMIT)
  }

  function SaveCheckpoint(db: Db, j: JobId, w: WorkerId, c: Checkpoint): Tx {
    if !OwnsOrPublished(db, j, w) then Failure(JobLeaseLost)
    else Success(db.(runs := db.runs[j := Run(c, if j in db.runs then db.runs[j].traceBytes else 0)]))
  }

  function AppendOwnEvent(db: Db, j: JobId, w: WorkerId, kind: string, bytes: nat): Tx {
    if !OwnsOrPublished(db, j, w) then Failure(JobLeaseLost) else AppendEvent(db, j, kind, bytes, ORDINARY_LIMIT)
  }

  function SaveContract(db: Db, j: JobId, w: WorkerId, contract: Contract): Tx {
    if !Owns(db, j, w) || db.jobs[j].version !in db.versions then Failure(JobLeaseLost)
    else
      var k := db.jobs[j].version;
      Success(db.(versions := db.versions[k := db.versions[k].(contract := Some(contract))]))
  }

  datatype PublishedArtifact = PublishedArtifact(digest: Digest, manifest: Manifest, contract: Contract)

  /** The rows a publication writes. */
  function PublishedDb(db: Db, j: JobId, a: PublishedArtifact, now: Time): Db
    requires j in db.jobs
  {
    var k := db.jobs[j].version;
    db.(artifacts := if a.digest in db.artifacts then db.artifacts else db.artifacts[a.digest := a.manifest],
        versions := if k !in db.versions then db.versions
                    else db.versions[k := db.versions[k].(status := ReadyVersion, contract := Some(a.contract), digest := Some(a.digest))],
        tools := if k.tool !in db.tools then db.tools
                 else db.tools[k.tool := db.tools[k.tool].(stable := Some(k.revision))],
        jobs := db.jobs[j := db.jobs[j].(status := Ready, stage := CompleteStage, leaseUntil := None, updatedAt := now)])
  }

  function Publish(db: Db, j: JobId, w: WorkerId, a: PublishedArtifact, now: Time): Tx {
    if !Owns(db, j, w) then Failure(JobLeaseLost)
    else AppendEvent(PublishedDb(db, j, a, now), j, "candidate_validated", PUBLISH_BYTES, TRACE_LIMIT)
  }

  function RejectJob(db: Db, j: JobId, w: WorkerId, now: Time): Tx {
    if !Owns(db, j, w) then Failure(JobLeaseLost)
    else
      var row := db.jobs[j].(status := Rejected, stage := CompleteStage, leaseUntil := None, updatedAt := now);
      Success(WithVersionStatus(WithJob(db, j, row), j, RejectedVersion))
  }

  // ---------------------------------------------------------------- versions

  predicate ReadyAt(db: Db, tool: string, revision: nat) {
    VersionKey(tool, revision) in db.versions && db.versions[VersionKey(tool, revision)].status == ReadyVersion
  }

  /** The greatest ready revision of a tool up to a bound, other than this one. */
  function GreatestReady(db: Db, tool: string, bound: nat, except: nat): Option<nat> {
    if ReadyAt(db, tool, bound) && bound != except then Some(bound)
    else if bound == 0 then None
    else GreatestReady(db, tool, bound - 1, except)
  }

  function WithRevoked(db: Db, k: VersionKey): Db
    requires k in db.versions
  {
    db.(versions := db.versions[k := db.versions[k].(status := Revoked)])
  }

  /** Only a revocation of the stable revision moves the pointer. */
  function NextStable(db: Db, k: VersionKey): Option<nat>
    requires k.tool in db.tools && k in db.versions
  {
    var t := db.tools[k.tool];
    if t.stable == Some(k.revision) then GreatestReady(WithRevoked(db, k), k.tool, t.latest, k.revision) else t.stable
  }

  function RevokeVersion(db: Db, tool: string, revision: nat): Tx {
    var k := VersionKey(tool, revision);
    if tool !in db.tools then Failure(ToolNotFound)
    else if k !in db.versions then Failure(VersionNotFound)
    else if db.versions[k].status !in {ReadyVersion, Deprecated} then Failure(VersionNotRevocable(db.versions[k].status))
    else Success(WithRevoked(db, k).(tools := db.tools[tool := db.tools[tool].(stable := NextStable(db, k))]))
  }

  datatype ResolvedTool = ResolvedTool(revision: nat, digest: Digest, inputFormat: IoFormat, outputFormat: IoFormat)

  function ResolveTool(db: Db, tool: string, requested: Option<nat>): Result<ResolvedTool, StorageFailure> {
    if tool !in db.tools then Failure(ToolNotFound)
    else
      var selected := if requested.Some? then requested else db.tools[tool].stable;
      if selected.None? then Failure(ToolNotReady)
      else if !ReadyAt(db, tool, selected.value) then Failure(ToolNotReady)
      else
        var v := db.versions[VersionKey(tool, selected.value)];
        if v.digest.None? then Failure(InvariantViolated)
        else Success(ResolvedTool(selected.value, v.digest.value, v.request.inputFormat, v.request.outputFormat))
  }

  // ---------------------------------------------------------------- archives, references, approvals

  function EventsOf(events: seq<Event>, j: JobId): seq<Event> {
    if events == [] then []
    else EventsOf(events[..|events| - 1], j) + if events[|events| - 1].job == j then [events[|events| - 1]] else []
  }

  function WithoutArchived(events: seq<Event>, archived: set<JobId>): seq<Event> {
    if events == [] then []
    else WithoutArchived(events[..|events| - 1], archived) +
         if events[|events| - 1].job in archived then [] else [events[|events| - 1]]
  }

  predicate Archivable(db: Db, j: JobId, now: Time) {
    j in db.jobs && Terminal(db.jobs[j].status) && db.jobs[j].updatedAt < now - ARCHIVE_AGE && EventsOf(db.events, j) != []
  }

  function CompactedArchives(db: Db, now: Time): map<JobId, seq<Event>> {
    (map j | j in db.jobs && Archivable(db, j, now) :: EventsOf(db.events, j)) + db.archives
  }

  /** compact_agent_traces: an archive that exists is kept; then the events of all jobs with an
      archive go. */
  function Compact(db: Db, now: Time): Tx {
    var archives := CompactedArchives(db, now);
    Success(db.(archives := archives, events := WithoutArchived(db.events, archives.Keys)))
  }

  /** A running or awaiting job protects the candidates of its saved checkpoint. */
  predicate Protects(db: Db, j: JobId, excluded: Option<JobId>) {
    j in db.runs && j in db.jobs && db.jobs[j].status in {Running, AwaitingInput} && excluded != Some(j)
  }

  /** referenced_artifacts and referenced_artifacts_excluding_job. */
  function ReferencedDigests(db: Db, excluded: Option<JobId>): set<Digest> {
    db.artifacts.Keys +
    set j, d | j in db.runs && Protects(db, j, excluded) && d in db.runs[j].checkpoint.agent.ws.candidateDigests :: d
  }

  function ApproveCapability(db: Db, hash: CapabilityHash): Tx {
    Success(db.(approvals := db.approvals[hash := true]))
  }

  predicate ActiveCapability(db: Db, hash: CapabilityHash) {
    hash in db.approvals && db.approvals[hash]
  }

  function RevokeCapability(db: Db, hash: CapabilityHash, reason: string): Tx {
    if Blank(reason) || |reason| > 4096 then Failure(InvalidRevocationReason)
    else if !ActiveCapability(db, hash) then Failure(HttpCapabilityNotFound)
    else Success(db.(approvals := db.approvals[hash := false]))
  }

  /** all_http_capabilities_approved: a count of rows against the length of the list. */
  predicate AllCapabilitiesApproved(db: Db, hashes: seq<CapabilityHash>) {
    hashes == [] || |set h | h in hashes && ActiveCapability(db, h)| == |hashes|
  }

  // ---------------------------------------------------------------- any transaction

  datatype Action =
    | DoRegister(name: string, request: Request, key: string, newJob: JobId)
    | DoClaim(job: JobId, worker: WorkerId)
    | DoRenew(job: JobId, worker: WorkerId)
    | DoSetStage(job: JobId, worker: WorkerId, stage: JobStage)
    | DoSuspend(job: JobId, worker: WorkerId, input: NewInput)
    | DoAnswer(job: JobId, id: InputId, answer: Answer, bytes: nat)
    | DoCancel(job: JobId, reason: string, bytes: nat)
    | DoSaveCheckpoint(job: JobId, worker: WorkerId, checkpoint: Checkpoint)
    | DoAppendEvent(job: JobId, worker: WorkerId, kind: string, bytes: nat)
    | DoSaveContract(job: JobId, worker: WorkerId, contract: Contract)
    | DoPublish(job: JobId, worker: WorkerId, artifact: PublishedArtifact)
    | DoReject(job: JobId, worker: WorkerId)
    | DoRevoke(tool: string, revision: nat)
    | DoCompact
    | DoApproveCapability(hash: CapabilityHash)
    | DoRevokeCapability(hash: CapabilityHash, reason: string)

  /** Workers claim and renew with the lease of 300 seconds. */
  function Attempt(db: Db, now: Time, a: Action): Tx {
    match a
    case DoRegister(name, request, key, newJob) => Register(db, name, request, key, newJob, now)
    case DoClaim(j, w) => Claim(db, j, w, LEASE, now)
    case DoRenew(j, w) => RenewLease(db, j, w, LEASE, now)
    case DoSetStage(j, w, stage) => SetStage(db, j, w, stage, now)
    case DoSuspend(j, w, input) => Suspend(db, j, w, input, now)
    case DoAnswer(j, id, answer, bytes) => AnswerInput(db, j, id, answer, bytes, now)
    case DoCancel(j, reason, bytes) => Cancel(db, j, reason, bytes, now)
    case DoSaveCheckpoint(j, w, c) => SaveCheckpoint(db, j, w, c)
    case DoAppendEvent(j, w, kind, bytes) => AppendOwnEvent(db, j, w, kind, bytes)
    case DoSaveContract(j, w, contract) => SaveContract(db, j, w, contract)
    case DoPublish(j, w, artifact) => Publish(db, j, w, artifact, now)
    case DoReject(j, w) => RejectJob(db, j, w, now)
    case DoRevoke(tool, revision) => RevokeVersion(db, tool, revision)
    case DoCompact => Compact(db, now)
    case DoApproveCapability(hash) => ApproveCapability(db, hash)
    case DoRevokeCapability(hash, reason) => RevokeCapability(db, hash, reason)
  }
}
