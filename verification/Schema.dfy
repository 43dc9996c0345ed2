/** The tables of the registry (the SQL migrations) as one value.

    A unique index is a map from its key.  Timestamps are microseconds. */
module Schema {
  import opened Wrappers
  import opened ArtifactTypes
  import opened AgentTypes

  type JobId = nat
  type WorkerId = nat
  type InputId = nat
  type Time = int

  const SECOND: Time := 1_000_000
  const LEASE: Time := 300 * SECOND
  const ARCHIVE_AGE: Time := 7 * 24 * 60 * 60 * SECOND
  const TRACE_LIMIT: int := 512 * 1024
  const EVENT_LIMIT: int := 16 * 1024
  const TERMINAL_RESERVE: int := 512
  const MAX_REVISION: int := 0x7fff_ffff_ffff_ffff

  datatype JobStatus = Queued | Running | AwaitingInput | Ready | Rejected

  datatype JobStage =
    | QueuedStage | ContractStage | SynthesizingStage | BuildingStage | ValidatingStage | RepairingStage
    | AwaitingStage | CompleteStage

  datatype VersionStatus =
    | DraftVersion | ContractReady | Synthesizing | Building | Validating
    | ReadyVersion | RejectedVersion | Deprecated | Revoked

  datatype Tool = Tool(latest: nat, stable: Option<nat>)

  datatype VersionKey = VersionKey(tool: string, revision: nat)

  datatype Version = Version(
    request: Request,
    status: VersionStatus,
    contract: Option<Contract>,
    digest: Option<Digest>)

  /** registration_fingerprint. */
  datatype RequestHash = RequestHash(tool: string, request: Request)

  datatype Job = Job(
    version: VersionKey,
    key: string,
    fingerprint: RequestHash,
    status: JobStatus,
    stage: JobStage,
    attempts: nat,
    availableAt: Time,
    leaseUntil: Option<Time>,
    worker: Option<WorkerId>,
    updatedAt: Time)

  datatype InputKey = InputKey(job: JobId, call: string)

  datatype Input = Input(id: InputId, kind: InputKind, context: Context, resumeStage: JobStage, answer: Option<Answer>)

  datatype Checkpoint = Checkpoint(engine: string, engineVersion: string, agent: Agent)

  datatype Run = Run(checkpoint: Checkpoint, traceBytes: int)

  /** An event payload is kept as the length of its encoding. */
  datatype EventPayload = Whole(bytes: nat) | TooLarge(bytes: nat) | OverBudget

  datatype Event = Event(id: nat, job: JobId, kind: string, payload: EventPayload)

  datatype Db = Db(
    tools: map<string, Tool>,
    versions: map<VersionKey, Version>,
    jobs: map<JobId, Job>,
    jobByKey: map<string, JobId>,
    inputs: map<InputKey, Input>,
    pendingCall: map<JobId, string>,
    runs: map<JobId, Run>,
    events: seq<Event>,
    nextEvent: nat,
    archives: map<JobId, seq<Event>>,
    artifacts: map<Digest, Manifest>,
    approvals: map<CapabilityHash, bool>)

  const EMPTY: Db := Db(map[], map[], map[], map[], map[], map[], map[], [], 0, map[], map[], map[])

  datatype StorageFailure =
    | ToolNotFound | VersionNotFound | VersionNotRevocable(status: VersionStatus)
    | JobNotFound | JobNotCancellable(jobStatus: JobStatus) | InvalidCancellationReason
    | JobInputNotFound | InvalidJobInputAnswer
    | HttpCapabilityNotFound | InvalidRevocationReason
    | IdempotencyConflict | ToolNotReady | JobLeaseLost
    | InvariantViolated | UniqueViolation

  predicate Terminal(status: JobStatus) {
    status == Ready || status == Rejected
  }

  /** The stages a worker passes to set_job_stage, and the ones a job can be suspended in. */
  predicate Working(stage: JobStage) {
    stage in {ContractStage, SynthesizingStage, BuildingStage, ValidatingStage, RepairingStage}
  }
}
