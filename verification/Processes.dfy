/** The registry together with the worker processes that drive agents: load, save, model turn,
    tool call, crash (jobs.rs, handle_job, process_job and drive_agent).

    A tool call is one step; what it asks of the registry is answered by the registry. */
module Processes {
  import opened Wrappers
  import opened ArtifactTypes
  import opened AgentTypes
  import opened Schema
  import opened Transactions
  import opened Effects
  import opened Histories
  import opened ToolCalls
  import opened PublicationGate
  import opened Collection

  const MAX_JOB_ATTEMPTS: nat := 3
  const AGENT_ENGINE := "rig-agent-run"
  const AGENT_ENGINE_VERSION := "rig-core-0.40.0+jitforge-agent-v1"

  datatype ProcId = ProcId(job: JobId, worker: WorkerId)

  /** `saved`: the last thing this process did was to save its agent. */
  datatype Proc = Proc(agent: Agent, saved: bool)

  /** The last three are history variables: what each published version rests on, how often
      the sandbox probed for a job, and how often a claim that no answer preceded started an
      agent for it. */
  datatype Sys = Sys(
    db: Db,
    now: Time,
    procs: map<ProcId, Proc>,
    evidence: map<VersionKey, Evidence>,
    probes: map<JobId, nat>,
    starts: map<JobId, nat>)

  const IDLE: Sys := Sys(EMPTY, 0, map[], map[], map[], map[])

  /** The fresh id of a question, and the encoded length of its event. */
  datatype Slip = Slip(id: InputId, bytes: nat)

  datatype Move =
    | Pass(elapsed: nat)
    | Other(action: Action)
    | Take(job: JobId, worker: WorkerId)
    | Save(job: JobId, worker: WorkerId)
    | Turn(job: JobId, worker: WorkerId, pending: PendingCall)
    | RefuseBatch(job: JobId, worker: WorkerId)
    | UseTool(job: JobId, worker: WorkerId, oracle: Oracle, slip: Slip)
    | Crash(job: JobId, worker: WorkerId)

  // ---------------------------------------------------------------- one process

  function Saved(a: Agent): Checkpoint {
    Checkpoint(AGENT_ENGINE, AGENT_ENGINE_VERSION, a)
  }

  /** load_or_create_run; None is an incompatible checkpoint. */
  function Loaded(db: Db, j: JobId): Option<Agent> {
    match SavedCheckpoint(db, j)
    case None => Some(FRESH_AGENT)
    case Some(c) => if c.engine == AGENT_ENGINE && c.engineVersion == AGENT_ENGINE_VERSION then Some(c.agent) else None
  }

  /** handle_job works on a claimed job only up to the third attempt. */
  function Started(db: Db, j: JobId): Option<Agent> {
    if j in db.jobs && db.jobs[j].attempts <= MAX_JOB_ATTEMPTS then Loaded(db, j) else None
  }

  /** available_tools counts the turn before it lists the tools. */
  function Counted(ws: Workspace): Workspace {
    ws.(metrics := ws.metrics.(turns := ws.metrics.turns + 1))
  }

  /** The request of the version a job builds. */
  function TaskOf(db: Db, j: JobId): Option<Request> {
    if j in db.jobs && db.jobs[j].version in db.versions then Some(db.versions[db.jobs[j].version].request) else None
  }

  function StartCount(s: Sys, j: JobId): nat {
    if j in s.starts then s.starts[j] else 0
  }

  function ProbeCount(s: Sys, j: JobId): nat {
    if j in s.probes then s.probes[j] else 0
  }

  /** The answers of an oracle that come from the registry: a write succeeds only for the
      owner, and may fail for it too when the lease is lost during the call; the answer of the
      user is the one under the id of the very call that is pending. */
  predicate Agrees(db: Db, j: JobId, w: WorkerId, p: PendingCall, o: Oracle) {
    && (o.stageBuildingOk || o.stageValidatingOk || o.saveContractOk || o.suspendOk || o.publishOk ==> Owns(db, j, w))
    && (o.publishOk ==> j in db.runs)
    && o.answer == AnsweredInput(db, j, p.id)
    && (p.call.RequestHttpCapability? && p.call.capability.Some? ==>
          o.alreadyApproved == ActiveCapability(db, HashCapability(p.call.capability.value)))
  }

  // ---------------------------------------------------------------- the moves

  function TakeNext(s: Sys, j: JobId, w: WorkerId): Sys {
    var r := Claim(s.db, j, w, LEASE, s.now);
    var id := ProcId(j, w);
    if r.Failure? then s
    else
      match Started(r.value, j)
      case None => s.(db := r.value, procs := s.procs - {id})
      case Some(a) =>
        s.(db := r.value, procs := s.procs[id := Proc(a, false)],
           starts := s.starts[j := StartCount(s, j) + if Resumes(s.db.jobs[j]) then 0 else 1])
  }

  function SaveNext(s: Sys, j: JobId, w: WorkerId): Sys {
    var id := ProcId(j, w);
    if id !in s.procs then s
    else
      var r := SaveCheckpoint(s.db, j, w, Saved(s.procs[id].agent));
      if r.Failure? then s.(procs := s.procs - {id})
      else s.(db := r.value, procs := s.procs[id := s.procs[id].(saved := true)])
  }

  /** The model chooses an advertised call; the agent must be saved again before it runs. */
  function TurnNext(s: Sys, j: JobId, w: WorkerId, p: PendingCall): Sys {
    var id := ProcId(j, w);
    if id !in s.procs || !s.procs[id].saved || s.procs[id].agent.pending.Some? then s
    else
      var a := s.procs[id].agent;
      if !Advertised(Counted(a.ws), p.call) then s
      else s.(procs := s.procs[id := Proc(a.(ws := Counted(a.ws), pending := Some(p)), false)])
  }

  function RefuseNext(s: Sys, j: JobId, w: WorkerId): Sys {
    var id := ProcId(j, w);
    if id !in s.procs || !s.procs[id].saved then s
    else s.(procs := s.procs[id := Proc(s.procs[id].agent.(pending := None), false)])
  }

  function Question(call: string, slip: Slip, kind: InputKind, context: Context): NewInput {
    NewInput(slip.id, call, kind, context, slip.bytes)
  }

  /** How a tool call that ended in outcome r leaves processes, tables and evidence. */
  ghost function Settled(s: Sys, j: JobId, w: WorkerId, task: Request, r: Outcome, o: Oracle, call: string, slip: Slip): Sys
    requires j in s.db.jobs
  {
    var id := ProcId(j, w);
    match r.execution
    case Continue => s.(procs := s.procs[id := Proc(Agent(r.ws, r.audit, None), false)])
    case Failed(_) => s.(procs := s.procs - {id})
    case Suspended(kind, context) =>
      s.(procs := s.procs - {id}, db := After(s.db, Suspend(s.db, j, w, Question(call, slip, kind, context), s.now)))
    case Published(b) =>
      s.(procs := s.procs - {id},
         db := After(s.db, Publish(s.db, j, w, Artifact(b), s.now)),
         evidence := if r.audit.accepted.Some? && r.audit.acceptedReview.Some?
                     then s.evidence[s.db.jobs[j].version := EvidenceOf(task, r, o)] else s.evidence)
  }

  /** The process has saved a pending call, and the oracle answers for this registry. */
  ghost predicate Runs(s: Sys, j: JobId, w: WorkerId, o: Oracle) {
    var id := ProcId(j, w);
    && id in s.procs && s.procs[id].saved && s.procs[id].agent.pending.Some? && TaskOf(s.db, j).Some?
    && Agrees(s.db, j, w, s.procs[id].agent.pending.value, o)
  }

  /** What the pending call comes to. */
  ghost function ResultOf(env: Env, s: Sys, j: JobId, w: WorkerId, o: Oracle): Outcome
    requires Runs(s, j, w, o)
  {
    var a := s.procs[ProcId(j, w)].agent;
    Execute(env, TaskOf(s.db, j).value, a.ws, a.audit, a.pending.value.call, o)
  }

  function WithApproval(s: Sys, hash: Option<CapabilityHash>): Sys {
    if hash.Some? then s.(db := s.db.(approvals := s.db.approvals[hash.value := true])) else s
  }

  /** The system after the approval that the pending call writes, if any. */
  ghost function Approving(s: Sys, j: JobId, w: WorkerId, o: Oracle): Sys
    requires Runs(s, j, w, o)
  {
    var a := s.procs[ProcId(j, w)].agent;
    WithApproval(s, ApprovalWritten(a.ws, a.pending.value.call, o))
  }

  ghost function ToolNext(env: Env, s: Sys, j: JobId, w: WorkerId, o: Oracle, slip: Slip): Sys {
    if !Runs(s, j, w, o) then s
    else
      var a := s.procs[ProcId(j, w)].agent;
      var r := ResultOf(env, s, j, w, o);
      var ran := r.ws.metrics.probesRun - a.ws.metrics.probesRun;
      Settled(Approving(s, j, w, o), j, w, TaskOf(s.db, j).value, r, o, a.pending.value.id, slip)
      .(probes := s.probes[j := ProbeCount(s, j) + if ran > 0 then ran else 0])
  }

  /** Transactions of users, of operators, and the writes of a worker that carry no agent. */
  predicate Free(a: Action) {
    && !a.DoClaim? && !a.DoSuspend? && !a.DoSaveCheckpoint? && !a.DoPublish? && !a.DoApproveCapability?
    && Coherence.WorkerStage(a)
  }

  ghost function Move1(env: Env, s: Sys, m: Move): Sys {
    match m
    case Pass(elapsed) => s.(now := s.now + elapsed)
    case Other(a) => if Free(a) then s.(db := After(s.db, Attempt(s.db, s.now, a))) else s
    case Take(j, w) => TakeNext(s, j, w)
    case Save(j, w) => SaveNext(s, j, w)
    case Turn(j, w, p) => TurnNext(s, j, w, p)
    case RefuseBatch(j, w) => RefuseNext(s, j, w)
    case UseTool(j, w, o, slip) => ToolNext(env, s, j, w, o, slip)
    case Crash(j, w) => s.(procs := s.procs - {ProcId(j, w)})
  }

  ghost function Moves(env: Env, s: Sys, moves: seq<Move>): Sys {
    if moves == [] then s else Move1(env, Moves(env, s, moves[..|moves| - 1]), moves[|moves| - 1])
  }
}
