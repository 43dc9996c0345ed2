/** Runs of registry and processes, move by move: one in which the sandbox probes five times, and
    one in which a worker that lost its lease reads the rejection of a clarification. */
module Rehearsals {
  import opened Wrappers
  import opened ArtifactTypes
  import opened AgentTypes
  import opened Schema
  import opened Transactions
  import opened Effects
  import opened ToolCalls
  import opened Processes
  import Provenance
  import Text

  // ---------------------------------------------------------------- moves in sequence

  lemma MovesLast(env: Env, s: Sys, front: seq<Move>, m: Move)
    ensures Moves(env, s, front + [m]) == Move1(env, Moves(env, s, front), m)
  {
    assert (front + [m])[..|front|] == front;
  }

  lemma {:induction false} MovesAppend(env: Env, s: Sys, front: seq<Move>, rest: seq<Move>)
    ensures Moves(env, s, front + rest) == Moves(env, Moves(env, s, front), rest)
    decreases |rest|
  {
    if rest == [] {
      assert front + rest == front;
    } else {
      var r := rest[..|rest| - 1];
      MovesAppend(env, s, front, r);
      assert front + rest == front + r + [rest[|rest| - 1]];
      MovesLast(env, s, front + r, rest[|rest| - 1]);
    }
  }

  lemma MovesOne(env: Env, s: Sys, m: Move)
    ensures Moves(env, s, [m]) == Move1(env, s, m)
  {
    MovesLast(env, s, [], m);
    assert [] + [m] == [m];
  }

  lemma MovesTwo(env: Env, s: Sys, m: Move, n: Move)
    ensures Moves(env, s, [m, n]) == Move1(env, Move1(env, s, m), n)
  {
    MovesOne(env, s, m);
    MovesLast(env, s, [m], n);
    assert [m] + [n] == [m, n];
  }

  lemma MovesThree(env: Env, s: Sys, m: Move, n: Move, l: Move)
    ensures Moves(env, s, [m, n, l]) == Move1(env, Move1(env, Move1(env, s, m), n), l)
  {
    MovesTwo(env, s, m, n);
    MovesLast(env, s, [m, n], l);
    assert [m, n] + [l] == [m, n, l];
  }

  lemma MovesFour(env: Env, s: Sys, m: Move, n: Move, l: Move, k: Move)
    ensures Moves(env, s, [m, n, l, k]) == Move1(env, Move1(env, Move1(env, Move1(env, s, m), n), l), k)
  {
    MovesThree(env, s, m, n, l);
    MovesLast(env, s, [m, n, l], k);
    assert [m, n, l] + [k] == [m, n, l, k];
  }

  // ---------------------------------------------------------------- a worker at work

  /** Worker w owns job j in its k-th attempt and runs process p; the sandbox has probed n
      times; nothing has been asked. */
  predicate Drives(s: Sys, j: JobId, w: WorkerId, p: Proc, task: Request, n: nat, k: nat) {
    && Owns(s.db, j, w) && s.db.jobs[j].attempts == k && s.db.jobs[j].leaseUntil == Some(s.now + LEASE)
    && s.db.jobs[j].stage == ContractStage
    && ProcId(j, w) in s.procs && s.procs[ProcId(j, w)] == p
    && TaskOf(s.db, j) == Some(task) && ProbeCount(s, j) == n
    && s.db.inputs == map[] && s.db.pendingCall == map[]
  }

  predicate Kept(s: Sys, j: JobId, a: Agent) {
    SavedCheckpoint(s.db, j) == Some(Saved(a))
  }

  lemma SaveDrives(s: Sys, j: JobId, w: WorkerId, p: Proc, task: Request, n: nat, k: nat)
    requires Drives(s, j, w, p, task, n, k)
    ensures var s' := SaveNext(s, j, w);
            Drives(s', j, w, Proc(p.agent, true), task, n, k) && Kept(s', j, p.agent) && s'.db.jobs == s.db.jobs
  {
  }

  /** The agent once the model has chosen a call. */
  function Chosen(a: Agent, p: PendingCall): Agent {
    a.(ws := Counted(a.ws), pending := Some(p))
  }

  lemma TurnDrives(s: Sys, j: JobId, w: WorkerId, a: Agent, p: PendingCall, task: Request, n: nat, k: nat)
    requires Drives(s, j, w, Proc(a, true), task, n, k) && a.pending.None? && Advertised(Counted(a.ws), p.call)
    ensures Drives(TurnNext(s, j, w, p), j, w, Proc(Chosen(a, p), false), task, n, k) && TurnNext(s, j, w, p).db == s.db
  {
  }

  /** The agent after a call that lets it go on. */
  function Gone(env: Env, task: Request, a: Agent, c: Call, o: Oracle): Agent {
    var r := Execute(env, task, a.ws, a.audit, c, o);
    Agent(r.ws, r.audit, None)
  }

  predicate GoesOn(env: Env, task: Request, a: Agent, c: Call, o: Oracle) {
    Execute(env, task, a.ws, a.audit, c, o).execution.Continue?
  }

  function Probed(env: Env, task: Request, a: Agent, c: Call, o: Oracle): nat {
    var before, after := a.ws.metrics.probesRun, Gone(env, task, a, c, o).ws.metrics.probesRun;
    if after > before then after - before else 0
  }

  /** Every write succeeds, nothing is answered, and nothing is approved already. */
  predicate Helpful(o: Oracle) {
    o.answer.None? && !o.alreadyApproved && o.stageBuildingOk && o.stageValidatingOk && o.saveContractOk && o.putOk && o.buildOk
  }

  lemma HelpfulRuns(s: Sys, j: JobId, w: WorkerId, a: Agent, task: Request, n: nat, k: nat, o: Oracle)
    requires Drives(s, j, w, Proc(a, true), task, n, k) && Kept(s, j, a) && a.pending.Some? && Helpful(o)
    requires !a.pending.value.call.RequestHttpCapability?
    ensures Runs(s, j, w, o) && Approving(s, j, w, o) == s
  {
  }

  lemma ToolDrives(env: Env, s: Sys, j: JobId, w: WorkerId, a: Agent, task: Request, n: nat, k: nat, o: Oracle, slip: Slip)
    requires Drives(s, j, w, Proc(a, true), task, n, k) && Kept(s, j, a) && a.pending.Some? && Helpful(o)
    requires !a.pending.value.call.RequestHttpCapability? && GoesOn(env, task, a, a.pending.value.call, o)
    ensures var s', c := ToolNext(env, s, j, w, o, slip), a.pending.value.call;
            Drives(s', j, w, Proc(Gone(env, task, a, c, o), false), task, n + Probed(env, task, a, c, o), k) && s'.db == s.db
  {
    HelpfulRuns(s, j, w, a, task, n, k, o);
    ToolContinues(env, s, j, w, o, slip);
    var c := a.pending.value.call;
    StillDrives(s, ToolNext(env, s, j, w, o, slip), j, w, Proc(a, true), Proc(Gone(env, task, a, c, o), false), task, n, k,
                Probed(env, task, a, c, o));
  }

  lemma StillDrives(s: Sys, s': Sys, j: JobId, w: WorkerId, p: Proc, p': Proc, task: Request, n: nat, k: nat, more: nat)
    requires Drives(s, j, w, p, task, n, k)
    requires s' == s.(procs := s.procs[ProcId(j, w) := p'], probes := s'.probes) && ProbeCount(s', j) == n + more
    ensures Drives(s', j, w, p', task, n + more, k)
  {
  }

  /** A call that goes on writes nothing and leaves its agent unsaved. */
  lemma ToolContinues(env: Env, s: Sys, j: JobId, w: WorkerId, o: Oracle, slip: Slip)
    requires Runs(s, j, w, o) && Approving(s, j, w, o) == s && ResultOf(env, s, j, w, o).execution.Continue?
    ensures var a, r := s.procs[ProcId(j, w)].agent, ResultOf(env, s, j, w, o); var s' := ToolNext(env, s, j, w, o, slip);
            && s' == s.(procs := s.procs[ProcId(j, w) := Proc(Agent(r.ws, r.audit, None), false)], probes := s'.probes)
            && ProbeCount(s', j) == ProbeCount(s, j) +
               if r.ws.metrics.probesRun > a.ws.metrics.probesRun then r.ws.metrics.probesRun - a.ws.metrics.probesRun else 0
  {
  }

  /** One call: chosen, saved, carried out, saved. */
  function Round(j: JobId, w: WorkerId, p: PendingCall, o: Oracle, slip: Slip): seq<Move> {
    [Turn(j, w, p), Save(j, w), UseTool(j, w, o, slip), Save(j, w)]
  }

  lemma RoundMoves(env: Env, s: Sys, j: JobId, w: WorkerId, p: PendingCall, o: Oracle, slip: Slip)
    ensures Moves(env, s, Round(j, w, p, o, slip)) ==
            SaveNext(ToolNext(env, SaveNext(TurnNext(s, j, w, p), j, w), j, w, o, slip), j, w)
  {
    MovesFour(env, s, Turn(j, w, p), Save(j, w), UseTool(j, w, o, slip), Save(j, w));
  }

  lemma RoundDrives(env: Env, s: Sys, j: JobId, w: WorkerId, a: Agent, p: PendingCall, task: Request, n: nat, k: nat, o: Oracle, slip: Slip)
    requires Drives(s, j, w, Proc(a, true), task, n, k) && a.pending.None? && Advertised(Counted(a.ws), p.call)
    requires Helpful(o) && !p.call.RequestHttpCapability? && GoesOn(env, task, Chosen(a, p), p.call, o)
    ensures var s', a' := Moves(env, s, Round(j, w, p, o, slip)), Gone(env, task, Chosen(a, p), p.call, o);
            Drives(s', j, w, Proc(a', true), task, n + Probed(env, task, Chosen(a, p), p.call, o), k) && Kept(s', j, a')
  {
    RoundMoves(env, s, j, w, p, o, slip);
    TurnDrives(s, j, w, a, p, task, n, k);
    var s1 := TurnNext(s, j, w, p);
    SaveDrives(s1, j, w, Proc(Chosen(a, p), false), task, n, k);
    var s2 := SaveNext(s1, j, w);
    ToolDrives(env, s2, j, w, Chosen(a, p), task, n, k, o, slip);
    SaveDrives(ToolNext(env, s2, j, w, o, slip), j, w, Proc(Gone(env, task, Chosen(a, p), p.call, o), false), task,
               n + Probed(env, task, Chosen(a, p), p.call, o), k);
  }

  /** The owner crashes, its lease runs out, and another worker loads what it had saved. */
  function Successor(j: JobId, u: WorkerId, w: WorkerId): seq<Move> {
    [Crash(j, u), Pass(LEASE + 1), Take(j, w), Save(j, w)]
  }

  function Idled(s: Sys, j: JobId, u: WorkerId): Sys {
    s.(procs := s.procs - {ProcId(j, u)}, now := s.now + LEASE + 1)
  }

  lemma IdledBy(env: Env, s: Sys, j: JobId, u: WorkerId)
    ensures Move1(env, Move1(env, s, Crash(j, u)), Pass(LEASE + 1)) == Idled(s, j, u)
  {
  }

  lemma SuccessorMoves(env: Env, s: Sys, j: JobId, u: WorkerId, w: WorkerId)
    ensures Moves(env, s, Successor(j, u, w)) == SaveNext(TakeNext(Idled(s, j, u), j, w), j, w)
  {
    MovesFour(env, s, Crash(j, u), Pass(LEASE + 1), Take(j, w), Save(j, w));
    IdledBy(env, s, j, u);
  }

  lemma SuccessorDrives(env: Env, s: Sys, j: JobId, u: WorkerId, w: WorkerId, p: Proc, a: Agent, task: Request, n: nat, k: nat)
    requires Drives(s, j, u, p, task, n, k) && Kept(s, j, a) && k < MAX_JOB_ATTEMPTS
    ensures var s' := Moves(env, s, Successor(j, u, w));
            Drives(s', j, w, Proc(a, true), task, n, k + 1) && Kept(s', j, a)
  {
    SuccessorMoves(env, s, j, u, w);
    TakenOver(Idled(s, j, u), j, u, w, a, task, n, k);
  }

  lemma TakenOver(s: Sys, j: JobId, u: WorkerId, w: WorkerId, a: Agent, task: Request, n: nat, k: nat)
    requires Lapsed(s, j, u, a, task, n, k)
    ensures var s' := SaveNext(TakeNext(s, j, w), j, w); Drives(s', j, w, Proc(a, true), task, n, k + 1) && Kept(s', j, a)
  {
    LateTake(s, j, u, w, a, task, n, k);
    SaveDrives(TakeNext(s, j, w), j, w, Proc(a, false), task, n, k + 1);
  }

  /** The lease of worker u has run out. */
  predicate Lapsed(s: Sys, j: JobId, u: WorkerId, a: Agent, task: Request, n: nat, k: nat) {
    && Owns(s.db, j, u) && s.db.jobs[j].attempts == k < MAX_JOB_ATTEMPTS && s.db.jobs[j].leaseUntil == Some(s.now - 1)
    && s.db.jobs[j].stage == ContractStage
    && TaskOf(s.db, j) == Some(task) && ProbeCount(s, j) == n && s.db.inputs == map[] && s.db.pendingCall == map[]
    && Kept(s, j, a)
  }

  /** A claim after the lease has run out. */
  lemma LateTake(s: Sys, j: JobId, u: WorkerId, w: WorkerId, a: Agent, task: Request, n: nat, k: nat)
    requires Lapsed(s, j, u, a, task, n, k)
    ensures Drives(TakeNext(s, j, w), j, w, Proc(a, false), task, n, k + 1)
  {
    var r := Claim(s.db, j, w, LEASE, s.now);
    assert r.Success?;
    ClaimEffect(s.db, j, w, s.now);
    ClaimedTask(s.db, j, w, s.now);
    Provenance.TakeNextIs(s, s.(db := r.value, procs := s.procs - {ProcId(j, w)}), j, w);
    assert SavedCheckpoint(r.value, j) == Some(Saved(a));
  }

  lemma ClaimedTask(db: Db, j: JobId, w: WorkerId, now: Time)
    requires Claim(db, j, w, LEASE, now).Success? && TaskOf(db, j).Some?
    ensures TaskOf(Claim(db, j, w, LEASE, now).value, j) == TaskOf(db, j)
  {
  }

  // ---------------------------------------------------------------- the beginning of a run

  function Begin(name: string, task: Request, key: string, j: JobId, w: WorkerId): seq<Move> {
    [Other(DoRegister(name, task, key, j)), Take(j, w), Save(j, w)]
  }

  lemma RegisterMove(env: Env, name: string, task: Request, key: string, j: JobId)
    ensures Move1(env, IDLE, Other(DoRegister(name, task, key, j))) == IDLE.(db := Registered(EMPTY, name, task, key, j, 0))
  {
    assert Attempt(EMPTY, 0, DoRegister(name, task, key, j)) == Success(Registered(EMPTY, name, task, key, j, 0));
  }

  lemma BeginMoves(env: Env, name: string, task: Request, key: string, j: JobId, w: WorkerId)
    ensures Moves(env, IDLE, Begin(name, task, key, j, w)) ==
            SaveNext(TakeNext(IDLE.(db := Registered(EMPTY, name, task, key, j, 0)), j, w), j, w)
  {
    MovesThree(env, IDLE, Other(DoRegister(name, task, key, j)), Take(j, w), Save(j, w));
    RegisterMove(env, name, task, key, j);
    TakeSaveMove(env, IDLE.(db := Registered(EMPTY, name, task, key, j, 0)), j, w);
  }

  lemma TakeSaveMove(env: Env, s: Sys, j: JobId, w: WorkerId)
    ensures Move1(env, Move1(env, s, Take(j, w)), Save(j, w)) == SaveNext(TakeNext(s, j, w), j, w)
  {
  }

  lemma BeginDrives(env: Env, name: string, task: Request, key: string, j: JobId, w: WorkerId)
    ensures var s := Moves(env, IDLE, Begin(name, task, key, j, w));
            Drives(s, j, w, Proc(FRESH_AGENT, true), task, 0, 1) && Kept(s, j, FRESH_AGENT)
  {
    BeginMoves(env, name, task, key, j, w);
    TakeAndSave(IDLE.(db := Registered(EMPTY, name, task, key, j, 0)), name, task, key, j, w);
  }

  lemma TakeAndSave(s: Sys, name: string, task: Request, key: string, j: JobId, w: WorkerId)
    requires s == IDLE.(db := Registered(EMPTY, name, task, key, j, 0))
    ensures var s' := SaveNext(TakeNext(s, j, w), j, w);
            Drives(s', j, w, Proc(FRESH_AGENT, true), task, 0, 1) && Kept(s', j, FRESH_AGENT)
  {
    FirstTake(s, name, task, key, j, w);
    SaveDrives(TakeNext(s, j, w), j, w, Proc(FRESH_AGENT, false), task, 0, 1);
  }

  lemma FirstTake(s: Sys, name: string, task: Request, key: string, j: JobId, w: WorkerId)
    requires s == IDLE.(db := Registered(EMPTY, name, task, key, j, 0))
    ensures Drives(TakeNext(s, j, w), j, w, Proc(FRESH_AGENT, false), task, 0, 1)
  {
    assert Claim(s.db, j, w, LEASE, 0).Success?;
    ClaimEffect(s.db, j, w, 0);
    ClaimedTask(s.db, j, w, 0);
  }

  // ---------------------------------------------------------------- the agent's calls

  /** One registered example, plain text, no samples. */
  const TASK: Request := Request("", TextFormat, TextFormat, [Example("", "")], [])

  const NO_RECORD: ProbeRecord := ProbeRecord(CapabilityHash("", "", []), "", "", 200, "", "")

  /** Reviewers accept, and every run of a test ends like this. */
  function Obliging(run: RunResult): Oracle {
    Oracle(true, true, true, true, true, true, true, true, true, Some(Review(Accept, "", [])), None,
           _ => RunFailed, _ => run, RunFailed, NO_RECORD, None, false, 0)
  }

  const SUBMIT: Call := SubmitContract("c", [], [], [], "r")
  const WRITE: Call := WriteSource("s", "r")

  /** Probe number i passes i arguments. */
  function ProbeWith(i: nat): Call {
    Probe(seq(i, _ => ""), "", "r")
  }

  lemma Reasoned()
    ensures ValidReason("r") && ValidSource("s") && ValidContractText(Contract("c", [], []))
  {
    assert "r"[0] == 'r' && "c"[0] == 'c';
  }

  /** The contract of a fresh agent is accepted. */
  predicate Planned(a: Agent) {
    && a.pending.None? && a.ws.draft == Some(Draft(Contract("c", [], []), UserTests(TASK, map[], []), 1))
    && a.ws.source.None? && a.ws.metrics.sourceRevisions == 0 && a.ws.metrics.probesRun == 0 && a.ws.probeResults == map[]
  }

  lemma SubmitPlans(env: Env, run: RunResult, id: string)
    requires env.fixturesEncode([])
    ensures var a := Chosen(FRESH_AGENT, PendingCall(id, SUBMIT));
            && Advertised(a.ws, SUBMIT) && GoesOn(env, TASK, a, SUBMIT, Obliging(run)) && Planned(Gone(env, TASK, a, SUBMIT, Obliging(run)))
            && Probed(env, TASK, a, SUBMIT, Obliging(run)) == 0
  {
    Reasoned();
    var ws := Counted(EMPTY_WORKSPACE);
    assert RecordsToFixtures([]) == [] && GeneratedTests([]) == [];
    var tests := UserTests(TASK, map[], []) + [];
    assert tests == UserTests(TASK, map[], []);
    assert tests[0] == TestCase(UserExample(1), [], "", "", 0, []);
    assert forall t | t in tests :: t == tests[0];
    assert ValidFixtures(env, [], []);
    assert BuildDraft(env, TASK, ws, Contract("c", [], []), []) == Some(Draft(Contract("c", [], []), tests, 1));
  }

  /** A candidate is stored, and m probes have been made. */
  predicate Probing(a: Agent, m: nat) {
    && a.pending.None? && a.ws.draft.Some? && a.ws.source.Some? && a.ws.currentDigest.Some?
    && a.ws.metrics.probesRun == m && forall f | f in a.ws.probeResults :: |f.args| < m
  }

  lemma WriteStores(env: Env, a: Agent, id: string)
    requires Planned(a)
    ensures var b := Chosen(a, PendingCall(id, WRITE));
            && Advertised(b.ws, WRITE) && GoesOn(env, TASK, b, WRITE, Obliging(RunFailed))
            && Probing(Gone(env, TASK, b, WRITE, Obliging(RunFailed)), 0) && Probed(env, TASK, b, WRITE, Obliging(RunFailed)) == 0
  {
    Reasoned();
    var b, o := Chosen(a, PendingCall(id, WRITE)), Obliging(RunFailed);
    assert TestFailure(env, TextFormat, b.ws.draft.value, o.testRuns, 0).Some?;
  }

  lemma ProbeProbes(env: Env, a: Agent, m: nat, id: string)
    requires Probing(a, m) && m < MAX_PROBES
    ensures var b, c := Chosen(a, PendingCall(id, ProbeWith(m))), ProbeWith(m);
            && Advertised(b.ws, c) && GoesOn(env, TASK, b, c, Obliging(RunFailed))
            && Probing(Gone(env, TASK, b, c, Obliging(RunFailed)), m + 1) && Probed(env, TASK, b, c, Obliging(RunFailed)) == 1
  {
    Reasoned();
    var b := Chosen(a, PendingCall(id, ProbeWith(m)));
    assert Fingerprint(b.ws.currentDigest.value, ProbeWith(m).args, "") !in b.ws.probeResults;
  }

  // ---------------------------------------------------------------- five probes

  const NO_SLIP: Slip := Slip(0, 0)

  function ProbeCall(m: nat): PendingCall {
    PendingCall("p", ProbeWith(m))
  }

  function ContractRound(j: JobId, w: WorkerId): seq<Move> {
    Round(j, w, PendingCall("c", SUBMIT), Obliging(RunFailed), NO_SLIP)
  }

  function SourceRound(j: JobId, w: WorkerId): seq<Move> {
    Round(j, w, PendingCall("w", WRITE), Obliging(RunFailed), NO_SLIP)
  }

  function ProbeRound(j: JobId, w: WorkerId, m: nat): seq<Move> {
    Round(j, w, ProbeCall(m), Obliging(RunFailed), NO_SLIP)
  }

  function FirstProbe(j: JobId, w: WorkerId): seq<Move> {
    [Turn(j, w, ProbeCall(0)), Save(j, w), UseTool(j, w, Obliging(RunFailed), NO_SLIP)]
  }

  /** A contract, a source, and a probe whose result is lost. */
  function FirstAttempt(name: string, key: string, j: JobId, u: WorkerId): seq<Move> {
    Begin(name, TASK, key, j, u) + ContractRound(j, u) + SourceRound(j, u) + FirstProbe(j, u)
  }

  /** The same pending probe by a second worker, lost again. */
  function SecondAttempt(j: JobId, u: WorkerId, v: WorkerId): seq<Move> {
    Successor(j, u, v) + [UseTool(j, v, Obliging(RunFailed), NO_SLIP)]
  }

  /** And by a third one, which makes the two others as well. */
  function ThirdAttempt(j: JobId, v: WorkerId, w: WorkerId): seq<Move> {
    Successor(j, v, w) + [UseTool(j, w, Obliging(RunFailed), NO_SLIP), Save(j, w)] + ProbeRound(j, w, 1) + ProbeRound(j, w, 2)
  }

  function FiveProbeRun(name: string, key: string, j: JobId, u: WorkerId, v: WorkerId, w: WorkerId): seq<Move> {
    FirstAttempt(name, key, j, u) + SecondAttempt(j, u, v) + ThirdAttempt(j, v, w)
  }

  /** Ready to probe for the m-th time, n probes after the start, in attempt k. */
  ghost predicate AtProbe(s: Sys, j: JobId, w: WorkerId, m: nat, n: nat, k: nat) {
    exists a :: AtProbeWith(s, j, w, a, m, n, k)
  }

  predicate AtProbeWith(s: Sys, j: JobId, w: WorkerId, a: Agent, m: nat, n: nat, k: nat) {
    Probing(a, m) && Drives(s, j, w, Proc(a, true), TASK, n, k)
  }

  /** A fresh agent's contract is accepted and its source stored. */
  lemma TwoRounds(env: Env, s: Sys, j: JobId, u: WorkerId)
    requires env.fixturesEncode([]) && Drives(s, j, u, Proc(FRESH_AGENT, true), TASK, 0, 1)
    ensures AtProbe(Moves(env, Moves(env, s, ContractRound(j, u)), SourceRound(j, u)), j, u, 0, 0, 1)
  {
    var o := Obliging(RunFailed);
    SubmitPlans(env, RunFailed, "c");
    RoundDrives(env, s, j, u, FRESH_AGENT, PendingCall("c", SUBMIT), TASK, 0, 1, o, NO_SLIP);
    SourceReady(env, Moves(env, s, ContractRound(j, u)), j, u, Gone(env, TASK, Chosen(FRESH_AGENT, PendingCall("c", SUBMIT)), SUBMIT, o));
  }

  lemma SourceReady(env: Env, s: Sys, j: JobId, u: WorkerId, a: Agent)
    requires Planned(a) && Drives(s, j, u, Proc(a, true), TASK, 0, 1)
    ensures AtProbe(Moves(env, s, SourceRound(j, u)), j, u, 0, 0, 1)
  {
    WriteStores(env, a, "w");
    RoundDrives(env, s, j, u, a, PendingCall("w", WRITE), TASK, 0, 1, Obliging(RunFailed), NO_SLIP);
    var a' := Gone(env, TASK, Chosen(a, PendingCall("w", WRITE)), WRITE, Obliging(RunFailed));
    assert AtProbeWith(Moves(env, s, SourceRound(j, u)), j, u, a', 0, 0, 1);
  }

  lemma FirstAttemptProbes(env: Env, name: string, key: string, j: JobId, u: WorkerId)
    requires env.fixturesEncode([])
    ensures Pending(Moves(env, IDLE, FirstAttempt(name, key, j, u)), j, u, true, 1, 1)
  {
    var begin := Begin(name, TASK, key, j, u);
    MovesAppend(env, IDLE, begin, ContractRound(j, u));
    MovesAppend(env, IDLE, begin + ContractRound(j, u), SourceRound(j, u));
    MovesAppend(env, IDLE, begin + ContractRound(j, u) + SourceRound(j, u), FirstProbe(j, u));
    BeginDrives(env, name, TASK, key, j, u);
    TwoRounds(env, Moves(env, IDLE, begin), j, u);
    FirstProbeMade(env, Moves(env, IDLE, begin + ContractRound(j, u) + SourceRound(j, u)), j, u, 0, 1);
  }

  lemma ProbeRoundProbes(env: Env, s: Sys, j: JobId, w: WorkerId, m: nat, n: nat, k: nat)
    requires AtProbe(s, j, w, m, n, k) && m < MAX_PROBES
    ensures AtProbe(Moves(env, s, ProbeRound(j, w, m)), j, w, m + 1, n + 1, k)
  {
    var a :| AtProbeWith(s, j, w, a, m, n, k);
    ProbeProbes(env, a, m, "p");
    RoundDrives(env, s, j, w, a, ProbeCall(m), TASK, n, k, Obliging(RunFailed), NO_SLIP);
    var a' := Gone(env, TASK, Chosen(a, ProbeCall(m)), ProbeWith(m), Obliging(RunFailed));
    assert AtProbeWith(Moves(env, s, ProbeRound(j, w, m)), j, w, a', m + 1, n + 1, k);
  }

  /** Worker w is about to make the first probe, or has made it without saving. */
  ghost predicate Pending(s: Sys, j: JobId, w: WorkerId, made: bool, n: nat, k: nat) {
    exists a, p :: PendingWith(s, j, w, a, p, made, n, k)
  }

  predicate PendingWith(s: Sys, j: JobId, w: WorkerId, a: Agent, p: Proc, made: bool, n: nat, k: nat) {
    && Probing(a, 0) && Drives(s, j, w, p, TASK, n, k) && Kept(s, j, Chosen(a, ProbeCall(0)))
    && if made then Probing(p.agent, 1) else p == Proc(Chosen(a, ProbeCall(0)), true)
  }

  lemma FirstProbeMoves(env: Env, s: Sys, j: JobId, w: WorkerId)
    ensures Moves(env, s, FirstProbe(j, w)) ==
            ToolNext(env, SaveNext(TurnNext(s, j, w, ProbeCall(0)), j, w), j, w, Obliging(RunFailed), NO_SLIP)
  {
    MovesThree(env, s, Turn(j, w, ProbeCall(0)), Save(j, w), UseTool(j, w, Obliging(RunFailed), NO_SLIP));
  }

  lemma FirstProbeMade(env: Env, s: Sys, j: JobId, w: WorkerId, n: nat, k: nat)
    requires AtProbe(s, j, w, 0, n, k)
    ensures Pending(Moves(env, s, FirstProbe(j, w)), j, w, true, n + 1, k)
  {
    FirstProbeMoves(env, s, j, w);
    FirstProbeChosen(env, s, j, w, n, k);
    PendingMade(env, SaveNext(TurnNext(s, j, w, ProbeCall(0)), j, w), j, w, n, k);
  }

  lemma FirstProbeChosen(env: Env, s: Sys, j: JobId, w: WorkerId, n: nat, k: nat)
    requires AtProbe(s, j, w, 0, n, k)
    ensures Pending(SaveNext(TurnNext(s, j, w, ProbeCall(0)), j, w), j, w, false, n, k)
  {
    var a :| AtProbeWith(s, j, w, a, 0, n, k);
    ProbeProbes(env, a, 0, "p");
    TurnDrives(s, j, w, a, ProbeCall(0), TASK, n, k);
    var s1 := TurnNext(s, j, w, ProbeCall(0));
    SaveDrives(s1, j, w, Proc(Chosen(a, ProbeCall(0)), false), TASK, n, k);
    assert PendingWith(SaveNext(s1, j, w), j, w, a, Proc(Chosen(a, ProbeCall(0)), true), false, n, k);
  }

  lemma PendingMade(env: Env, s: Sys, j: JobId, w: WorkerId, n: nat, k: nat)
    requires Pending(s, j, w, false, n, k)
    ensures Pending(ToolNext(env, s, j, w, Obliging(RunFailed), NO_SLIP), j, w, true, n + 1, k)
  {
    var a, p :| PendingWith(s, j, w, a, p, false, n, k);
    var o := Obliging(RunFailed);
    ProbeProbes(env, a, 0, "p");
    ToolDrives(env, s, j, w, Chosen(a, ProbeCall(0)), TASK, n, k, o, NO_SLIP);
    var a' := Gone(env, TASK, Chosen(a, ProbeCall(0)), ProbeWith(0), o);
    assert PendingWith(ToolNext(env, s, j, w, o, NO_SLIP), j, w, a, Proc(a', false), true, n + 1, k);
  }

  lemma PendingAgain(env: Env, s: Sys, j: JobId, u: WorkerId, w: WorkerId, n: nat, k: nat)
    requires Pending(s, j, u, true, n, k) && k < MAX_JOB_ATTEMPTS
    ensures Pending(Moves(env, s, Successor(j, u, w)), j, w, false, n, k + 1)
  {
    var a, p :| PendingWith(s, j, u, a, p, true, n, k);
    SuccessorDrives(env, s, j, u, w, p, Chosen(a, ProbeCall(0)), TASK, n, k);
    assert PendingWith(Moves(env, s, Successor(j, u, w)), j, w, a, Proc(Chosen(a, ProbeCall(0)), true), false, n, k + 1);
  }

  lemma MadeIsSaved(s: Sys, j: JobId, w: WorkerId, n: nat, k: nat)
    requires Pending(s, j, w, true, n, k)
    ensures AtProbe(SaveNext(s, j, w), j, w, 1, n, k)
  {
    var a, p :| PendingWith(s, j, w, a, p, true, n, k);
    SaveDrives(s, j, w, p, TASK, n, k);
    assert AtProbeWith(SaveNext(s, j, w), j, w, p.agent, 1, n, k);
  }

  lemma ToolMoves(env: Env, s: Sys, front: seq<Move>, j: JobId, w: WorkerId)
    ensures Moves(env, s, front + [UseTool(j, w, Obliging(RunFailed), NO_SLIP)]) ==
            ToolNext(env, Moves(env, s, front), j, w, Obliging(RunFailed), NO_SLIP)
    ensures Moves(env, s, front + [UseTool(j, w, Obliging(RunFailed), NO_SLIP), Save(j, w)]) ==
            SaveNext(ToolNext(env, Moves(env, s, front), j, w, Obliging(RunFailed), NO_SLIP), j, w)
  {
    var tool := UseTool(j, w, Obliging(RunFailed), NO_SLIP);
    MovesLast(env, s, front, tool);
    MovesLast(env, s, front + [tool], Save(j, w));
    assert front + [tool, Save(j, w)] == front + [tool] + [Save(j, w)];
  }

  lemma SecondAttemptProbes(env: Env, s: Sys, j: JobId, u: WorkerId, v: WorkerId)
    requires Pending(s, j, u, true, 1, 1)
    ensures Pending(Moves(env, s, SecondAttempt(j, u, v)), j, v, true, 2, 2)
  {
    PendingAgain(env, s, j, u, v, 1, 1);
    ToolMoves(env, s, Successor(j, u, v), j, v);
    PendingMade(env, Moves(env, s, Successor(j, u, v)), j, v, 1, 2);
  }

  lemma ThirdAttemptResumes(env: Env, s: Sys, j: JobId, v: WorkerId, w: WorkerId)
    requires Pending(s, j, v, true, 2, 2)
    ensures AtProbe(Moves(env, s, Successor(j, v, w) + [UseTool(j, w, Obliging(RunFailed), NO_SLIP), Save(j, w)]), j, w, 1, 3, 3)
  {
    var s1 := Moves(env, s, Successor(j, v, w));
    PendingAgain(env, s, j, v, w, 2, 2);
    ToolMoves(env, s, Successor(j, v, w), j, w);
    PendingMade(env, s1, j, w, 2, 3);
    MadeIsSaved(ToolNext(env, s1, j, w, Obliging(RunFailed), NO_SLIP), j, w, 3, 3);
  }

  lemma ThirdAttemptProbes(env: Env, s: Sys, j: JobId, v: WorkerId, w: WorkerId)
    requires Pending(s, j, v, true, 2, 2)
    ensures AtProbe(Moves(env, s, ThirdAttempt(j, v, w)), j, w, 3, 5, 3)
  {
    var first := Successor(j, v, w) + [UseTool(j, w, Obliging(RunFailed), NO_SLIP), Save(j, w)];
    ThirdAttemptResumes(env, s, j, v, w);
    MovesAppend(env, s, first, ProbeRound(j, w, 1));
    ProbeRoundProbes(env, Moves(env, s, first), j, w, 1, 3, 3);
    MovesAppend(env, s, first + ProbeRound(j, w, 1), ProbeRound(j, w, 2));
    ProbeRoundProbes(env, Moves(env, s, first + ProbeRound(j, w, 1)), j, w, 2, 4, 3);
  }

  /** The bound of five probes is reached: there is such a run for any three workers. */
  lemma FiveProbesAreReached(env: Env, name: string, key: string, j: JobId, u: WorkerId, v: WorkerId, w: WorkerId)
    requires env.fixturesEncode([])
    ensures ProbeCount(Moves(env, IDLE, FiveProbeRun(name, key, j, u, v, w)), j) == 5
  {
    var first, second := FirstAttempt(name, key, j, u), SecondAttempt(j, u, v);
    FirstAttemptProbes(env, name, key, j, u);
    MovesAppend(env, IDLE, first, second);
    SecondAttemptProbes(env, Moves(env, IDLE, first), j, u, v);
    MovesAppend(env, IDLE, first + second, ThirdAttempt(j, v, w));
    ThirdAttemptProbes(env, Moves(env, IDLE, first + second), j, v, w);
  }

  // ---------------------------------------------------------------- a rejected clarification

  const ASK: Call := RequestClarification("k", "q", "r")

  /** Worker u saves a question it is about to ask; its lease runs out; worker w asks the very
      question; the user cancels the job. */
  function StaleRun(name: string, key: string, j: JobId, u: WorkerId, w: WorkerId, reason: string, bytes: nat): seq<Move> {
    Begin(name, TASK, key, j, u) + [Turn(j, u, PendingCall("a", ASK)), Save(j, u)] +
    [Pass(LEASE + 1), Take(j, w), Save(j, w)] + [UseTool(j, w, Obliging(RunFailed), NO_SLIP), Other(DoCancel(j, reason, bytes))]
  }

  /** The process of worker u, saved, is about to run this agent's call. */
  predicate Waits(s: Sys, j: JobId, u: WorkerId, a: Agent) {
    ProcId(j, u) in s.procs && s.procs[ProcId(j, u)] == Proc(a, true)
  }

  lemma AsksUser(env: Env, a: Agent)
    requires a == Chosen(FRESH_AGENT, PendingCall("a", ASK))
    ensures Advertised(a.ws, ASK)
    ensures Execute(env, TASK, a.ws, a.audit, ASK, Obliging(RunFailed)).execution == Suspended(Clarification, AboutDecision("k"))
  {
    Reasoned();
    assert "q"[0] == 'q' && "k"[0] == 'k';
    assert ValidDecisionKey("k");
  }

  lemma TurnAndSave(env: Env, s: Sys, j: JobId, u: WorkerId, p: PendingCall)
    ensures Moves(env, s, [Turn(j, u, p), Save(j, u)]) == SaveNext(TurnNext(s, j, u, p), j, u)
  {
    MovesTwo(env, s, Turn(j, u, p), Save(j, u));
  }

  lemma Passed(env: Env, s: Sys)
    ensures Move1(env, s, Pass(LEASE + 1)) == s.(now := s.now + LEASE + 1)
  {
  }

  lemma PassAndTake(env: Env, s: Sys, j: JobId, w: WorkerId)
    ensures Moves(env, s, [Pass(LEASE + 1), Take(j, w), Save(j, w)]) == SaveNext(TakeNext(s.(now := s.now + LEASE + 1), j, w), j, w)
  {
    MovesThree(env, s, Pass(LEASE + 1), Take(j, w), Save(j, w));
    Passed(env, s);
  }

  lemma CancelMove(env: Env, s: Sys, j: JobId, reason: string, bytes: nat)
    ensures Move1(env, s, Other(DoCancel(j, reason, bytes))) == s.(db := After(s.db, Cancel(s.db, j, reason, bytes, s.now)))
  {
    assert Attempt(s.db, s.now, DoCancel(j, reason, bytes)) == Cancel(s.db, j, reason, bytes, s.now);
  }

  lemma ToolAndCancel(env: Env, s: Sys, j: JobId, w: WorkerId, reason: string, bytes: nat)
    ensures var s1 := ToolNext(env, s, j, w, Obliging(RunFailed), NO_SLIP);
            Moves(env, s, [UseTool(j, w, Obliging(RunFailed), NO_SLIP), Other(DoCancel(j, reason, bytes))]) ==
            s1.(db := After(s1.db, Cancel(s1.db, j, reason, bytes, s1.now)))
  {
    MovesTwo(env, s, UseTool(j, w, Obliging(RunFailed), NO_SLIP), Other(DoCancel(j, reason, bytes)));
    CancelMove(env, ToolNext(env, s, j, w, Obliging(RunFailed), NO_SLIP), j, reason, bytes);
  }

  lemma OthersWait(s: Sys, j: JobId, u: WorkerId, w: WorkerId, a: Agent)
    requires Waits(s, j, u, a) && u != w
    ensures Waits(SaveNext(TakeNext(s, j, w), j, w), j, u, a)
  {
  }

  /** Job j waits for the clarification under id "a". */
  predicate Asks(db: Db, j: JobId) {
    && TaskOf(db, j) == Some(TASK) && j in db.runs && j in db.jobs && db.jobs[j].status == AwaitingInput
    && j in db.pendingCall && db.pendingCall[j] == "a"
    && InputKey(j, "a") in db.inputs && db.inputs[InputKey(j, "a")].answer.None?
    && db.inputs[InputKey(j, "a")].kind == Clarification
  }

  /** The question is asked, and worker u still waits to run its call. */
  predicate AskedBoth(s: Sys, j: JobId, u: WorkerId, a: Agent) {
    Waits(s, j, u, a) && Asks(s.db, j)
  }

  lemma QuestionStored(db: Db, j: JobId, w: WorkerId, input: NewInput, now: Time)
    requires Owns(db, j, w) && j in db.runs && db.inputs == map[] && db.pendingCall == map[] && Working(db.jobs[j].stage)
    requires TaskOf(db, j) == Some(TASK) && input.call == "a" && input.kind == Clarification
    ensures var r := Suspend(db, j, w, input, now); r.Success? && Asks(r.value, j)
  {
    var db1 := db.(inputs := db.inputs[InputKey(j, input.call) := AskedInput(db, j, input)],
                   pendingCall := db.pendingCall[j := input.call]);
    assert db1.runs == db.runs;
    assert Suspend(db, j, w, input, now).Success?;
    SuspendEffect(db, j, w, input, now);
  }

  lemma ToolAsks(env: Env, s: Sys, j: JobId, u: WorkerId, w: WorkerId, a: Agent, k: nat)
    requires a == Chosen(FRESH_AGENT, PendingCall("a", ASK)) && Waits(s, j, u, a) && u != w
    requires Drives(s, j, w, Proc(a, true), TASK, 0, k) && Kept(s, j, a)
    ensures AskedBoth(ToolNext(env, s, j, w, Obliging(RunFailed), NO_SLIP), j, u, a)
  {
    var o, input := Obliging(RunFailed), Question("a", NO_SLIP, Clarification, AboutDecision("k"));
    HelpfulRuns(s, j, w, a, TASK, 0, k, o);
    AsksUser(env, a);
    QuestionStored(s.db, j, w, input, s.now);
    ToolSuspends(env, s, j, w, o, input);
  }

  lemma ToolSuspends(env: Env, s: Sys, j: JobId, w: WorkerId, o: Oracle, input: NewInput)
    requires Runs(s, j, w, o) && Approving(s, j, w, o) == s && Suspend(s.db, j, w, input, s.now).Success?
    requires var x := ResultOf(env, s, j, w, o).execution;
             x.Suspended? && input == Question(s.procs[ProcId(j, w)].agent.pending.value.id, NO_SLIP, x.kind, x.context)
    ensures var s' := ToolNext(env, s, j, w, o, NO_SLIP);
            s'.db == Suspend(s.db, j, w, input, s.now).value && s'.procs == s.procs - {ProcId(j, w)}
  {
  }

  /** No write of a fenced worker succeeds; the registry's answer is this one. */
  function Fenced(answer: Answer): Oracle {
    Obliging(RunFailed).(saveContractOk := false, stageBuildingOk := false, stageValidatingOk := false, publishOk := false,
                         suspendOk := false, approveOk := false, answer := Some(answer))
  }

  lemma CancelSucceeds(db: Db, j: JobId, reason: string, bytes: nat, now: Time)
    requires j in db.jobs && !Terminal(db.jobs[j].status) && j in db.runs && !Text.Blank(reason) && |Text.Trim(reason)| <= 4096
    ensures Cancel(db, j, reason, bytes, now).Success?
  {
    CancelledEffect(db, j, reason, now);
  }

  lemma ReadsRejection(env: Env, s: Sys, j: JobId, u: WorkerId, a: Agent, reason: string, bytes: nat)
    requires a == Chosen(FRESH_AGENT, PendingCall("a", ASK)) && AskedBoth(s, j, u, a)
    requires !Text.Blank(reason) && |Text.Trim(reason)| <= 4096
    ensures var s' := s.(db := After(s.db, Cancel(s.db, j, reason, bytes, s.now))); var o := Fenced(Cancellation(reason));
            && j in s'.db.jobs && s'.db.jobs[j].status == Rejected
            && AnsweredInput(s'.db, j, "a") == Some(Cancellation(reason)) && Runs(s', j, u, o)
  {
    CancelSucceeds(s.db, j, reason, bytes, s.now);
    CancelEffect(s.db, j, reason, bytes, s.now);
  }

  /** The run, as the three parts that the lemmas above describe. */
  lemma StaleMoves(env: Env, name: string, key: string, j: JobId, u: WorkerId, w: WorkerId, reason: string, bytes: nat)
    ensures var s := Moves(env, IDLE, Begin(name, TASK, key, j, u));
            var s1 := Moves(env, s, [Turn(j, u, PendingCall("a", ASK)), Save(j, u)]);
            var s2 := Moves(env, s1, [Pass(LEASE + 1), Take(j, w), Save(j, w)]);
            Moves(env, IDLE, StaleRun(name, key, j, u, w, reason, bytes)) ==
            Moves(env, s2, [UseTool(j, w, Obliging(RunFailed), NO_SLIP), Other(DoCancel(j, reason, bytes))])
  {
    var begin := Begin(name, TASK, key, j, u);
    var turn, take := [Turn(j, u, PendingCall("a", ASK)), Save(j, u)], [Pass(LEASE + 1), Take(j, w), Save(j, w)];
    MovesAppend(env, IDLE, begin, turn);
    MovesAppend(env, IDLE, begin + turn, take);
    MovesAppend(env, IDLE, begin + turn + take, [UseTool(j, w, Obliging(RunFailed), NO_SLIP), Other(DoCancel(j, reason, bytes))]);
  }

  lemma RejectionIsNoDecision(env: Env, s: Sys, j: JobId, u: WorkerId, a: Agent, answer: Answer)
    requires a == Chosen(FRESH_AGENT, PendingCall("a", ASK)) && Waits(s, j, u, a) && Runs(s, j, u, Fenced(answer)) && !answer.Text?
    ensures var r := ResultOf(env, s, j, u, Fenced(answer)); r.execution == Continue && r.ws.decisions == map[]
  {
    AsksUser(env, a);
  }

  /** A worker that lost its lease reads, for its own saved clarification, the rejection that a
      cancellation wrote: the branch for an answer of the wrong kind is reached. */
  lemma CancelledClarificationIsRead(env: Env, name: string, key: string, j: JobId, u: WorkerId, w: WorkerId, reason: string, bytes: nat)
    requires u != w && !Text.Blank(reason) && |Text.Trim(reason)| <= 4096
    ensures var s := Moves(env, IDLE, StaleRun(name, key, j, u, w, reason, bytes)); var o := Fenced(Cancellation(reason));
            && Runs(s, j, u, o) && s.procs[ProcId(j, u)].agent.pending == Some(PendingCall("a", ASK))
            && AnsweredInput(s.db, j, "a") == Some(Cancellation(reason)) && s.db.jobs[j].status == Rejected
            && ResultOf(env, s, j, u, o).execution == Continue && ResultOf(env, s, j, u, o).ws.decisions == map[]
  {
    var s := Moves(env, IDLE, Begin(name, TASK, key, j, u));
    var s2 := Moves(env, Moves(env, s, [Turn(j, u, PendingCall("a", ASK)), Save(j, u)]), [Pass(LEASE + 1), Take(j, w), Save(j, w)]);
    StaleMoves(env, name, key, j, u, w, reason, bytes);
    BeginDrives(env, name, TASK, key, j, u);
    AskedTwice(env, s, j, u, w);
    StaleWorkerReads(env, s2, j, u, w, reason, bytes);
  }

  lemma StaleWorkerReads(env: Env, s: Sys, j: JobId, u: WorkerId, w: WorkerId, reason: string, bytes: nat)
    requires AskedBoth(ToolNext(env, s, j, w, Obliging(RunFailed), NO_SLIP), j, u, Chosen(FRESH_AGENT, PendingCall("a", ASK)))
    requires !Text.Blank(reason) && |Text.Trim(reason)| <= 4096
    ensures var s' := Moves(env, s, [UseTool(j, w, Obliging(RunFailed), NO_SLIP), Other(DoCancel(j, reason, bytes))]);
            var o := Fenced(Cancellation(reason));
            && Runs(s', j, u, o) && s'.procs[ProcId(j, u)].agent.pending == Some(PendingCall("a", ASK))
            && AnsweredInput(s'.db, j, "a") == Some(Cancellation(reason)) && s'.db.jobs[j].status == Rejected
            && ResultOf(env, s', j, u, o).execution == Continue && ResultOf(env, s', j, u, o).ws.decisions == map[]
  {
    var a := Chosen(FRESH_AGENT, PendingCall("a", ASK));
    var asked := ToolNext(env, s, j, w, Obliging(RunFailed), NO_SLIP);
    ToolAndCancel(env, s, j, w, reason, bytes);
    ReadsRejection(env, asked, j, u, a, reason, bytes);
    var s' := asked.(db := After(asked.db, Cancel(asked.db, j, reason, bytes, asked.now)));
    RejectionIsNoDecision(env, s', j, u, a, Cancellation(reason));
  }

  lemma SecondWorker(env: Env, s: Sys, j: JobId, u: WorkerId, w: WorkerId, a: Agent)
    requires Drives(s, j, u, Proc(a, true), TASK, 0, 1) && Kept(s, j, a) && u != w
    ensures var s' := Moves(env, s, [Pass(LEASE + 1), Take(j, w), Save(j, w)]);
            Drives(s', j, w, Proc(a, true), TASK, 0, 2) && Kept(s', j, a) && Waits(s', j, u, a)
  {
    PassAndTake(env, s, j, w);
    var late := s.(now := s.now + LEASE + 1);
    OthersWait(late, j, u, w, a);
    TakenOver(late, j, u, w, a, TASK, 0, 1);
  }

  lemma AskedTwice(env: Env, s: Sys, j: JobId, u: WorkerId, w: WorkerId)
    requires Drives(s, j, u, Proc(FRESH_AGENT, true), TASK, 0, 1) && u != w
    ensures var p := PendingCall("a", ASK);
            var s1 := Moves(env, s, [Turn(j, u, p), Save(j, u)]);
            var s2 := Moves(env, s1, [Pass(LEASE + 1), Take(j, w), Save(j, w)]);
            AskedBoth(ToolNext(env, s2, j, w, Obliging(RunFailed), NO_SLIP), j, u, Chosen(FRESH_AGENT, p))
  {
    var p := PendingCall("a", ASK);
    var a := Chosen(FRESH_AGENT, p);
    AsksUser(env, a);
    TurnAndSave(env, s, j, u, p);
    TurnDrives(s, j, u, FRESH_AGENT, p, TASK, 0, 1);
    SaveDrives(TurnNext(s, j, u, p), j, u, Proc(a, false), TASK, 0, 1);
    var s1 := Moves(env, s, [Turn(j, u, p), Save(j, u)]);
    SecondWorker(env, s1, j, u, w, a);
    ToolAsks(env, Moves(env, s1, [Pass(LEASE + 1), Take(j, w), Save(j, w)]), j, u, w, a, 2);
  }
}
