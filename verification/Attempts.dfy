/** What becomes of the attempts of a job, over every run of registry and processes: the first
    three start an agent, and a later one can only reject the job (jobs.rs, handle_job). */
module Attempts {
  import opened Wrappers
  import opened AgentTypes
  import opened Schema
  import opened Transactions
  import opened Effects
  import opened Histories
  import opened Processes
  import opened Provenance
  import opened ProbeBudget
  import opened Lineage
  import opened ToolCalls
  import Coherence
  import Endings

  function Least(a: nat, b: nat): nat {
    if a <= b then a else b
  }

  /** The attempts of a job, none before it is registered. */
  function AttemptsOf(db: Db, j: JobId): nat {
    if j in db.jobs then db.jobs[j].attempts else 0
  }

  /** Each of the first three attempts has started an agent, and no later one has. */
  predicate Charged(s: Sys, j: JobId) {
    StartCount(s, j) == Least(AttemptsOf(s.db, j), MAX_JOB_ATTEMPTS)
  }

  /** A job beyond its third attempt is running without a process of its owner, or rejected. */
  predicate Spent(s: Sys, j: JobId) {
    AttemptsOf(s.db, j) > MAX_JOB_ATTEMPTS ==>
      || s.db.jobs[j].status == Rejected
      || (s.db.jobs[j].status == Running && ProcOf(s.procs, j, s.db.jobs[j].worker).None?)
  }

  /** A saved checkpoint can be loaded. */
  predicate Loadable(db: Db, j: JobId) {
    Loaded(db, j).Some?
  }

  predicate Accounted(s: Sys, j: JobId) {
    Charged(s, j) && Spent(s, j) && Loadable(s.db, j)
  }

  // ---------------------------------------------------------------- moves that claim nothing

  lemma AttemptsKept(db: Db, now: Time, a: Action, j: JobId)
    requires Coherence.Coherent(db) && Attempt(db, now, a).Success? && !a.DoClaim?
    ensures AttemptsOf(Attempt(db, now, a).value, j) == AttemptsOf(db, j)
  {
    if JobOf(a) != Some(j) {
      Isolation(db, now, a, j);
    } else {
      OwnAttemptsKept(db, now, a, j);
    }
  }

  lemma OwnAttemptsKept(db: Db, now: Time, a: Action, j: JobId)
    requires Attempt(db, now, a).Success? && !a.DoClaim? && JobOf(a) == Some(j)
    ensures AttemptsOf(Attempt(db, now, a).value, j) == AttemptsOf(db, j)
  {
    match a
    case DoSuspend(_, w, input) => SuspendEffect(db, j, w, input, now);
    case DoPublish(_, w, artifact) => PublishEffect(db, j, w, artifact, now);
    case DoAnswer(_, id, answer, bytes) => AnswerEffect(db, j, id, answer, bytes, now);
    case DoCancel(_, reason, bytes) => CancelEffect(db, j, reason, bytes, now);
    case DoAppendEvent(_, w, kind, bytes) => AppendOwnEffect(db, j, w, kind, bytes);
    case DoSetStage(_, w, stage) => SetStageEffect(db, j, w, stage, now);
    case DoReject(_, w) => RejectEffect(db, j, w, now);
    case _ =>
  }

  /** Only a claim starts agents, and only it adds a process. */
  lemma OnlyTakesStart(env: Env, s: Sys, m: Move, j: JobId)
    requires !m.Take?
    ensures var s' := Move1(env, s, m); s'.starts == s.starts && s'.procs.Keys <= s.procs.Keys
  {
    if m.UseTool? { ToolStarts(env, s, m.job, m.worker, m.oracle, m.slip); }
  }

  lemma ToolStarts(env: Env, s: Sys, j: JobId, w: WorkerId, o: Oracle, slip: Slip)
    ensures var s' := ToolNext(env, s, j, w, o, slip); s'.starts == s.starts && s'.procs.Keys <= s.procs.Keys
  {
    if Runs(s, j, w, o) {
      ToolNextIs(env, s, j, w, o, slip);
      SettledStarts(Approving(s, j, w, o), j, w, TaskOf(s.db, j).value, ResultOf(env, s, j, w, o), o,
                    s.procs[ProcId(j, w)].agent.pending.value.id, slip);
    }
  }

  lemma SettledStarts(s: Sys, j: JobId, w: WorkerId, task: Request, r: Outcome, o: Oracle, call: string, slip: Slip)
    requires j in s.db.jobs && ProcId(j, w) in s.procs
    ensures var s' := Settled(s, j, w, task, r, o, call, slip); s'.starts == s.starts && s'.procs.Keys <= s.procs.Keys
  {
  }

  /** What a move can do to a running job whose owner has no process. */
  lemma IdleOwnerRow(env: Env, s: Sys, m: Move, j: JobId)
    requires SysGood(env, s) && !m.Take? && j in s.db.jobs && s.db.jobs[j].status == Running
    requires ProcOf(s.procs, j, s.db.jobs[j].worker).None?
    ensures var d := Move1(env, s, m).db;
            j in d.jobs && (d.jobs[j].status == Rejected || (d.jobs[j].status == Running && d.jobs[j].worker == s.db.jobs[j].worker))
  {
    MoveIsAction(env, s, m);
    var a := ActionOf(env, s, m);
    if a.Some? && Attempt(s.db, s.now, a.value).Success? {
      if JobOf(a.value) != Some(j) {
        Isolation(s.db, s.now, a.value, j);
      } else {
        IdleOwnerAction(env, s, m, a.value, j);
      }
    }
  }

  lemma IdleOwnerAction(env: Env, s: Sys, m: Move, a: Action, j: JobId)
    requires Coherence.Coherent(s.db) && !m.Take? && j in s.db.jobs && s.db.jobs[j].status == Running
    requires ProcOf(s.procs, j, s.db.jobs[j].worker).None?
    requires ActionOf(env, s, m) == Some(a) && Attempt(s.db, s.now, a).Success? && JobOf(a) == Some(j)
    ensures var d := Attempt(s.db, s.now, a).value;
            j in d.jobs && (d.jobs[j].status == Rejected || (d.jobs[j].status == Running && d.jobs[j].worker == s.db.jobs[j].worker))
  {
    if m.Other? { FreeOwnRow(s.db, s.now, a, j); }
  }

  lemma UnclaimedAccounted(env: Env, s: Sys, m: Move, j: JobId)
    requires SysGood(env, s) && Accounted(s, j) && !m.Take?
    ensures Accounted(Move1(env, s, m), j)
  {
    var s' := Move1(env, s, m);
    OnlyTakesStart(env, s, m, j);
    CheckpointComesFrom(env, s, m, j);
    MoveIsAction(env, s, m);
    var a := ActionOf(env, s, m);
    if a.Some? && Attempt(s.db, s.now, a.value).Success? { AttemptsKept(s.db, s.now, a.value, j); }
    SpentStays(env, s, m, j);
  }

  lemma SpentStays(env: Env, s: Sys, m: Move, j: JobId)
    requires SysGood(env, s) && Spent(s, j) && !m.Take? && AttemptsOf(Move1(env, s, m).db, j) == AttemptsOf(s.db, j)
    ensures Spent(Move1(env, s, m), j)
  {
    if AttemptsOf(s.db, j) > MAX_JOB_ATTEMPTS {
      OnlyTakesStart(env, s, m, j);
      if s.db.jobs[j].status == Running {
        IdleOwnerRow(env, s, m, j);
      } else {
        RejectedStaysPut(env, s, m, j);
      }
    }
  }

  lemma RejectedStaysPut(env: Env, s: Sys, m: Move, j: JobId)
    requires SysGood(env, s) && j in s.db.jobs && s.db.jobs[j].status == Rejected
    ensures var d := Move1(env, s, m).db; j in d.jobs && d.jobs[j].status == Rejected
  {
    MoveIsAction(env, s, m);
    var a := ActionOf(env, s, m);
    if a.Some? && Attempt(s.db, s.now, a.value).Success? { Endings.TerminalRowKept(s.db, s.now, a.value, j); }
  }

  // ---------------------------------------------------------------- claims

  lemma TakeAccounted(env: Env, s: Sys, j: JobId, w: WorkerId)
    requires SysGood(env, s) && Accounted(s, j)
    ensures Accounted(TakeNext(s, j, w), j)
  {
    var r := Claim(s.db, j, w, LEASE, s.now);
    if r.Success? {
      ClaimEffect(s.db, j, w, s.now);
      TakeNextIs(s, s.(db := r.value, procs := s.procs - {ProcId(j, w)}), j, w);
      assert Loaded(r.value, j) == Loaded(s.db, j);
      StartCounts(s, r.value, j, w);
    }
  }

  lemma StartCounts(s: Sys, d: Db, j: JobId, w: WorkerId)
    requires Claim(s.db, j, w, LEASE, s.now) == Success(d) && j in d.jobs && Loadable(d, j)
    requires d.jobs[j] == ClaimedRow(s.db.jobs[j], w, LEASE, s.now) && Charged(s, j) && Spent(s, j)
    ensures TakeNext(s, j, w).db == d && Charged(TakeNext(s, j, w), j) && Spent(TakeNext(s, j, w), j)
  {
  }

  lemma TakeElsewhereAccounted(env: Env, s: Sys, j: JobId, w: WorkerId, i: JobId)
    requires SysGood(env, s) && Accounted(s, i) && i != j
    ensures Accounted(TakeNext(s, j, w), i)
  {
    var r := Claim(s.db, j, w, LEASE, s.now);
    if r.Success? {
      ClaimEffect(s.db, j, w, s.now);
      RowIsolated(s.db, r.value, j, ClaimedRow(s.db.jobs[j], w, LEASE, s.now), i);
      TakeNextIs(s, s.(db := r.value, procs := s.procs - {ProcId(j, w)}), j, w);
      assert SavedCheckpoint(r.value, i) == SavedCheckpoint(s.db, i);
      assert StartCount(TakeNext(s, j, w), i) == StartCount(s, i);
    }
  }

  // ---------------------------------------------------------------- every run

  lemma {:induction false} AttemptsAccounted(env: Env, moves: seq<Move>, j: JobId)
    ensures Accounted(Moves(env, IDLE, moves), j)
  {
    if moves != [] {
      var front, m := moves[..|moves| - 1], moves[|moves| - 1];
      AttemptsAccounted(env, front, j);
      MovesGood(env, front);
      var s := Moves(env, IDLE, front);
      if !m.Take? {
        UnclaimedAccounted(env, s, m, j);
      } else if m.job == j {
        TakeAccounted(env, s, j, m.worker);
      } else {
        TakeElsewhereAccounted(env, s, m.job, m.worker, j);
      }
    }
  }

  /** In every run, exactly the first three attempts of a job start an agent, so at most three
      are ever processed: a claim after an answer is not an attempt, and a later attempt starts
      none. */
  lemma AtMostThreeStarts(env: Env, moves: seq<Move>, j: JobId)
    ensures var s := Moves(env, IDLE, moves);
            && StartCount(s, j) <= MAX_JOB_ATTEMPTS
            && StartCount(s, j) == Least(AttemptsOf(s.db, j), MAX_JOB_ATTEMPTS)
  {
    AttemptsAccounted(env, moves, j);
  }

  /** In every run, a job beyond its third attempt is rejected, or running while its owner has
      no agent for it: it is never published, suspended or queued again. */
  lemma FourthAttemptOnlyRejects(env: Env, moves: seq<Move>, j: JobId)
    requires j in Moves(env, IDLE, moves).db.jobs && Moves(env, IDLE, moves).db.jobs[j].attempts > MAX_JOB_ATTEMPTS
    ensures var s := Moves(env, IDLE, moves); var job := s.db.jobs[j];
            job.status == Rejected || (job.status == Running && job.worker.Some? && ProcId(j, job.worker.value) !in s.procs)
  {
    AttemptsAccounted(env, moves, j);
    MovesGood(env, moves);
    Coherence.RowOf(Moves(env, IDLE, moves).db, j);
  }
}
