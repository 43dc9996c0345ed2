/** What a worker process starts from, and what its own moves do (jobs.rs, load_or_create_run and
    drive_agent). */
module Restarts {
  import opened Wrappers
  import opened ArtifactTypes
  import opened AgentTypes
  import opened Schema
  import opened Transactions
  import opened Effects
  import opened Processes
  import opened Provenance
  import opened ToolCalls
  import opened Lineage

  predicate NeverSaves(moves: seq<Move>, j: JobId) {
    forall i | 0 <= i < |moves| :: !(moves[i].Save? && moves[i].job == j)
  }

  lemma {:induction false} CheckpointStays(env: Env, s: Sys, moves: seq<Move>, j: JobId)
    requires NeverSaves(moves, j)
    ensures SavedCheckpoint(Moves(env, s, moves).db, j) == SavedCheckpoint(s.db, j)
  {
    if moves != [] {
      var front := moves[..|moves| - 1];
      assert forall i | 0 <= i < |front| :: front[i] == moves[i];
      CheckpointStays(env, s, front, j);
      CheckpointComesFrom(env, Moves(env, s, front), moves[|moves| - 1], j);
    }
  }

  /** A claimed job up to its third attempt starts from its checkpoint, or afresh when it has none; no
      process starts from a checkpoint of another engine, or later. */
  lemma StartsFrom(s: Sys, j: JobId, w: WorkerId)
    requires Claim(s.db, j, w, LEASE, s.now).Success?
    ensures var d := TakeNext(s, j, w); var id := ProcId(j, w); var c := SavedCheckpoint(s.db, j);
            && j in d.db.jobs && d.db == Claim(s.db, j, w, LEASE, s.now).value
            && (id in d.procs <==>
                  && d.db.jobs[j].attempts <= 3
                  && (c.Some? ==> c.value.engine == "rig-agent-run" && c.value.engineVersion == "rig-core-0.40.0+jitforge-agent-v1"))
            && (id in d.procs ==> !d.procs[id].saved && d.procs[id].agent == if c.Some? then c.value.agent else FRESH_AGENT)
            && (forall i | i != id :: i in d.procs <==> i in s.procs)
            && (forall i | i != id && i in s.procs :: d.procs[i] == s.procs[i])
  {
    ClaimEffect(s.db, j, w, s.now);
    assert SavedCheckpoint(Claim(s.db, j, w, LEASE, s.now).value, j) == SavedCheckpoint(s.db, j);
  }

  lemma SaveRecords(s: Sys, j: JobId, w: WorkerId)
    requires ProcId(j, w) in s.procs && OwnsOrPublished(s.db, j, w)
    ensures SavedCheckpoint(SaveNext(s, j, w).db, j) == Some(Checkpoint("rig-agent-run", "rig-core-0.40.0+jitforge-agent-v1", s.procs[ProcId(j, w)].agent))
  {
  }

  /** A worker saves its agent; then anything happens but another save of the job; then a worker
      claims the job within three attempts: it goes on with the very agent that was saved, pending
      call included. */
  lemma RestartResumes(env: Env, s: Sys, j: JobId, w: WorkerId, moves: seq<Move>, u: WorkerId)
    requires ProcId(j, w) in s.procs && OwnsOrPublished(s.db, j, w) && NeverSaves(moves, j)
    requires var v := Moves(env, Move1(env, s, Save(j, w)), moves);
             Claim(v.db, j, u, LEASE, v.now).Success? && Claim(v.db, j, u, LEASE, v.now).value.jobs[j].attempts <= 3
    ensures var v := Moves(env, Move1(env, s, Save(j, w)), moves); var d := Move1(env, v, Take(j, u));
            ProcId(j, u) in d.procs && d.procs[ProcId(j, u)].agent == s.procs[ProcId(j, w)].agent
  {
    var s1 := Move1(env, s, Save(j, w));
    SaveRecords(s, j, w);
    CheckpointStays(env, s1, moves, j);
    StartsFrom(Moves(env, s1, moves), j, u);
  }

  /** The model's turn is counted, and its call becomes pending, exactly when the agent is saved, has
      no pending call, and the tool is on offer with that turn counted; it must be saved again. */
  lemma TurnExactly(s: Sys, j: JobId, w: WorkerId, p: PendingCall)
    ensures var id := ProcId(j, w); var d := TurnNext(s, j, w, p);
            && d == s.(procs := d.procs) && d.procs.Keys == s.procs.Keys && (forall i | i in s.procs && i != id :: d.procs[i] == s.procs[i])
            && (id in s.procs ==>
                  var was, now := s.procs[id], d.procs[id];
                  var counted := was.agent.ws.(metrics := was.agent.ws.metrics.(turns := was.agent.ws.metrics.turns + 1));
                  if was.saved && was.agent.pending.None? && Advertised(counted, p.call)
                  then now.agent.ws == counted && now.agent.audit == was.agent.audit && now.agent.pending == Some(p) && !now.saved
                  else now == was)
  {
  }

  /** A refused batch of calls leaves a saved agent without its pending call, to be saved again. */
  lemma RefusalExactly(s: Sys, j: JobId, w: WorkerId)
    ensures var id := ProcId(j, w); var d := RefuseNext(s, j, w);
            && d == s.(procs := d.procs) && d.procs.Keys == s.procs.Keys && (forall i | i in s.procs && i != id :: d.procs[i] == s.procs[i])
            && (id in s.procs ==>
                  var was, now := s.procs[id], d.procs[id];
                  if was.saved then now.agent == was.agent.(pending := None) && !now.saved else now == was)
  {
  }

  /** The tables after the transaction of an outcome. */
  function Wrote(s: Sys, a: Action): Db {
    After(s.db, Attempt(s.db, s.now, a))
  }

  /** After a tool call the agent goes on with the workspace and history of the outcome and no pending
      call; when the outcome ends its turn the process is gone, and a question is asked under the id
      of the call, or the bundle is published. */
  ghost predicate SettledAs(s: Sys, d: Sys, j: JobId, w: WorkerId, call: string, slip: Slip, r: Outcome) {
    var id := ProcId(j, w);
    && (forall i | i != id :: i in d.procs <==> i in s.procs) && (forall i | i != id && i in s.procs :: d.procs[i] == s.procs[i])
    && match r.execution
       case Continue => id in d.procs && d.procs[id].agent == Agent(r.ws, r.audit, None) && !d.procs[id].saved
       case Failed(_) => id !in d.procs && d.db == s.db
       case Suspended(kind, context) =>
         id !in d.procs && d.db == Wrote(s, DoSuspend(j, w, NewInput(slip.id, call, kind, context, slip.bytes)))
       case Published(b) =>
         id !in d.procs && d.db == Wrote(s, DoPublish(j, w, PublishedArtifact(SemanticDigest(b), b.manifest, b.contract)))
  }

  lemma ToolExactly(env: Env, s: Sys, j: JobId, w: WorkerId, o: Oracle, slip: Slip)
    requires Runs(s, j, w, o)
    ensures SettledAs(s, ToolNext(env, s, j, w, o, slip), j, w, s.procs[ProcId(j, w)].agent.pending.value.id, slip,
                      ResultOf(env, s, j, w, o))
  {
    ToolNextIs(env, s, j, w, o, slip);
    ToolIsAction(env, s, j, w, o, slip);
    var a := s.procs[ProcId(j, w)].agent;
    if ApprovalWritten(a.ws, a.pending.value.call, o).Some? {
      ApprovalGoesOn(env, TaskOf(s.db, j).value, a.ws, a.audit, a.pending.value.call, o);
    }
  }
}
