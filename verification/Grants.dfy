/** Where the capabilities of a published version come from: each was active when a call of its
    own job took it, and every activation goes back to the answer of a user. */
module Grants {
  import opened Wrappers
  import opened ArtifactTypes
  import opened AgentTypes
  import opened Schema
  import opened Transactions
  import opened Effects
  import opened ToolCalls
  import opened PublicationGate
  import opened Processes
  import opened Provenance
  import opened Lineage
  import Approvals

  // ---------------------------------------------------------------- what one call takes

  /** A request that adds this grant: it was active already, or the user approved the question
      under the id of the call, and then the call activates it. */
  predicate Takes(ws: Workspace, c: Call, o: Oracle, g: Grant) {
    && c.RequestHttpCapability? && c.capability == Some(g.capability) && g.approvalHash == HashCapability(g.capability)
    && (o.alreadyApproved || ApprovalWritten(ws, c, o) == Some(g.approvalHash))
  }

  lemma EvaluateKeepsGrants(env: Env, task: Request, ws: Workspace, audit: Audit, o: Oracle)
    ensures Evaluate(env, task, ws, audit, o).ws.httpCapabilities == ws.httpCapabilities
  {
  }

  lemma MutationKeepsGrants(env: Env, task: Request, ws: Workspace, audit: Audit, c: Call, o: Oracle)
    requires Mutates(c)
    ensures ExecuteMutation(env, task, ws, audit, c, o).ws.httpCapabilities == ws.httpCapabilities
  {
    forall x: Workspace, a: Audit ensures Evaluate(env, task, x, a, o).ws.httpCapabilities == x.httpCapabilities {
      EvaluateKeepsGrants(env, task, x, a, o);
    }
  }

  lemma {:induction false} ReleaseAddsNone(caps: seq<Grant>, hash: CapabilityHash, g: Grant)
    requires g in WithoutFirst(caps, hash)
    ensures g in caps
  {
    if caps != [] && caps[0].approvalHash != hash && g != caps[0] {
      ReleaseAddsNone(caps[1..], hash, g);
    }
  }

  lemma QueryGrants(env: Env, ws: Workspace, audit: Audit, c: Call, o: Oracle, g: Grant)
    requires !Mutates(c) && g in ExecuteQuery(env, ws, audit, c, o).ws.httpCapabilities
    ensures g in ws.httpCapabilities || Takes(ws, c, o, g)
  {
    match c
    case ReleaseHttpCapability(hash, _) => if g !in ws.httpCapabilities { ReleaseAddsNone(ws.httpCapabilities, hash, g); }
    case RequestHttpCapability(_, _) =>
    case _ =>
  }

  /** A grant of the workspace after a call was there before, or the call took it. */
  lemma GrantsComeFrom(env: Env, task: Request, ws: Workspace, audit: Audit, c: Call, o: Oracle, g: Grant)
    requires g in Execute(env, task, ws, audit, c, o).ws.httpCapabilities
    ensures g in ws.httpCapabilities || Takes(ws, c, o, g)
  {
    if Mutates(c) {
      MutationKeepsGrants(env, task, ws, audit, c, o);
    } else {
      QueryGrants(env, ws, audit, c, o, g);
    }
  }

  // ---------------------------------------------------------------- grants over a run

  /** Move n is a call of job j that took this grant, and left it active. */
  ghost predicate TakenAt(env: Env, moves: seq<Move>, n: nat, j: JobId, g: Grant) {
    && ToolAt(env, moves, n, j)
    && var c := CallAt(env, moves, n, j).call;
       && c.RequestHttpCapability? && c.capability == Some(g.capability) && g.approvalHash == HashCapability(g.capability)
       && ActiveAfter(env, moves, n, g.approvalHash)
  }

  /** The capability is active when move n is done. */
  ghost predicate ActiveAfter(env: Env, moves: seq<Move>, n: nat, hash: CapabilityHash) {
    n < |moves| && ActiveCapability(Moves(env, IDLE, moves[..n + 1]).db, hash)
  }

  ghost predicate Taken(env: Env, moves: seq<Move>, j: JobId, g: Grant) {
    exists n: nat :: TakenAt(env, moves, n, j, g)
  }

  ghost predicate AllTaken(env: Env, moves: seq<Move>, j: JobId, grants: seq<Grant>) {
    forall g | g in grants :: Taken(env, moves, j, g)
  }

  lemma TakenLater(env: Env, moves: seq<Move>, m: Move, j: JobId, g: Grant)
    requires Taken(env, moves, j, g)
    ensures Taken(env, moves + [m], j, g)
  {
    var n: nat :| TakenAt(env, moves, n, j, g);
    TakenAtLater(env, moves, m, n, j, g);
  }

  lemma TakenAtLater(env: Env, moves: seq<Move>, m: Move, n: nat, j: JobId, g: Grant)
    requires TakenAt(env, moves, n, j, g)
    ensures TakenAt(env, moves + [m], n, j, g)
  {
    SameToolAt(env, moves, m, n, j);
    assert (moves + [m])[..n + 1] == moves[..n + 1];
  }

  lemma AllTakenLater(env: Env, moves: seq<Move>, m: Move, j: JobId, grants: seq<Grant>)
    requires AllTaken(env, moves, j, grants)
    ensures AllTaken(env, moves + [m], j, grants)
  {
    forall g | g in grants ensures Taken(env, moves + [m], j, g) { TakenLater(env, moves, m, j, g); }
  }

  /** What a call takes is active when it ends. */
  lemma TakenIsActive(env: Env, s: Sys, j: JobId, w: WorkerId, o: Oracle, slip: Slip, g: Grant)
    requires Runs(s, j, w, o)
    requires var a := s.procs[ProcId(j, w)].agent; Takes(a.ws, a.pending.value.call, o, g) && g in ResultOf(env, s, j, w, o).ws.httpCapabilities
    requires g !in s.procs[ProcId(j, w)].agent.ws.httpCapabilities
    ensures ActiveCapability(ToolNext(env, s, j, w, o, slip).db, g.approvalHash)
  {
    var a := s.procs[ProcId(j, w)].agent;
    TakingGoesOn(env, TaskOf(s.db, j).value, a.ws, a.audit, a.pending.value.call, o, g);
    ToolNextIs(env, s, j, w, o, slip);
    assert ActiveCapability(Approving(s, j, w, o).db, g.approvalHash);
  }

  lemma TakingGoesOn(env: Env, task: Request, ws: Workspace, audit: Audit, c: Call, o: Oracle, g: Grant)
    requires Takes(ws, c, o, g) && g !in ws.httpCapabilities && g in Execute(env, task, ws, audit, c, o).ws.httpCapabilities
    ensures Execute(env, task, ws, audit, c, o).execution == Continue
  {
  }

  lemma CallTakes(env: Env, moves: seq<Move>, m: Move)
    requires m.UseTool? && Runs(Moves(env, IDLE, moves), m.job, m.worker, m.oracle)
    requires AllTaken(env, moves, m.job, Moves(env, IDLE, moves).procs[ProcId(m.job, m.worker)].agent.ws.httpCapabilities)
    ensures AllTaken(env, moves + [m], m.job, ResultOf(env, Moves(env, IDLE, moves), m.job, m.worker, m.oracle).ws.httpCapabilities)
  {
    var s, j := Moves(env, IDLE, moves), m.job;
    var a := s.procs[ProcId(j, m.worker)].agent;
    forall g | g in ResultOf(env, s, j, m.worker, m.oracle).ws.httpCapabilities ensures Taken(env, moves + [m], j, g) {
      if g in a.ws.httpCapabilities {
        TakenLater(env, moves, m, j, g);
      } else {
        GrantsComeFrom(env, TaskOf(s.db, j).value, a.ws, a.audit, a.pending.value.call, m.oracle, g);
        NewlyTaken(env, moves, m, g);
      }
    }
  }

  lemma NewlyTaken(env: Env, moves: seq<Move>, m: Move, g: Grant)
    requires m.UseTool? && Runs(Moves(env, IDLE, moves), m.job, m.worker, m.oracle)
    requires g in ResultOf(env, Moves(env, IDLE, moves), m.job, m.worker, m.oracle).ws.httpCapabilities
    requires var a := Moves(env, IDLE, moves).procs[ProcId(m.job, m.worker)].agent;
             Takes(a.ws, a.pending.value.call, m.oracle, g) && g !in a.ws.httpCapabilities
    ensures Taken(env, moves + [m], m.job, g)
  {
    TakenIsActive(env, Moves(env, IDLE, moves), m.job, m.worker, m.oracle, m.slip, g);
    LastTool(env, moves, m);
    MovesExtend(env, moves, m);
    assert TakenAt(env, moves + [m], |moves|, m.job, g);
  }

  // ---------------------------------------------------------------- every live agent and checkpoint

  ghost predicate ProcTaken(env: Env, moves: seq<Move>, id: ProcId) {
    var s := Moves(env, IDLE, moves);
    id in s.procs ==> AllTaken(env, moves, id.job, s.procs[id].agent.ws.httpCapabilities)
  }

  ghost predicate CheckpointTaken(env: Env, moves: seq<Move>, j: JobId) {
    var c := SavedCheckpoint(Moves(env, IDLE, moves).db, j);
    c.Some? ==> AllTaken(env, moves, j, c.value.agent.ws.httpCapabilities)
  }

  ghost predicate GrantsOk(env: Env, moves: seq<Move>) {
    (forall id :: ProcTaken(env, moves, id)) && (forall j :: CheckpointTaken(env, moves, j))
  }

  /** The grants of a process after a move: its own, the saved ones, none, or those of the call. */
  ghost predicate GrantsOrigin(env: Env, s: Sys, m: Move, id: ProcId, grants: seq<Grant>) {
    || (id in s.procs && s.procs[id].agent.ws.httpCapabilities == grants)
    || (SavedCheckpoint(s.db, id.job).Some? && SavedCheckpoint(s.db, id.job).value.agent.ws.httpCapabilities == grants)
    || grants == []
    || (m.UseTool? && id == ProcId(m.job, m.worker) && Runs(s, m.job, m.worker, m.oracle)
        && ResultOf(env, s, m.job, m.worker, m.oracle).ws.httpCapabilities == grants)
  }

  lemma ProcGrants(env: Env, s: Sys, m: Move, id: ProcId)
    requires id in Move1(env, s, m).procs
    ensures GrantsOrigin(env, s, m, id, Move1(env, s, m).procs[id].agent.ws.httpCapabilities)
  {
    if m.Take? {
      ClaimedGrants(env, s, m.job, m.worker, id);
    } else if m.UseTool? && Runs(s, m.job, m.worker, m.oracle) {
      CalledGrants(env, s, m.job, m.worker, m.oracle, m.slip, id);
    } else {
      OthersKeepGrants(env, s, m, id);
    }
  }

  lemma OthersKeepGrants(env: Env, s: Sys, m: Move, id: ProcId)
    requires !m.Take? && !(m.UseTool? && Runs(s, m.job, m.worker, m.oracle)) && id in Move1(env, s, m).procs
    ensures id in s.procs && Move1(env, s, m).procs[id].agent.ws.httpCapabilities == s.procs[id].agent.ws.httpCapabilities
  {
  }

  lemma ClaimedGrants(env: Env, s: Sys, j: JobId, w: WorkerId, id: ProcId)
    requires id in TakeNext(s, j, w).procs
    ensures GrantsOrigin(env, s, Take(j, w), id, TakeNext(s, j, w).procs[id].agent.ws.httpCapabilities)
  {
    var r := Claim(s.db, j, w, LEASE, s.now);
    if r.Success? {
      ClaimEffect(s.db, j, w, s.now);
      TakeNextIs(s, s.(db := r.value, procs := s.procs - {ProcId(j, w)}), j, w);
      assert SavedCheckpoint(r.value, j) == SavedCheckpoint(s.db, j);
    }
  }

  lemma CalledGrants(env: Env, s: Sys, j: JobId, w: WorkerId, o: Oracle, slip: Slip, id: ProcId)
    requires Runs(s, j, w, o) && id in ToolNext(env, s, j, w, o, slip).procs
    ensures GrantsOrigin(env, s, UseTool(j, w, o, slip), id, ToolNext(env, s, j, w, o, slip).procs[id].agent.ws.httpCapabilities)
  {
    ToolNextIs(env, s, j, w, o, slip);
    SettledGrants(Approving(s, j, w, o), j, w, TaskOf(s.db, j).value, ResultOf(env, s, j, w, o), o,
                  s.procs[ProcId(j, w)].agent.pending.value.id, slip, id);
  }

  lemma SettledGrants(s: Sys, j: JobId, w: WorkerId, task: Request, r: Outcome, o: Oracle, call: string, slip: Slip, id: ProcId)
    requires j in s.db.jobs && id in Settled(s, j, w, task, r, o, call, slip).procs
    ensures var p := Settled(s, j, w, task, r, o, call, slip).procs[id];
            (id in s.procs && p == s.procs[id]) || (id == ProcId(j, w) && p.agent.ws == r.ws)
  {
  }

  lemma ProcStaysTaken(env: Env, moves: seq<Move>, m: Move, id: ProcId)
    requires GrantsOk(env, moves)
    ensures ProcTaken(env, moves + [m], id)
  {
    var s := Moves(env, IDLE, moves);
    MovesExtend(env, moves, m);
    var s' := Move1(env, s, m);
    if id in s'.procs {
      var grants := s'.procs[id].agent.ws.httpCapabilities;
      ProcGrants(env, s, m, id);
      assert ProcTaken(env, moves, id) && CheckpointTaken(env, moves, id.job);
      if grants == [] {
      } else if AllTaken(env, moves, id.job, grants) {
        AllTakenLater(env, moves, m, id.job, grants);
      } else {
        assert ProcTaken(env, moves, ProcId(m.job, m.worker));
        CallTakes(env, moves, m);
      }
    }
  }

  lemma CheckpointStaysTaken(env: Env, moves: seq<Move>, m: Move, j: JobId)
    requires GrantsOk(env, moves)
    ensures CheckpointTaken(env, moves + [m], j)
  {
    var s := Moves(env, IDLE, moves);
    MovesExtend(env, moves, m);
    var c := SavedCheckpoint(Move1(env, s, m).db, j);
    CheckpointComesFrom(env, s, m, j);
    if c.Some? {
      assert CheckpointTaken(env, moves, j);
      if m.Save? { assert ProcTaken(env, moves, ProcId(m.job, m.worker)); }
      AllTakenLater(env, moves, m, j, c.value.agent.ws.httpCapabilities);
    }
  }

  /** In every run, each grant of each live agent and saved checkpoint was taken by an earlier
      call of its own job, and was active when that call ended. */
  lemma {:induction false} GrantsHold(env: Env, moves: seq<Move>)
    ensures GrantsOk(env, moves)
  {
    if moves != [] {
      var front, m := moves[..|moves| - 1], moves[|moves| - 1];
      GrantsHold(env, front);
      assert moves == front + [m];
      forall id ensures ProcTaken(env, moves, id) { ProcStaysTaken(env, front, m, id); }
      forall j ensures CheckpointTaken(env, moves, j) { CheckpointStaysTaken(env, front, m, j); }
    }
  }

  // ---------------------------------------------------------------- activations

  /** Move n is a call of job j that requests a capability with this hash, under an id whose
      question a user has approved. */
  ghost predicate ActivatedAt(env: Env, moves: seq<Move>, n: nat, j: JobId, hash: CapabilityHash) {
    && ToolAt(env, moves, n, j)
    && var p := CallAt(env, moves, n, j);
       && p.call.RequestHttpCapability? && p.call.capability.Some? && HashCapability(p.call.capability.value) == hash
       && AnsweredInput(Before(env, moves, n).db, j, p.id) == Some(Approve)
       && exists u: nat :: AnsweredAt(env, moves[..n], u, j, p.id, Approve)
  }

  ghost predicate Activated(env: Env, moves: seq<Move>, hash: CapabilityHash) {
    exists n: nat, j :: ActivatedAt(env, moves, n, j, hash)
  }

  lemma ActivatedLater(env: Env, moves: seq<Move>, m: Move, hash: CapabilityHash)
    requires Activated(env, moves, hash)
    ensures Activated(env, moves + [m], hash)
  {
    var n: nat, j :| ActivatedAt(env, moves, n, j, hash);
    SameToolAt(env, moves, m, n, j);
    SamePast(env, moves, m, n);
    assert ActivatedAt(env, moves + [m], n, j, hash);
  }

  /** Only a call that writes its own approval activates a capability. */
  lemma ActivatingMove(env: Env, s: Sys, m: Move, hash: CapabilityHash)
    requires !ActiveCapability(s.db, hash) && ActiveCapability(Move1(env, s, m).db, hash)
    ensures m.UseTool? && Runs(s, m.job, m.worker, m.oracle)
    ensures var a := s.procs[ProcId(m.job, m.worker)].agent; ApprovalWritten(a.ws, a.pending.value.call, m.oracle) == Some(hash)
  {
    MoveIsAction(env, s, m);
    var a := ActionOf(env, s, m).value;
    if a != DoApproveCapability(hash) { Approvals.OthersKeepApprovals(s.db, s.now, a, hash); }
  }

  lemma ActivatedByMove(env: Env, moves: seq<Move>, m: Move, hash: CapabilityHash)
    requires !ActiveCapability(Moves(env, IDLE, moves).db, hash) && ActiveCapability(Move1(env, Moves(env, IDLE, moves), m).db, hash)
    ensures Activated(env, moves + [m], hash)
  {
    var s, n := Moves(env, IDLE, moves), |moves|;
    ActivatingMove(env, s, m, hash);
    LastTool(env, moves, m);
    assert (moves + [m])[..n] == moves;
    ApprovalIsTheUsers(env, moves, m.job, CallAt(env, moves + [m], n, m.job).id);
    assert ActivatedAt(env, moves + [m], n, m.job, hash);
  }

  /** In every run, an active capability was requested by a call whose own question a user had
      approved. */
  lemma {:induction false} ActiveGoesBackToAUser(env: Env, moves: seq<Move>, hash: CapabilityHash)
    requires ActiveCapability(Moves(env, IDLE, moves).db, hash)
    ensures Activated(env, moves, hash)
  {
    if moves != [] {
      var front, m := moves[..|moves| - 1], moves[|moves| - 1];
      assert moves == front + [m];
      if ActiveCapability(Moves(env, IDLE, front).db, hash) {
        ActiveGoesBackToAUser(env, front, hash);
        ActivatedLater(env, front, m, hash);
      } else {
        ActivatedByMove(env, front, m, hash);
      }
    }
  }

  // ---------------------------------------------------------------- published versions

  /** Grant g of job j was taken by a move of the run, and its activation is the approval of a
      user. */
  ghost predicate GoesBack(env: Env, moves: seq<Move>, j: JobId, g: Grant) {
    Taken(env, moves, j, g) && Activated(env, moves, g.approvalHash)
  }

  lemma {:induction false} ActivatedInPrefix(env: Env, moves: seq<Move>, n: nat, hash: CapabilityHash)
    requires n <= |moves| && Activated(env, moves[..n], hash)
    ensures Activated(env, moves, hash)
  {
    if n == |moves| {
      assert moves[..n] == moves;
    } else {
      var front, m := moves[..|moves| - 1], moves[|moves| - 1];
      assert front[..n] == moves[..n] && moves == front + [m];
      ActivatedInPrefix(env, front, n, hash);
      ActivatedLater(env, front, m, hash);
    }
  }

  lemma TakenGoesBack(env: Env, moves: seq<Move>, j: JobId, g: Grant)
    requires Taken(env, moves, j, g)
    ensures GoesBack(env, moves, j, g)
  {
    var n: nat :| TakenAt(env, moves, n, j, g);
    ActiveWasActivated(env, moves, n, g.approvalHash);
  }

  lemma ActiveWasActivated(env: Env, moves: seq<Move>, n: nat, hash: CapabilityHash)
    requires ActiveAfter(env, moves, n, hash)
    ensures Activated(env, moves, hash)
  {
    ActiveGoesBackToAUser(env, moves[..n + 1], hash);
    ActivatedInPrefix(env, moves, n + 1, hash);
  }

  lemma {:induction false} TakenInPrefix(env: Env, moves: seq<Move>, n: nat, j: JobId, g: Grant)
    requires n <= |moves| && Taken(env, moves[..n], j, g)
    ensures Taken(env, moves, j, g)
  {
    if n == |moves| {
      assert moves[..n] == moves;
    } else {
      var front, m := moves[..|moves| - 1], moves[|moves| - 1];
      assert front[..n] == moves[..n] && moves == front + [m];
      TakenInPrefix(env, front, n, j, g);
      TakenLater(env, front, m, j, g);
    }
  }

  lemma PublishedManifest(env: Env, task: Request, ws: Workspace, audit: Audit, c: Call, o: Oracle)
    requires Execute(env, task, ws, audit, c, o).execution.Published?
    ensures Execute(env, task, ws, audit, c, o).execution.bundle.manifest.grants == ws.httpCapabilities
  {
    ExecuteClean(env, task, ws, audit, c, o);
    if Mutates(c) { MutationKeepsGrants(env, task, ws, audit, c, o); }
  }

  lemma PublishedGrantsTaken(env: Env, moves: seq<Move>, n: nat, k: VersionKey, e: Evidence, g: Grant)
    requires PublishedAt(env, moves, n, k, e) && g in e.bundle.manifest.grants
    ensures Taken(env, moves, moves[n].job, g)
  {
    var j := moves[n].job;
    var a := ActorAt(env, moves, n, j);
    PublishedManifest(env, TaskAt(env, moves, n, j), a.ws, a.audit, a.pending.value.call, moves[n].oracle);
    GrantsHold(env, moves[..n]);
    assert ProcTaken(env, moves[..n], ProcId(j, moves[n].worker));
    TakenInPrefix(env, moves, n, j, g);
  }

  /** In every run, each grant of a version that is ready or revoked was taken by a call of the
      job that published it, while the capability was active, and the capability had become
      active by the approval of a user under the id of a request for it. */
  lemma PublishedGrantsGoBack(env: Env, moves: seq<Move>, k: VersionKey, g: Grant)
    requires IssuedIn(Moves(env, IDLE, moves).db, k) && k in Moves(env, IDLE, moves).evidence
    requires g in Moves(env, IDLE, moves).evidence[k].bundle.manifest.grants
    ensures exists n: nat :: PublishedAt(env, moves, n, k, Moves(env, IDLE, moves).evidence[k]) && GoesBack(env, moves, moves[n].job, g)
  {
    LineageHolds(env, moves);
    assert VersionGrounded(env, moves, k);
    var e := Moves(env, IDLE, moves).evidence[k];
    var n: nat :| PublishedAt(env, moves, n, k, e);
    PublishedGrantsTaken(env, moves, n, k, e, g);
    TakenGoesBack(env, moves, moves[n].job, g);
  }
}
