/** Where the evidence of a published version comes from: which moves of the run gave the
    review, the approvals, the verdicts and the results it consists of. */
module Lineage {
  import opened Wrappers
  import opened ArtifactTypes
  import opened AgentTypes
  import opened Schema
  import opened Transactions
  import opened Effects
  import opened Histories
  import opened Questions
  import opened ToolCalls
  import opened PublicationGate
  import opened Collection
  import opened Processes
  import opened Provenance
  import Approvals

  // ---------------------------------------------------------------- the transaction of a move

  /** The transaction a move carries out, if any. */
  ghost function ActionOf(env: Env, s: Sys, m: Move): Option<Action> {
    match m
    case Other(a) => if Free(a) then Some(a) else None
    case Take(j, w) => Some(DoClaim(j, w))
    case Save(j, w) =>
      if ProcId(j, w) in s.procs then Some(DoSaveCheckpoint(j, w, Saved(s.procs[ProcId(j, w)].agent))) else None
    case UseTool(j, w, o, slip) => if Runs(s, j, w, o) then ToolAction(env, s, j, w, o, slip) else None
    case _ => None
  }

  /** A tool call approves a capability, asks, publishes, or writes nothing. */
  ghost function ToolAction(env: Env, s: Sys, j: JobId, w: WorkerId, o: Oracle, slip: Slip): Option<Action>
    requires Runs(s, j, w, o)
  {
    var a := s.procs[ProcId(j, w)].agent;
    var hash := ApprovalWritten(a.ws, a.pending.value.call, o);
    if hash.Some? then Some(DoApproveCapability(hash.value))
    else ExecutionAction(ResultOf(env, s, j, w, o).execution, j, w, a.pending.value.id, slip)
  }

  /** How a tool call ends in the registry. */
  function ExecutionAction(x: Execution, j: JobId, w: WorkerId, call: string, slip: Slip): Option<Action> {
    match x
    case Suspended(kind, context) => Some(DoSuspend(j, w, Question(call, slip, kind, context)))
    case Published(b) => Some(DoPublish(j, w, Artifact(b)))
    case _ => None
  }

  /** A move changes the tables by its transaction alone. */
  lemma MoveIsAction(env: Env, s: Sys, m: Move)
    ensures var a := ActionOf(env, s, m);
            && Move1(env, s, m).db == (if a.Some? then After(s.db, Attempt(s.db, s.now, a.value)) else s.db)
            && (a.Some? ==> Coherence.WorkerStage(a.value))
  {
    match m
    case UseTool(j, w, o, slip) => if Runs(s, j, w, o) { ToolIsAction(env, s, j, w, o, slip); }
    case Take(j, w) => TakeIsAction(s, j, w);
    case _ =>
  }

  lemma TakeIsAction(s: Sys, j: JobId, w: WorkerId)
    ensures TakeNext(s, j, w).db == After(s.db, Attempt(s.db, s.now, DoClaim(j, w)))
  {
    assert Attempt(s.db, s.now, DoClaim(j, w)) == Claim(s.db, j, w, LEASE, s.now);
  }

  /** A call that approves a capability goes on. */
  lemma ApprovalGoesOn(env: Env, task: Request, ws: Workspace, audit: Audit, c: Call, o: Oracle)
    requires ApprovalWritten(ws, c, o).Some?
    ensures Execute(env, task, ws, audit, c, o).execution == Continue
  {
  }

  lemma ToolIsAction(env: Env, s: Sys, j: JobId, w: WorkerId, o: Oracle, slip: Slip)
    requires Runs(s, j, w, o)
    ensures var a := ToolAction(env, s, j, w, o, slip);
            && ToolNext(env, s, j, w, o, slip).db == (if a.Some? then After(s.db, Attempt(s.db, s.now, a.value)) else s.db)
            && (a.Some? ==> Coherence.WorkerStage(a.value))
  {
    var a, task := s.procs[ProcId(j, w)].agent, TaskOf(s.db, j).value;
    var hash, r := ApprovalWritten(a.ws, a.pending.value.call, o), ResultOf(env, s, j, w, o);
    ToolNextIs(env, s, j, w, o, slip);
    SettledDb(Approving(s, j, w, o), j, w, task, r, o, a.pending.value.id, slip);
    if hash.Some? {
      ApprovalGoesOn(env, task, a.ws, a.audit, a.pending.value.call, o);
      assert Attempt(s.db, s.now, DoApproveCapability(hash.value)) == ApproveCapability(s.db, hash.value);
    }
  }

  lemma SettledDb(s: Sys, j: JobId, w: WorkerId, task: Request, r: Outcome, o: Oracle, call: string, slip: Slip)
    requires j in s.db.jobs
    ensures var a := ExecutionAction(r.execution, j, w, call, slip);
            && Settled(s, j, w, task, r, o, call, slip).db == (if a.Some? then After(s.db, Attempt(s.db, s.now, a.value)) else s.db)
            && (a.Some? ==> Coherence.WorkerStage(a.value))
  {
    match r.execution
    case Suspended(kind, context) =>
      var input := Question(call, slip, kind, context);
      assert Attempt(s.db, s.now, DoSuspend(j, w, input)) == Suspend(s.db, j, w, input, s.now);
    case Published(b) => assert Attempt(s.db, s.now, DoPublish(j, w, Artifact(b))) == Publish(s.db, j, w, Artifact(b), s.now);
    case _ =>
  }

  // ---------------------------------------------------------------- tool calls of a run

  ghost function Before(env: Env, moves: seq<Move>, n: nat): Sys
    requires n <= |moves|
  {
    Moves(env, IDLE, moves[..n])
  }

  /** Move n is a tool call of job j that ran. */
  ghost predicate ToolAt(env: Env, moves: seq<Move>, n: nat, j: JobId) {
    && n < |moves| && moves[n].UseTool? && moves[n].job == j
    && Runs(Before(env, moves, n), j, moves[n].worker, moves[n].oracle)
  }

  ghost function ActorAt(env: Env, moves: seq<Move>, n: nat, j: JobId): Agent
    requires ToolAt(env, moves, n, j)
  {
    Before(env, moves, n).procs[ProcId(j, moves[n].worker)].agent
  }

  ghost function CallAt(env: Env, moves: seq<Move>, n: nat, j: JobId): PendingCall
    requires ToolAt(env, moves, n, j)
  {
    ActorAt(env, moves, n, j).pending.value
  }

  ghost function TaskAt(env: Env, moves: seq<Move>, n: nat, j: JobId): Request
    requires ToolAt(env, moves, n, j)
  {
    TaskOf(Before(env, moves, n).db, j).value
  }

  ghost function ResultAt(env: Env, moves: seq<Move>, n: nat, j: JobId): Outcome
    requires ToolAt(env, moves, n, j)
  {
    ResultOf(env, Before(env, moves, n), j, moves[n].worker, moves[n].oracle)
  }

  /** The model submitted the contract of this draft, and the reviewer accepted it with this
      review. */
  ghost predicate ReviewedAt(env: Env, moves: seq<Move>, n: nat, j: JobId, draft: Draft, review: Review) {
    && ToolAt(env, moves, n, j)
    && var c := CallAt(env, moves, n, j).call;
       && c.SubmitContract? && moves[n].oracle.review == Some(review) && review.decision == Accept
       && BuildDraft(env, TaskAt(env, moves, n, j), ActorAt(env, moves, n, j).ws,
                     Contract(c.summary, c.assumptions, c.invariants), c.tests) == Some(draft)
  }

  /** The model proposed this correction of example i, and the question under the id of that
      very call had been answered with an approval. */
  ghost predicate ApprovedAt(env: Env, moves: seq<Move>, n: nat, j: JobId, i: nat, correction: Correction) {
    && ToolAt(env, moves, n, j)
    && var p := CallAt(env, moves, n, j);
       && p.call.RequestExampleCorrection? && p.call.exampleIndex == i + 1
       && ValidCorrection(env, TaskAt(env, moves, n, j), p.call) == Some(correction)
       && AnsweredInput(Before(env, moves, n).db, j, p.id) == Some(Approve)
  }

  /** The model asked for a review of the generated test that failed last, and the verifier
      decided this change of it. */
  ghost predicate DecidedAt(env: Env, moves: seq<Move>, n: nat, j: JobId, change: OracleChange) {
    && ToolAt(env, moves, n, j)
    && var c := CallAt(env, moves, n, j).call;
       && c.ReviewGeneratedTest? && ReviewedTest(ActorAt(env, moves, n, j).ws, c.testName) == Some(change.index)
       && moves[n].oracle.verdict == Some(OracleWrong(Some(change.stdout), Some(change.exitCode)))
  }

  /** The moves an audit comes from. */
  datatype Witness = Witness(review: nat, approvals: map<nat, nat>, changes: seq<nat>)

  ghost predicate ReviewGrounded(env: Env, moves: seq<Move>, j: JobId, audit: Audit, n: nat) {
    audit.accepted.Some? ==>
      audit.acceptedReview.Some? && ReviewedAt(env, moves, n, j, audit.accepted.value, audit.acceptedReview.value)
  }

  ghost predicate ChangesGrounded(env: Env, moves: seq<Move>, j: JobId, changes: seq<OracleChange>, review: nat, ns: seq<nat>) {
    && |ns| == |changes|
    && (forall x | 0 <= x < |ns| :: review < ns[x] && DecidedAt(env, moves, ns[x], j, changes[x]))
    && (forall x, y | 0 <= x < y < |ns| :: ns[x] < ns[y])
  }

  ghost predicate ApprovalsGrounded(env: Env, moves: seq<Move>, j: JobId, approved: map<nat, Correction>, ns: map<nat, nat>) {
    forall i | i in approved :: i in ns && ApprovedAt(env, moves, ns[i], j, i, approved[i])
  }

  /** The accepted draft comes from one reviewed move, the changes from distinct later moves in
      their order, and each approved correction from a move of its own call. */
  ghost predicate GroundedBy(env: Env, moves: seq<Move>, j: JobId, audit: Audit, w: Witness) {
    && ReviewGrounded(env, moves, j, audit, w.review)
    && ChangesGrounded(env, moves, j, audit.changes, w.review, w.changes)
    && ApprovalsGrounded(env, moves, j, audit.approved, w.approvals)
  }

  ghost predicate Grounded(env: Env, moves: seq<Move>, j: JobId, audit: Audit) {
    exists w :: GroundedBy(env, moves, j, audit, w)
  }

  lemma FreshGrounded(env: Env, moves: seq<Move>, j: JobId)
    ensures Grounded(env, moves, j, EMPTY_AUDIT)
  {
    assert GroundedBy(env, moves, j, EMPTY_AUDIT, Witness(0, map[], []));
  }

  // ---------------------------------------------------------------- longer runs

  lemma SamePast(env: Env, moves: seq<Move>, m: Move, n: nat)
    requires n < |moves|
    ensures (moves + [m])[..n] == moves[..n] && (moves + [m])[n] == moves[n]
  {
  }

  lemma SameToolAt(env: Env, moves: seq<Move>, m: Move, n: nat, j: JobId)
    requires ToolAt(env, moves, n, j)
    ensures ToolAt(env, moves + [m], n, j)
    ensures CallAt(env, moves + [m], n, j) == CallAt(env, moves, n, j)
    ensures ActorAt(env, moves + [m], n, j) == ActorAt(env, moves, n, j)
    ensures TaskAt(env, moves + [m], n, j) == TaskAt(env, moves, n, j)
    ensures ResultAt(env, moves + [m], n, j) == ResultAt(env, moves, n, j)
    ensures Before(env, moves + [m], n) == Before(env, moves, n)
  {
    SamePast(env, moves, m, n);
  }

  lemma ReviewLater(env: Env, moves: seq<Move>, m: Move, j: JobId, audit: Audit, n: nat)
    requires ReviewGrounded(env, moves, j, audit, n)
    ensures ReviewGrounded(env, moves + [m], j, audit, n)
  {
    if audit.accepted.Some? {
      SameToolAt(env, moves, m, n, j);
      SamePast(env, moves, m, n);
    }
  }

  lemma ChangesLater(env: Env, moves: seq<Move>, m: Move, j: JobId, changes: seq<OracleChange>, review: nat, ns: seq<nat>)
    requires ChangesGrounded(env, moves, j, changes, review, ns)
    ensures ChangesGrounded(env, moves + [m], j, changes, review, ns)
    ensures forall x | 0 <= x < |ns| :: ns[x] < |moves|
  {
    forall x | 0 <= x < |ns| ensures DecidedAt(env, moves + [m], ns[x], j, changes[x]) && ns[x] < |moves| {
      assert DecidedAt(env, moves, ns[x], j, changes[x]);
      SameToolAt(env, moves, m, ns[x], j);
      SamePast(env, moves, m, ns[x]);
    }
  }

  lemma ApprovalsLater(env: Env, moves: seq<Move>, m: Move, j: JobId, approved: map<nat, Correction>, ns: map<nat, nat>)
    requires ApprovalsGrounded(env, moves, j, approved, ns)
    ensures ApprovalsGrounded(env, moves + [m], j, approved, ns)
  {
    forall i | i in approved ensures i in ns && ApprovedAt(env, moves + [m], ns[i], j, i, approved[i]) {
      assert ApprovedAt(env, moves, ns[i], j, i, approved[i]);
      SameToolAt(env, moves, m, ns[i], j);
    }
  }

  lemma GroundedLater(env: Env, moves: seq<Move>, m: Move, j: JobId, audit: Audit, w: Witness)
    requires GroundedBy(env, moves, j, audit, w)
    ensures GroundedBy(env, moves + [m], j, audit, w)
  {
    ReviewLater(env, moves, m, j, audit, w.review);
    ChangesLater(env, moves, m, j, audit.changes, w.review, w.changes);
    ApprovalsLater(env, moves, m, j, audit.approved, w.approvals);
  }

  lemma GroundedStays(env: Env, moves: seq<Move>, m: Move, j: JobId, audit: Audit)
    requires Grounded(env, moves, j, audit)
    ensures Grounded(env, moves + [m], j, audit)
  {
    var w :| GroundedBy(env, moves, j, audit, w);
    GroundedLater(env, moves, m, j, audit, w);
  }

  // ---------------------------------------------------------------- what one call records

  lemma EvaluateKeepsAudit(env: Env, task: Request, ws: Workspace, audit: Audit, o: Oracle)
    ensures Evaluate(env, task, ws, audit, o).audit == audit
  {
  }

  predicate RecordsReview(env: Env, task: Request, ws: Workspace, audit: Audit, c: Call, o: Oracle, audit': Audit) {
    && c.SubmitContract? && o.review.Some? && o.review.value.decision == Accept
    && var draft := BuildDraft(env, task, ws, Contract(c.summary, c.assumptions, c.invariants), c.tests);
       draft.Some? && audit' == audit.(accepted := draft, acceptedReview := o.review, changes := [])
  }

  predicate RecordsChange(ws: Workspace, audit: Audit, c: Call, o: Oracle, audit': Audit) {
    && c.ReviewGeneratedTest? && ReviewedTest(ws, c.testName).Some?
    && o.verdict.Some? && o.verdict.value.OracleWrong? && o.verdict.value.stdout.Some? && o.verdict.value.exitCode.Some?
    && var v := o.verdict.value;
       audit' == audit.(changes := audit.changes + [OracleChange(ReviewedTest(ws, c.testName).value, v.stdout.value, v.exitCode.value)])
  }

  predicate RecordsApproval(env: Env, task: Request, audit: Audit, c: Call, o: Oracle, audit': Audit) {
    && c.RequestExampleCorrection? && ValidCorrection(env, task, c).Some? && o.answer == Some(Approve)
    && audit' == audit.(approved := audit.approved[c.exampleIndex - 1 := ValidCorrection(env, task, c).value])
  }

  /** A call records at most one fact, and only from what its oracle said. */
  predicate Records(env: Env, task: Request, ws: Workspace, audit: Audit, c: Call, o: Oracle, audit': Audit) {
    || audit' == audit
    || RecordsReview(env, task, ws, audit, c, o, audit')
    || RecordsChange(ws, audit, c, o, audit')
    || RecordsApproval(env, task, audit, c, o, audit')
  }

  lemma MutationRecords(env: Env, task: Request, ws: Workspace, audit: Audit, c: Call, o: Oracle)
    requires Mutates(c)
    ensures Records(env, task, ws, audit, c, o, ExecuteMutation(env, task, ws, audit, c, o).audit)
  {
    forall x: Workspace, a: Audit ensures Evaluate(env, task, x, a, o).audit == a { EvaluateKeepsAudit(env, task, x, a, o); }
    match c
    case SubmitContract(_, _, _, _, _) =>
    case ReviewGeneratedTest(_, _) =>
    case RequestExampleCorrection(_, _, _, _) =>
    case _ =>
  }

  lemma ExecuteRecords(env: Env, task: Request, ws: Workspace, audit: Audit, c: Call, o: Oracle)
    ensures Records(env, task, ws, audit, c, o, Execute(env, task, ws, audit, c, o).audit)
  {
    if Mutates(c) { MutationRecords(env, task, ws, audit, c, o); }
  }

  // ---------------------------------------------------------------- a run and one more tool call

  lemma NewReview(env: Env, moves: seq<Move>, m: Move, j: JobId, a: Agent, audit': Audit, w: Witness)
    requires ToolAt(env, moves + [m], |moves|, j) && ActorAt(env, moves + [m], |moves|, j) == a
    requires GroundedBy(env, moves + [m], j, a.audit, w)
    requires RecordsReview(env, TaskAt(env, moves + [m], |moves|, j), a.ws, a.audit, a.pending.value.call, m.oracle, audit')
    ensures Grounded(env, moves + [m], j, audit')
  {
    var n := |moves|;
    assert (moves + [m])[n] == m;
    assert ReviewedAt(env, moves + [m], n, j, audit'.accepted.value, audit'.acceptedReview.value);
    assert GroundedBy(env, moves + [m], j, audit', w.(review := n, changes := []));
  }

  lemma NewChange(env: Env, moves: seq<Move>, m: Move, j: JobId, a: Agent, audit': Audit, w: Witness)
    requires ToolAt(env, moves + [m], |moves|, j) && ActorAt(env, moves + [m], |moves|, j) == a
    requires GroundedBy(env, moves + [m], j, a.audit, w) && w.review < |moves|
    requires forall x | 0 <= x < |w.changes| :: w.changes[x] < |moves|
    requires RecordsChange(a.ws, a.audit, a.pending.value.call, m.oracle, audit')
    ensures Grounded(env, moves + [m], j, audit')
  {
    var n := |moves|;
    assert (moves + [m])[n] == m;
    var change := audit'.changes[|a.audit.changes|];
    assert DecidedAt(env, moves + [m], n, j, change);
    OneMoreChange(env, moves + [m], j, a.audit.changes, change, w.review, w.changes, n);
    assert GroundedBy(env, moves + [m], j, audit', w.(changes := w.changes + [n]));
  }

  lemma OneMoreChange(env: Env, moves: seq<Move>, j: JobId, changes: seq<OracleChange>, change: OracleChange, review: nat,
                      ns: seq<nat>, n: nat)
    requires ChangesGrounded(env, moves, j, changes, review, ns) && DecidedAt(env, moves, n, j, change)
    requires review < n && forall x | 0 <= x < |ns| :: ns[x] < n
    ensures ChangesGrounded(env, moves, j, changes + [change], review, ns + [n])
  {
    var all, ms := changes + [change], ns + [n];
    forall x | 0 <= x < |ms| ensures review < ms[x] && DecidedAt(env, moves, ms[x], j, all[x]) {
      if x < |ns| {
        assert ms[x] == ns[x] && all[x] == changes[x];
      } else {
        assert ms[x] == n && all[x] == change;
      }
    }
    Ascending(ns, n);
  }

  lemma Ascending(ns: seq<nat>, n: nat)
    requires (forall x, y | 0 <= x < y < |ns| :: ns[x] < ns[y]) && forall x | 0 <= x < |ns| :: ns[x] < n
    ensures forall x, y | 0 <= x < y < |ns + [n]| :: (ns + [n])[x] < (ns + [n])[y]
  {
  }

  lemma NewApproval(env: Env, moves: seq<Move>, m: Move, j: JobId, a: Agent, audit': Audit, w: Witness)
    requires ToolAt(env, moves + [m], |moves|, j) && ActorAt(env, moves + [m], |moves|, j) == a
    requires GroundedBy(env, moves + [m], j, a.audit, w)
    requires RecordsApproval(env, TaskAt(env, moves + [m], |moves|, j), a.audit, a.pending.value.call, m.oracle, audit')
    ensures Grounded(env, moves + [m], j, audit')
  {
    var n, i := |moves|, a.pending.value.call.exampleIndex - 1;
    assert (moves + [m])[n] == m;
    assert ApprovedAt(env, moves + [m], n, j, i, audit'.approved[i]);
    var ns := w.approvals[i := n];
    forall x | x in audit'.approved ensures x in ns && ApprovedAt(env, moves + [m], ns[x], j, x, audit'.approved[x]) {
      if x != i { assert ApprovedAt(env, moves + [m], w.approvals[x], j, x, a.audit.approved[x]); }
    }
    assert GroundedBy(env, moves + [m], j, audit', w.(approvals := ns));
  }

  /** The tool call that follows a run grounds the audit it leaves. */
  lemma ToolGrounds(env: Env, moves: seq<Move>, m: Move)
    requires m.UseTool? && Runs(Moves(env, IDLE, moves), m.job, m.worker, m.oracle)
    requires SysGood(env, Moves(env, IDLE, moves))
    requires Grounded(env, moves, m.job, Moves(env, IDLE, moves).procs[ProcId(m.job, m.worker)].agent.audit)
    ensures Grounded(env, moves + [m], m.job, ResultOf(env, Moves(env, IDLE, moves), m.job, m.worker, m.oracle).audit)
  {
    var s, j := Moves(env, IDLE, moves), m.job;
    var a := s.procs[ProcId(j, m.worker)].agent;
    var w :| GroundedBy(env, moves, j, a.audit, w);
    GroundedLater(env, moves, m, j, a.audit, w);
    assert (moves + [m])[..|moves|] == moves;
    var audit' := ResultOf(env, s, j, m.worker, m.oracle).audit;
    var c, task := a.pending.value.call, TaskOf(s.db, j).value;
    ExecuteRecords(env, task, a.ws, a.audit, c, m.oracle);
    if RecordsReview(env, task, a.ws, a.audit, c, m.oracle, audit') {
      NewReview(env, moves, m, j, a, audit', w);
    } else if RecordsChange(a.ws, a.audit, c, m.oracle, audit') {
      ChangesLater(env, moves, m, j, a.audit.changes, w.review, w.changes);
      assert ProcGood(s, ProcId(j, m.worker));
      NewChange(env, moves, m, j, a, audit', w);
    } else if RecordsApproval(env, task, a.audit, c, m.oracle, audit') {
      NewApproval(env, moves, m, j, a, audit', w);
    }
  }

  // ---------------------------------------------------------------- where agents come from

  /** The audit of a process after a move: its own, the saved one, none, or that of the call. */
  ghost predicate ProcOrigin(env: Env, s: Sys, m: Move, id: ProcId, audit: Audit) {
    || (id in s.procs && s.procs[id].agent.audit == audit)
    || (SavedCheckpoint(s.db, id.job).Some? && SavedCheckpoint(s.db, id.job).value.agent.audit == audit)
    || audit == EMPTY_AUDIT
    || (m.UseTool? && id == ProcId(m.job, m.worker) && Runs(s, m.job, m.worker, m.oracle)
        && ResultOf(env, s, m.job, m.worker, m.oracle).audit == audit)
  }

  lemma ProcComesFrom(env: Env, s: Sys, m: Move, id: ProcId)
    requires id in Move1(env, s, m).procs
    ensures ProcOrigin(env, s, m, id, Move1(env, s, m).procs[id].agent.audit)
  {
    if m.Take? {
      TakenComesFrom(env, s, m.job, m.worker, id);
    } else if m.UseTool? && Runs(s, m.job, m.worker, m.oracle) {
      ToolComesFrom(env, s, m.job, m.worker, m.oracle, m.slip, id);
    } else {
      OthersKeepAudit(env, s, m, id);
    }
  }

  lemma OthersKeepAudit(env: Env, s: Sys, m: Move, id: ProcId)
    requires !m.Take? && !(m.UseTool? && Runs(s, m.job, m.worker, m.oracle)) && id in Move1(env, s, m).procs
    ensures id in s.procs && Move1(env, s, m).procs[id].agent.audit == s.procs[id].agent.audit
  {
  }

  lemma TakenComesFrom(env: Env, s: Sys, j: JobId, w: WorkerId, id: ProcId)
    requires id in TakeNext(s, j, w).procs
    ensures ProcOrigin(env, s, Take(j, w), id, TakeNext(s, j, w).procs[id].agent.audit)
  {
    var r := Claim(s.db, j, w, LEASE, s.now);
    if r.Success? {
      ClaimEffect(s.db, j, w, s.now);
      TakeNextIs(s, s.(db := r.value, procs := s.procs - {ProcId(j, w)}), j, w);
      assert SavedCheckpoint(r.value, j) == SavedCheckpoint(s.db, j);
    }
  }

  lemma ToolComesFrom(env: Env, s: Sys, j: JobId, w: WorkerId, o: Oracle, slip: Slip, id: ProcId)
    requires Runs(s, j, w, o) && id in ToolNext(env, s, j, w, o, slip).procs
    ensures ProcOrigin(env, s, UseTool(j, w, o, slip), id, ToolNext(env, s, j, w, o, slip).procs[id].agent.audit)
  {
    ToolNextIs(env, s, j, w, o, slip);
    SettledProcs(Approving(s, j, w, o), j, w, TaskOf(s.db, j).value, ResultOf(env, s, j, w, o), o,
                 s.procs[ProcId(j, w)].agent.pending.value.id, slip, id);
  }

  lemma SettledProcs(s: Sys, j: JobId, w: WorkerId, task: Request, r: Outcome, o: Oracle, call: string, slip: Slip, id: ProcId)
    requires j in s.db.jobs && id in Settled(s, j, w, task, r, o, call, slip).procs
    ensures var p := Settled(s, j, w, task, r, o, call, slip).procs[id];
            (id in s.procs && p == s.procs[id]) || (id == ProcId(j, w) && p.agent.audit == r.audit)
  {
  }

  /** A checkpoint after a move is the one before, or the agent the move saved. */
  lemma CheckpointComesFrom(env: Env, s: Sys, m: Move, j: JobId)
    ensures var c := SavedCheckpoint(Move1(env, s, m).db, j);
            || c == SavedCheckpoint(s.db, j)
            || (m.Save? && m.job == j && ProcId(j, m.worker) in s.procs && c == Some(Saved(s.procs[ProcId(j, m.worker)].agent)))
  {
    MoveIsAction(env, s, m);
    var a := ActionOf(env, s, m);
    if a.Some? && Attempt(s.db, s.now, a.value).Success? && !a.value.DoSaveCheckpoint? {
      CheckpointKept(s.db, s.now, a.value, j);
    }
  }

  /** Version k was published by the tool call of move n, and e is its evidence. */
  ghost predicate PublishedAt(env: Env, moves: seq<Move>, n: nat, k: VersionKey, e: Evidence) {
    && n < |moves| && moves[n].UseTool?
    && var j := moves[n].job;
       && ToolAt(env, moves, n, j) && Before(env, moves, n).db.jobs[j].version == k
       && var r := ResultAt(env, moves, n, j);
          && r.execution.Published? && r.audit.accepted.Some? && r.audit.acceptedReview.Some?
          && e == EvidenceOf(TaskAt(env, moves, n, j), r, moves[n].oracle)
          && Grounded(env, moves[..n + 1], j, r.audit)
  }

  ghost predicate IssuedIn(db: Db, k: VersionKey) {
    k in db.versions && Issued(db.versions[k].status)
  }

  /** The move is a tool call that publishes version k. */
  ghost predicate Publishes(env: Env, s: Sys, m: Move, k: VersionKey) {
    && m.UseTool? && Runs(s, m.job, m.worker, m.oracle) && s.db.jobs[m.job].version == k
    && ResultOf(env, s, m.job, m.worker, m.oracle).execution.Published?
  }

  /** A version that is ready or revoked after a move was so before, or the move published it. */
  lemma IssueComesFrom(env: Env, s: Sys, m: Move, k: VersionKey)
    requires SysGood(env, s) && IssuedIn(Move1(env, s, m).db, k)
    ensures IssuedIn(s.db, k) || Publishes(env, s, m, k)
  {
    MoveIsAction(env, s, m);
    var a := ActionOf(env, s, m);
    if a.Some? && Attempt(s.db, s.now, a.value).Success? {
      IssuedByPublication(s.db, s.now, a.value, k);
      if a.value.DoPublish? { PublishingMove(env, s, m, a.value); }
    }
  }

  lemma IssuedByPublication(db: Db, now: Time, a: Action, k: VersionKey)
    requires Coherence.Coherent(db) && Attempt(db, now, a).Success? && IssuedIn(Attempt(db, now, a).value, k)
    ensures IssuedIn(db, k) || (a.DoPublish? && a.job in db.jobs && db.jobs[a.job].version == k)
  {
    if a.DoPublish? {
      PublishedVersionStep(db, a.job, a.worker, a.artifact, now, k);
    } else {
      VersionKept(db, now, a, k);
    }
  }

  lemma PublishingMove(env: Env, s: Sys, m: Move, a: Action)
    requires ActionOf(env, s, m) == Some(a) && a.DoPublish?
    ensures m.UseTool? && m.job == a.job && Runs(s, m.job, m.worker, m.oracle)
    ensures ResultOf(env, s, m.job, m.worker, m.oracle).execution.Published?
  {
  }

  /** Only a publishing tool call writes evidence, and only that of its own version. */
  lemma EvidenceComesFrom(env: Env, s: Sys, m: Move, k: VersionKey)
    requires SysGood(env, s)
    ensures Publishes(env, s, m, k) ==>
              var s', r := Move1(env, s, m), ResultOf(env, s, m.job, m.worker, m.oracle);
              && r.audit.accepted.Some? && r.audit.acceptedReview.Some?
              && k in s'.evidence && s'.evidence[k] == EvidenceOf(TaskOf(s.db, m.job).value, r, m.oracle)
    ensures !Publishes(env, s, m, k) && k in s.evidence ==>
              var s' := Move1(env, s, m); k in s'.evidence && s'.evidence[k] == s.evidence[k]
  {
    if m.UseTool? && Runs(s, m.job, m.worker, m.oracle) { ToolEvidence(env, s, m, k); } else { OthersKeepEvidence(env, s, m); }
  }

  lemma OthersKeepEvidence(env: Env, s: Sys, m: Move)
    requires !(m.UseTool? && Runs(s, m.job, m.worker, m.oracle))
    ensures Move1(env, s, m).evidence == s.evidence
  {
  }

  lemma ToolEvidence(env: Env, s: Sys, m: Move, k: VersionKey)
    requires SysGood(env, s) && m.UseTool? && Runs(s, m.job, m.worker, m.oracle)
    ensures var s', r := Move1(env, s, m), ResultOf(env, s, m.job, m.worker, m.oracle);
            && (r.execution.Published? ==> r.audit.accepted.Some? && r.audit.acceptedReview.Some?)
            && s'.evidence == if r.execution.Published?
                              then s.evidence[s.db.jobs[m.job].version := EvidenceOf(TaskOf(s.db, m.job).value, r, m.oracle)]
                              else s.evidence
  {
    ResultGood(env, s, m.job, m.worker, m.oracle);
    ToolNextIs(env, s, m.job, m.worker, m.oracle, m.slip);
    SettledEvidence(Approving(s, m.job, m.worker, m.oracle), m.job, m.worker, TaskOf(s.db, m.job).value,
                    ResultOf(env, s, m.job, m.worker, m.oracle), m.oracle, s.procs[ProcId(m.job, m.worker)].agent.pending.value.id,
                    m.slip, k);
  }

  lemma SettledEvidence(s: Sys, j: JobId, w: WorkerId, task: Request, r: Outcome, o: Oracle, call: string, slip: Slip, k: VersionKey)
    requires j in s.db.jobs
    requires r.execution.Published? ==> r.audit.accepted.Some? && r.audit.acceptedReview.Some?
    ensures var s' := Settled(s, j, w, task, r, o, call, slip);
            s'.evidence == if r.execution.Published? then s.evidence[s.db.jobs[j].version := EvidenceOf(task, r, o)] else s.evidence
  {
  }

  // ---------------------------------------------------------------- every run

  ghost predicate ProcGrounded(env: Env, moves: seq<Move>, id: ProcId) {
    var s := Moves(env, IDLE, moves);
    id in s.procs ==> Grounded(env, moves, id.job, s.procs[id].agent.audit)
  }

  ghost predicate CheckpointGrounded(env: Env, moves: seq<Move>, j: JobId) {
    var c := SavedCheckpoint(Moves(env, IDLE, moves).db, j);
    c.Some? ==> Grounded(env, moves, j, c.value.agent.audit)
  }

  ghost predicate VersionGrounded(env: Env, moves: seq<Move>, k: VersionKey) {
    var s := Moves(env, IDLE, moves);
    IssuedIn(s.db, k) ==> k in s.evidence && exists n: nat :: PublishedAt(env, moves, n, k, s.evidence[k])
  }

  ghost predicate LineageOk(env: Env, moves: seq<Move>) {
    && (forall id :: ProcGrounded(env, moves, id))
    && (forall j :: CheckpointGrounded(env, moves, j))
    && (forall k :: VersionGrounded(env, moves, k))
  }

  lemma MovesExtend(env: Env, moves: seq<Move>, m: Move)
    ensures Moves(env, IDLE, moves + [m]) == Move1(env, Moves(env, IDLE, moves), m)
  {
    assert (moves + [m])[..|moves|] == moves;
  }

  lemma ProcStaysGrounded(env: Env, moves: seq<Move>, m: Move, id: ProcId)
    requires LineageOk(env, moves) && SysGood(env, Moves(env, IDLE, moves))
    ensures ProcGrounded(env, moves + [m], id)
  {
    var s := Moves(env, IDLE, moves);
    var s' := Move1(env, s, m);
    MovesExtend(env, moves, m);
    if id in s'.procs {
      var audit := s'.procs[id].agent.audit;
      ProcComesFrom(env, s, m, id);
      assert ProcGrounded(env, moves, id) && CheckpointGrounded(env, moves, id.job);
      if audit == EMPTY_AUDIT {
        FreshGrounded(env, moves + [m], id.job);
      } else if Grounded(env, moves, id.job, audit) {
        GroundedStays(env, moves, m, id.job, audit);
      } else {
        assert ProcGrounded(env, moves, ProcId(m.job, m.worker));
        ToolGrounds(env, moves, m);
      }
    }
  }

  lemma CheckpointStaysGrounded(env: Env, moves: seq<Move>, m: Move, j: JobId)
    requires LineageOk(env, moves)
    ensures CheckpointGrounded(env, moves + [m], j)
  {
    var s := Moves(env, IDLE, moves);
    MovesExtend(env, moves, m);
    var c := SavedCheckpoint(Move1(env, s, m).db, j);
    CheckpointComesFrom(env, s, m, j);
    if c.Some? {
      assert CheckpointGrounded(env, moves, j);
      if m.Save? { assert ProcGrounded(env, moves, ProcId(m.job, m.worker)); }
      GroundedStays(env, moves, m, j, c.value.agent.audit);
    }
  }

  lemma PublishedLater(env: Env, moves: seq<Move>, m: Move, n: nat, k: VersionKey, e: Evidence)
    requires PublishedAt(env, moves, n, k, e)
    ensures PublishedAt(env, moves + [m], n, k, e)
  {
    SamePast(env, moves, m, n);
    SameToolAt(env, moves, m, n, moves[n].job);
    assert (moves + [m])[..n + 1] == moves[..n + 1];
  }

  lemma VersionStaysGrounded(env: Env, moves: seq<Move>, m: Move, k: VersionKey)
    requires LineageOk(env, moves) && SysGood(env, Moves(env, IDLE, moves))
    ensures VersionGrounded(env, moves + [m], k)
  {
    var s := Moves(env, IDLE, moves);
    var s' := Move1(env, s, m);
    MovesExtend(env, moves, m);
    if IssuedIn(s'.db, k) {
      IssueComesFrom(env, s, m, k);
      EvidenceComesFrom(env, s, m, k);
      if Publishes(env, s, m, k) {
        NewPublication(env, moves, m, k);
      } else {
        assert VersionGrounded(env, moves, k);
        var n: nat :| PublishedAt(env, moves, n, k, s.evidence[k]);
        PublishedLater(env, moves, m, n, k, s.evidence[k]);
      }
    }
  }

  /** The last move of a run, seen from the run before it. */
  lemma LastTool(env: Env, moves: seq<Move>, m: Move)
    requires m.UseTool? && Runs(Moves(env, IDLE, moves), m.job, m.worker, m.oracle)
    ensures var n, s := |moves|, Moves(env, IDLE, moves);
            && ToolAt(env, moves + [m], n, m.job) && Before(env, moves + [m], n) == s
            && TaskAt(env, moves + [m], n, m.job) == TaskOf(s.db, m.job).value
            && ResultAt(env, moves + [m], n, m.job) == ResultOf(env, s, m.job, m.worker, m.oracle)
            && (moves + [m])[n] == m && (moves + [m])[..n + 1] == moves + [m]
  {
    assert (moves + [m])[..|moves|] == moves;
  }

  lemma NewPublication(env: Env, moves: seq<Move>, m: Move, k: VersionKey)
    requires LineageOk(env, moves) && SysGood(env, Moves(env, IDLE, moves)) && Publishes(env, Moves(env, IDLE, moves), m, k)
    ensures var s' := Move1(env, Moves(env, IDLE, moves), m);
            k in s'.evidence && PublishedAt(env, moves + [m], |moves|, k, s'.evidence[k])
  {
    EvidenceComesFrom(env, Moves(env, IDLE, moves), m, k);
    assert ProcGrounded(env, moves, ProcId(m.job, m.worker));
    ToolGrounds(env, moves, m);
    LastTool(env, moves, m);
  }

  lemma {:induction false} LineageHolds(env: Env, moves: seq<Move>)
    ensures LineageOk(env, moves)
  {
    if moves == [] {
    } else {
      var front, m := moves[..|moves| - 1], moves[|moves| - 1];
      LineageHolds(env, front);
      MovesGood(env, front);
      assert moves == front + [m];
      forall id ensures ProcGrounded(env, moves, id) { ProcStaysGrounded(env, front, m, id); }
      forall j ensures CheckpointGrounded(env, moves, j) { CheckpointStaysGrounded(env, front, m, j); }
      forall k ensures VersionGrounded(env, moves, k) { VersionStaysGrounded(env, front, m, k); }
    }
  }

  // ---------------------------------------------------------------- answers stay, and come from the user

  lemma {:induction false} InputStaysSince(env: Env, moves: seq<Move>, n: nat, key: InputKey)
    requires n <= |moves|
    ensures InputStays(Before(env, moves, n).db, Moves(env, IDLE, moves).db, key)
  {
    if n == |moves| {
      assert moves[..n] == moves;
    } else {
      var front, m := moves[..|moves| - 1], moves[|moves| - 1];
      assert front[..n] == moves[..n];
      InputStaysSince(env, front, n, key);
      var s := Moves(env, IDLE, front);
      MovesGood(env, front);
      MoveIsAction(env, s, m);
      var a := ActionOf(env, s, m);
      if a.Some? && Attempt(s.db, s.now, a.value).Success? { InputStaysAfter(s.db, s.now, a.value, key); }
    }
  }

  /** Move n is the user's answer to the question job j waited for under this call id. */
  ghost predicate AnsweredAt(env: Env, moves: seq<Move>, n: nat, j: JobId, call: string, answer: Answer) {
    && n < |moves| && moves[n].Other? && moves[n].action.DoAnswer? && moves[n].action.job == j && moves[n].action.answer == answer
    && var db := Before(env, moves, n).db;
       && j in db.pendingCall && db.pendingCall[j] == call && IsPending(db, j, moves[n].action.id)
  }

  lemma ApprovalComesFrom(db: Db, now: Time, a: Action, j: JobId, call: string)
    requires Coherence.Coherent(db) && Attempt(db, now, a).Success?
    requires AnsweredInput(Attempt(db, now, a).value, j, call) == Some(Approve) != AnsweredInput(db, j, call)
    ensures a.DoAnswer? && a.job == j && a.answer == Approve && j in db.pendingCall && db.pendingCall[j] == call && IsPending(db, j, a.id)
  {
    match a
    case DoSuspend(i, w, input) => SuspendEffect(db, i, w, input, now);
    case DoAnswer(i, id, answer, bytes) =>
      AnswerEffect(db, i, id, answer, bytes, now);
      ClosedAnswer(db, i, answer, j, call);
    case DoCancel(i, reason, bytes) =>
      CancelEffect(db, i, reason, bytes, now);
      ClosedAnswer(db, i, Cancellation(reason), j, call);
    case _ => OthersKeepInputs(db, now, a);
  }

  lemma ClosedAnswer(db: Db, i: JobId, answer: Answer, j: JobId, call: string)
    ensures AnsweredInput(CloseInput(db, i, answer), j, call) == AnsweredInput(db, j, call) ||
            (i == j && j in db.pendingCall && db.pendingCall[j] == call &&
             AnsweredInput(CloseInput(db, i, answer), j, call) == Some(answer))
  {
  }

  /** An approval that the registry holds is the answer of a user to the question that was
      pending under that call id. */
  lemma {:induction false} ApprovalIsTheUsers(env: Env, moves: seq<Move>, j: JobId, call: string)
    requires AnsweredInput(Moves(env, IDLE, moves).db, j, call) == Some(Approve)
    ensures exists n: nat :: AnsweredAt(env, moves, n, j, call, Approve)
  {
    if moves != [] {
      var front, m := moves[..|moves| - 1], moves[|moves| - 1];
      assert moves == front + [m];
      if AnsweredInput(Moves(env, IDLE, front).db, j, call) == Some(Approve) {
        ApprovalIsTheUsers(env, front, j, call);
        var n: nat :| AnsweredAt(env, front, n, j, call, Approve);
        SamePast(env, front, m, n);
        assert AnsweredAt(env, moves, n, j, call, Approve);
      } else {
        ApprovalByMove(env, front, m, j, call);
      }
    }
  }

  lemma ApprovalByMove(env: Env, front: seq<Move>, m: Move, j: JobId, call: string)
    requires AnsweredInput(Moves(env, IDLE, front + [m]).db, j, call) == Some(Approve)
    requires AnsweredInput(Moves(env, IDLE, front).db, j, call) != Some(Approve)
    ensures AnsweredAt(env, front + [m], |front|, j, call, Approve)
  {
    var s := Moves(env, IDLE, front);
    MovesExtend(env, front, m);
    MovesGood(env, front);
    MoveIsAction(env, s, m);
    ApprovalComesFrom(s.db, s.now, ActionOf(env, s, m).value, j, call);
    assert (front + [m])[..|front|] == front && (front + [m])[|front|] == m;
  }

  // ---------------------------------------------------------------- the theorem

  /** The tool call of move n published version k.  Its evidence e is made of the results of its
      own oracle, of the draft and review of an earlier contract call, of verdicts of later
      review calls, and of corrections whose questions, each under the id of its own call, a
      user approved; e supports the bundle, and the tables still carry that bundle. */
  ghost predicate PublishedFrom(env: Env, moves: seq<Move>, n: nat, k: VersionKey, e: Evidence, w: Witness) {
    && PublishedAt(env, moves, n, k, e)
    && Supports(env, e) && Backs(Moves(env, IDLE, moves).db, k, e)
    && var j := moves[n].job; var past := moves[..n + 1];
       && ReviewedAt(env, past, w.review, j, e.accepted, e.review)
       && ChangesGrounded(env, past, j, e.changes, w.review, w.changes)
       && UsersApproved(env, moves, past, j, e.approved, w.approvals)
  }

  /** Each correction comes from a call of its own, whose approval a user gave. */
  ghost predicate UsersApproved(env: Env, moves: seq<Move>, past: seq<Move>, j: JobId, approved: map<nat, Correction>, ns: map<nat, nat>) {
    && ApprovalsGrounded(env, past, j, approved, ns)
    && forall i | i in approved :: ApprovedByUser(env, moves, past, ns[i], j)
  }

  /** The approval that move n acted on is still in the tables, and a user gave it. */
  ghost predicate ApprovedByUser(env: Env, moves: seq<Move>, past: seq<Move>, n: nat, j: JobId) {
    && ToolAt(env, past, n, j)
    && var call := CallAt(env, past, n, j).id;
       && AnsweredInput(Moves(env, IDLE, moves).db, j, call) == Some(Approve)
       && exists u: nat :: AnsweredAt(env, moves, u, j, call, Approve)
  }

  lemma ApprovalOfUser(env: Env, moves: seq<Move>, past: seq<Move>, n: nat, j: JobId, i: nat, correction: Correction)
    requires past <= moves && ApprovedAt(env, past, n, j, i, correction)
    ensures ApprovedByUser(env, moves, past, n, j)
  {
    var call := CallAt(env, past, n, j).id;
    assert past[..n] == moves[..n];
    InputStaysSince(env, moves, n, InputKey(j, call));
    ApprovalIsTheUsers(env, moves, j, call);
  }

  /** In every run, whatever models, reviewers, verifiers, sandboxes, users and crashes do, a
      version that is ready or revoked was published by a tool call of the run, on evidence that
      the run itself produced. */
  lemma PublishedRestsOnEvidence(env: Env, moves: seq<Move>, k: VersionKey)
    requires IssuedIn(Moves(env, IDLE, moves).db, k)
    ensures k in Moves(env, IDLE, moves).evidence
    ensures exists n: nat, w :: PublishedFrom(env, moves, n, k, Moves(env, IDLE, moves).evidence[k], w)
  {
    var s := Moves(env, IDLE, moves);
    MovesGood(env, moves);
    LineageHolds(env, moves);
    assert VersionGrounded(env, moves, k) && Proven(env, s, k);
    var e := s.evidence[k];
    var n: nat :| PublishedAt(env, moves, n, k, e);
    EvidenceBacks(env, s, k);
    PublishedByMove(env, moves, n, k, e);
  }

  lemma PublishedByMove(env: Env, moves: seq<Move>, n: nat, k: VersionKey, e: Evidence)
    requires PublishedAt(env, moves, n, k, e) && Supports(env, e) && Backs(Moves(env, IDLE, moves).db, k, e)
    ensures exists w :: PublishedFrom(env, moves, n, k, e, w)
  {
    var j, past := moves[n].job, moves[..n + 1];
    var audit := ResultAt(env, moves, n, j).audit;
    var w :| GroundedBy(env, past, j, audit, w);
    assert e.accepted == audit.accepted.value && e.review == audit.acceptedReview.value;
    assert e.changes == audit.changes && e.approved == audit.approved;
    forall i | i in e.approved ensures ApprovedByUser(env, moves, past, w.approvals[i], j) {
      assert ApprovedAt(env, past, w.approvals[i], j, i, e.approved[i]);
      ApprovalOfUser(env, moves, past, w.approvals[i], j, i, e.approved[i]);
    }
    assert PublishedFrom(env, moves, n, k, e, w);
  }

  /** In every run, the artifact of a version that is ready or revoked is recorded, and the gate
      before its execution is open exactly when every capability it was granted is active. */
  lemma VersionGate(env: Env, moves: seq<Move>, k: VersionKey)
    requires IssuedIn(Moves(env, IDLE, moves).db, k)
    ensures var db := Moves(env, IDLE, moves).db; var digest := db.versions[k].digest;
            && digest.Some? && digest.value in db.artifacts
            && var manifest := db.artifacts[digest.value];
               Approvals.GateOpen(db, manifest) <==>
                 forall i | 0 <= i < |manifest.grants| :: ActiveCapability(db, manifest.grants[i].approvalHash)
  {
    var s := Moves(env, IDLE, moves);
    MovesGood(env, moves);
    EvidenceBacks(env, s, k);
    SupportedGate(env, s.evidence[k], s.db);
  }
}
