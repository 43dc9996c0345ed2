/** Which call put a question to the user, and when an answer is used for what the user was asked
    about: with unique call ids always, and otherwise exactly when the call that asked and the
    call that reads the answer have the same subject. */
module CallIds {
  import opened Wrappers
  import opened ArtifactTypes
  import opened AgentTypes
  import opened Schema
  import opened Transactions
  import opened Effects
  import opened Questions
  import opened ToolCalls
  import opened PlanIntegrity
  import opened PublicationGate
  import opened Processes
  import opened Provenance
  import opened Lineage
  import Outcomes

  /** The kind and the subject of the question a call puts to the user. */
  function Subject(env: Env, task: Request, c: Call): Option<(InputKind, Context)> {
    match c
    case RequestClarification(key, _, _) => Some((Clarification, AboutDecision(key)))
    case RequestHttpCapability(capability, _) =>
      if capability.None? then None
      else Some((SourceApproval, AboutSource(HashCapability(capability.value), capability.value)))
    case RequestExampleCorrection(_, _, _, _) =>
      var correction := ValidCorrection(env, task, c);
      if correction.None? then None else Some((ExampleCorrection, AboutExample(correction.value)))
    case _ => None
  }

  function KindOfCall(c: Call): InputKind {
    if c.RequestClarification? then Clarification
    else if c.RequestHttpCapability? then SourceApproval
    else ExampleCorrection
  }

  lemma MutationAsks(env: Env, task: Request, ws: Workspace, audit: Audit, c: Call, o: Oracle)
    requires Mutates(c)
    ensures var x := ExecuteMutation(env, task, ws, audit, c, o).execution;
            x.Suspended? ==> Subject(env, task, c) == Some((x.kind, x.context)) && x.kind == KindOfCall(c)
  {
    forall w: Workspace, a: Audit ensures !Evaluate(env, task, w, a, o).execution.Suspended? {
      EvaluateNeverAsks(env, task, w, a, o);
    }
  }

  lemma EvaluateNeverAsks(env: Env, task: Request, ws: Workspace, audit: Audit, o: Oracle)
    ensures !Evaluate(env, task, ws, audit, o).execution.Suspended?
  {
  }

  /** A call suspends only to ask its own question. */
  lemma AsksItsSubject(env: Env, task: Request, ws: Workspace, audit: Audit, c: Call, o: Oracle)
    ensures var x := Execute(env, task, ws, audit, c, o).execution;
            x.Suspended? ==> Subject(env, task, c) == Some((x.kind, x.context)) && x.kind == KindOfCall(c)
  {
    if Mutates(c) { MutationAsks(env, task, ws, audit, c, o); }
  }

  // ---------------------------------------------------------------- the discipline

  /** Under one id of a job the model makes one call. */
  predicate UniqueIds(moves: seq<Move>, callOf: InputKey -> Call) {
    forall n | 0 <= n < |moves| && moves[n].Turn? ::
      moves[n].pending.call == callOf(InputKey(moves[n].job, moves[n].pending.id))
  }

  predicate PendingOk(callOf: InputKey -> Call, j: JobId, a: Agent) {
    a.pending.Some? ==> a.pending.value.call == callOf(InputKey(j, a.pending.value.id))
  }

  predicate ProcPendingOk(callOf: InputKey -> Call, s: Sys, id: ProcId) {
    id in s.procs ==> PendingOk(callOf, id.job, s.procs[id].agent)
  }

  predicate SavedPendingOk(callOf: InputKey -> Call, db: Db, j: JobId) {
    SavedCheckpoint(db, j).Some? ==> PendingOk(callOf, j, SavedCheckpoint(db, j).value.agent)
  }

  /** A stored question is the one its call asks. */
  predicate AskedAs(env: Env, callOf: InputKey -> Call, db: Db, k: InputKey) {
    k in db.inputs ==>
      TaskOf(db, k.job).Some? &&
      Subject(env, TaskOf(db, k.job).value, callOf(k)) == Some((db.inputs[k].kind, db.inputs[k].context))
  }

  /** Its kind and its answer's are those of the call. */
  predicate KindAs(callOf: InputKey -> Call, db: Db, k: InputKey) {
    KindOk(db, k' => KindOfCall(callOf(k')), k)
  }

  ghost predicate IdsOk(env: Env, callOf: InputKey -> Call, s: Sys) {
    && (forall id :: ProcPendingOk(callOf, s, id))
    && (forall j :: SavedPendingOk(callOf, s.db, j))
    && (forall k :: AskedAs(env, callOf, s.db, k))
    && (forall k :: KindAs(callOf, s.db, k))
  }

  lemma ProcPendingStays(env: Env, callOf: InputKey -> Call, s: Sys, m: Move, id: ProcId)
    requires IdsOk(env, callOf, s)
    requires m.Turn? ==> m.pending.call == callOf(InputKey(m.job, m.pending.id))
    ensures ProcPendingOk(callOf, Move1(env, s, m), id)
  {
    assert ProcPendingOk(callOf, s, id) && SavedPendingOk(callOf, s.db, id.job);
    if m.Take? {
      TakenPending(callOf, s, m.job, m.worker, id);
    } else if m.UseTool? {
      ToolPending(env, callOf, s, m.job, m.worker, m.oracle, m.slip, id);
    } else {
      OthersKeepPending(env, callOf, s, m, id);
    }
  }

  lemma OthersKeepPending(env: Env, callOf: InputKey -> Call, s: Sys, m: Move, id: ProcId)
    requires ProcPendingOk(callOf, s, id) && !m.Take? && !m.UseTool?
    requires m.Turn? ==> m.pending.call == callOf(InputKey(m.job, m.pending.id))
    ensures ProcPendingOk(callOf, Move1(env, s, m), id)
  {
  }

  lemma TakenPending(callOf: InputKey -> Call, s: Sys, j: JobId, w: WorkerId, id: ProcId)
    requires ProcPendingOk(callOf, s, id) && SavedPendingOk(callOf, s.db, id.job)
    ensures ProcPendingOk(callOf, TakeNext(s, j, w), id)
  {
    var r := Claim(s.db, j, w, LEASE, s.now);
    if r.Success? {
      ClaimEffect(s.db, j, w, s.now);
      TakeNextIs(s, s.(db := r.value, procs := s.procs - {ProcId(j, w)}), j, w);
      assert SavedCheckpoint(r.value, j) == SavedCheckpoint(s.db, j);
    }
  }

  lemma ToolPending(env: Env, callOf: InputKey -> Call, s: Sys, j: JobId, w: WorkerId, o: Oracle, slip: Slip, id: ProcId)
    requires ProcPendingOk(callOf, s, id)
    ensures ProcPendingOk(callOf, ToolNext(env, s, j, w, o, slip), id)
  {
    if Runs(s, j, w, o) {
      ToolNextIs(env, s, j, w, o, slip);
      SettledPending(callOf, Approving(s, j, w, o), j, w, TaskOf(s.db, j).value, ResultOf(env, s, j, w, o), o,
                     s.procs[ProcId(j, w)].agent.pending.value.id, slip, id);
    }
  }

  lemma SettledPending(callOf: InputKey -> Call, s: Sys, j: JobId, w: WorkerId, task: Request, r: Outcome, o: Oracle,
                       call: string, slip: Slip, id: ProcId)
    requires j in s.db.jobs && ProcPendingOk(callOf, s, id)
    ensures ProcPendingOk(callOf, Settled(s, j, w, task, r, o, call, slip), id)
  {
  }

  lemma SavedPendingStays(env: Env, callOf: InputKey -> Call, s: Sys, m: Move, j: JobId)
    requires IdsOk(env, callOf, s)
    ensures SavedPendingOk(callOf, Move1(env, s, m).db, j)
  {
    CheckpointComesFrom(env, s, m, j);
    assert SavedPendingOk(callOf, s.db, j);
    if m.Save? { assert ProcPendingOk(callOf, s, ProcId(m.job, m.worker)); }
  }

  /** The question a move stores is asked by the pending call. */
  lemma SuspensionAsks(env: Env, callOf: InputKey -> Call, s: Sys, m: Move, a: Action)
    requires IdsOk(env, callOf, s) && ActionOf(env, s, m) == Some(a) && a.DoSuspend?
    ensures var k := InputKey(a.job, a.input.call);
            && TaskOf(s.db, a.job).Some?
            && Subject(env, TaskOf(s.db, a.job).value, callOf(k)) == Some((a.input.kind, a.input.context))
            && a.input.kind == KindOfCall(callOf(k))
  {
    SuspendingMove(env, s, m, a);
    assert ProcPendingOk(callOf, s, ProcId(m.job, m.worker));
  }

  lemma AskedStays(env: Env, callOf: InputKey -> Call, s: Sys, m: Move, k: InputKey)
    requires SysGood(env, s) && IdsOk(env, callOf, s)
    ensures AskedAs(env, callOf, Move1(env, s, m).db, k)
    ensures KindAs(callOf, Move1(env, s, m).db, k)
  {
    MoveIsAction(env, s, m);
    assert AskedAs(env, callOf, s.db, k) && KindAs(callOf, s.db, k);
    var a := ActionOf(env, s, m);
    if a.Some? && Attempt(s.db, s.now, a.value).Success? {
      if a.value.DoSuspend? { SuspensionAsks(env, callOf, s, m, a.value); }
      KindKept(s.db, k' => KindOfCall(callOf(k')), s.now, a.value, k);
      AskedAfter(env, callOf, s.db, s.now, a.value, k);
    }
  }

  lemma AskedAfter(env: Env, callOf: InputKey -> Call, db: Db, now: Time, a: Action, k: InputKey)
    requires Coherence.Coherent(db) && Attempt(db, now, a).Success? && AskedAs(env, callOf, db, k)
    requires a.DoSuspend? ==>
               TaskOf(db, a.job).Some? && Subject(env, TaskOf(db, a.job).value, callOf(InputKey(a.job, a.input.call))) ==
                                          Some((a.input.kind, a.input.context))
    ensures AskedAs(env, callOf, Attempt(db, now, a).value, k)
  {
    if TaskOf(db, k.job).Some? { TaskKept(db, now, a, k.job); }
    if k in db.inputs {
      InputStaysAfter(db, now, a, k);
    } else if k in Attempt(db, now, a).value.inputs {
      NewInputIsSuspended(db, now, a, k);
    }
  }

  lemma NewInputIsSuspended(db: Db, now: Time, a: Action, k: InputKey)
    requires Coherence.Coherent(db) && Attempt(db, now, a).Success? && k !in db.inputs && k in Attempt(db, now, a).value.inputs
    ensures a.DoSuspend? && k == InputKey(a.job, a.input.call)
    ensures var d := Attempt(db, now, a).value; d.inputs[k].kind == a.input.kind && d.inputs[k].context == a.input.context
  {
    match a
    case DoSuspend(j, w, input) => SuspendEffect(db, j, w, input, now);
    case DoAnswer(j, id, answer, bytes) => AnswerEffect(db, j, id, answer, bytes, now);
    case DoCancel(j, reason, bytes) => CancelEffect(db, j, reason, bytes, now);
    case _ => OthersKeepInputs(db, now, a);
  }

  // ---------------------------------------------------------------- every run

  lemma {:induction false} IdsHold(env: Env, callOf: InputKey -> Call, moves: seq<Move>)
    requires UniqueIds(moves, callOf)
    ensures IdsOk(env, callOf, Moves(env, IDLE, moves))
  {
    if moves != [] {
      var front, m := moves[..|moves| - 1], moves[|moves| - 1];
      assert forall n | 0 <= n < |front| :: front[n] == moves[n];
      IdsHold(env, callOf, front);
      MovesGood(env, front);
      assert moves == front + [m];
      MovesExtend(env, front, m);
      IdsStay(env, callOf, Moves(env, IDLE, front), m);
    }
  }

  lemma IdsStay(env: Env, callOf: InputKey -> Call, s: Sys, m: Move)
    requires SysGood(env, s) && IdsOk(env, callOf, s)
    requires m.Turn? ==> m.pending.call == callOf(InputKey(m.job, m.pending.id))
    ensures IdsOk(env, callOf, Move1(env, s, m))
  {
    var s' := Move1(env, s, m);
    forall id ensures ProcPendingOk(callOf, s', id) { ProcPendingStays(env, callOf, s, m, id); }
    forall j ensures SavedPendingOk(callOf, s'.db, j) { SavedPendingStays(env, callOf, s, m, j); }
    forall k ensures AskedAs(env, callOf, s'.db, k) && KindAs(callOf, s'.db, k) { AskedStays(env, callOf, s, m, k); }
  }

  /** With unique call ids, the question whose approval a correction rests on was about that
      very correction. */
  lemma ApprovedAsAsked(env: Env, callOf: InputKey -> Call, moves: seq<Move>, n: nat, j: JobId, i: nat, correction: Correction)
    requires UniqueIds(moves, callOf) && ApprovedAt(env, moves, n, j, i, correction)
    ensures var db, k := Before(env, moves, n).db, InputKey(j, CallAt(env, moves, n, j).id);
            && k in db.inputs && db.inputs[k].kind == ExampleCorrection
            && db.inputs[k].context == AboutExample(correction)
  {
    IdsHold(env, callOf, moves[..n]);
    var s, k := Before(env, moves, n), InputKey(j, CallAt(env, moves, n, j).id);
    assert ProcPendingOk(callOf, s, ProcId(j, moves[n].worker)) && AskedAs(env, callOf, s.db, k);
  }

  /** So, with unique call ids, for every correction behind a published version the registry
      holds a question about that very correction, which a user approved. */
  lemma PublishedCorrectionsWereAsked(env: Env, callOf: InputKey -> Call, moves: seq<Move>, n: nat, k: VersionKey, e: Evidence,
                                      w: Witness, i: nat)
    requires UniqueIds(moves, callOf) && PublishedFrom(env, moves, n, k, e, w) && i in e.approved
    ensures exists call :: AskedAndApproved(Moves(env, IDLE, moves).db, InputKey(moves[n].job, call), e.approved[i])
  {
    PublishedApprovals(env, moves, n, k, e, w);
    ApprovedCorrectionWasAsked(env, callOf, moves, moves[..n + 1], moves[n].job, e.approved, w.approvals, i);
  }

  lemma PublishedApprovals(env: Env, moves: seq<Move>, n: nat, k: VersionKey, e: Evidence, w: Witness)
    requires PublishedFrom(env, moves, n, k, e, w)
    ensures n < |moves| && UsersApproved(env, moves, moves[..n + 1], moves[n].job, e.approved, w.approvals)
  {
  }

  lemma ApprovedCorrectionWasAsked(env: Env, callOf: InputKey -> Call, moves: seq<Move>, past: seq<Move>, j: JobId,
                                   approved: map<nat, Correction>, ns: map<nat, nat>, i: nat)
    requires UniqueIds(moves, callOf) && past <= moves && UsersApproved(env, moves, past, j, approved, ns) && i in approved
    ensures exists call :: AskedAndApproved(Moves(env, IDLE, moves).db, InputKey(j, call), approved[i])
  {
    assert ApprovedAt(env, past, ns[i], j, i, approved[i]);
    CorrectionWasAsked(env, callOf, moves, past, ns[i], j, i, approved[i]);
  }

  lemma CorrectionWasAsked(env: Env, callOf: InputKey -> Call, moves: seq<Move>, past: seq<Move>, n: nat, j: JobId, i: nat,
                           correction: Correction)
    requires UniqueIds(moves, callOf) && past <= moves && ApprovedAt(env, past, n, j, i, correction)
    requires ApprovedByUser(env, moves, past, n, j)
    ensures exists call :: AskedAndApproved(Moves(env, IDLE, moves).db, InputKey(j, call), correction)
  {
    var call := CallAt(env, past, n, j).id;
    EarlierIds(moves, past, callOf);
    ApprovedAsAsked(env, callOf, past, n, j, i, correction);
    assert past[..n] == moves[..n];
    InputStaysSince(env, moves, n, InputKey(j, call));
    StillAsked(Before(env, past, n).db, Moves(env, IDLE, moves).db, InputKey(j, call), correction);
  }

  lemma EarlierIds(moves: seq<Move>, past: seq<Move>, callOf: InputKey -> Call)
    requires UniqueIds(moves, callOf) && past <= moves
    ensures UniqueIds(past, callOf)
  {
    assert forall n | 0 <= n < |past| :: past[n] == moves[n];
  }

  lemma StillAsked(db: Db, d: Db, k: InputKey, correction: Correction)
    requires k in db.inputs && db.inputs[k].kind == ExampleCorrection && db.inputs[k].context == AboutExample(correction)
    requires InputStays(db, d, k) && AnsweredInput(d, k.job, k.call) == Some(Approve)
    ensures AskedAndApproved(d, k, correction)
  {
  }

  predicate AskedAndApproved(db: Db, k: InputKey, correction: Correction) {
    && k in db.inputs && db.inputs[k].kind == ExampleCorrection && db.inputs[k].context == AboutExample(correction)
    && db.inputs[k].answer == Some(Approve)
  }

  /** With unique call ids, a tool call reads an answer of the right kind: text exactly for a
      clarification, unless the job was cancelled and the answer to a clarification is a
      rejection. */
  lemma ReplayReadsItsKind(env: Env, callOf: InputKey -> Call, moves: seq<Move>, n: nat, j: JobId)
    requires UniqueIds(moves, callOf) && ToolAt(env, moves, n, j)
    ensures var p, db := CallAt(env, moves, n, j), Before(env, moves, n).db; var answer := AnsweredInput(db, j, p.id);
            answer.Some? ==>
              || (answer.value.Text? <==> p.call.RequestClarification?)
              || (p.call.RequestClarification? && answer.value.Reject? && db.jobs[j].status == Rejected)
  {
    IdsHold(env, callOf, moves[..n]);
    var s, p := Before(env, moves, n), CallAt(env, moves, n, j);
    assert ProcPendingOk(callOf, s, ProcId(j, moves[n].worker));
    assert KindAs(callOf, s.db, InputKey(j, p.id));
  }

  // ---------------------------------------------------------------- without unique ids

  ghost function SubjectAt(env: Env, moves: seq<Move>, n: nat, j: JobId): Option<(InputKind, Context)>
    requires ToolAt(env, moves, n, j)
  {
    Subject(env, TaskAt(env, moves, n, j), CallAt(env, moves, n, j).call)
  }

  /** The question stored under k is about this. */
  predicate IsAbout(db: Db, k: InputKey, subject: Option<(InputKind, Context)>) {
    k in db.inputs && subject == Some((db.inputs[k].kind, db.inputs[k].context))
  }

  /** Move n is the tool call, under the id of question k, that put it to the user. */
  ghost predicate AskedAt(env: Env, moves: seq<Move>, n: nat, k: InputKey) {
    && ToolAt(env, moves, n, k.job) && CallAt(env, moves, n, k.job).id == k.call
    && k !in Before(env, moves, n).db.inputs && k in Moves(env, IDLE, moves[..n + 1]).db.inputs
  }

  /** The question stored under k is about the subject of the call that asked it. */
  ghost predicate AsAsked(env: Env, moves: seq<Move>, n: nat, k: InputKey) {
    AskedAt(env, moves, n, k) && IsAbout(Moves(env, IDLE, moves).db, k, SubjectAt(env, moves, n, k.job))
  }

  lemma AskedAtLater(env: Env, moves: seq<Move>, m: Move, n: nat, k: InputKey)
    requires AskedAt(env, moves, n, k)
    ensures AskedAt(env, moves + [m], n, k) && SubjectAt(env, moves + [m], n, k.job) == SubjectAt(env, moves, n, k.job)
  {
    SameToolAt(env, moves, m, n, k.job);
    assert (moves + [m])[..n + 1] == moves[..n + 1];
  }

  /** A question that is new after a move was asked by its call. */
  lemma NewQuestion(env: Env, s: Sys, m: Move, k: InputKey)
    requires SysGood(env, s) && k !in s.db.inputs && k in Move1(env, s, m).db.inputs
    ensures m.UseTool? && Runs(s, m.job, m.worker, m.oracle)
    ensures var p := s.procs[ProcId(m.job, m.worker)].agent.pending.value;
            k == InputKey(m.job, p.id) && IsAbout(Move1(env, s, m).db, k, Subject(env, TaskOf(s.db, m.job).value, p.call))
  {
    MoveIsAction(env, s, m);
    var a := ActionOf(env, s, m).value;
    NewInputIsSuspended(s.db, s.now, a, k);
    SuspendingMove(env, s, m, a);
  }

  lemma SuspendingMove(env: Env, s: Sys, m: Move, a: Action)
    requires ActionOf(env, s, m) == Some(a) && a.DoSuspend?
    ensures m.UseTool? && Runs(s, m.job, m.worker, m.oracle)
    ensures var p := s.procs[ProcId(m.job, m.worker)].agent.pending.value;
            && a.job == m.job && a.input.call == p.id
            && Subject(env, TaskOf(s.db, m.job).value, p.call) == Some((a.input.kind, a.input.context))
            && a.input.kind == KindOfCall(p.call)
  {
    var agent := s.procs[ProcId(m.job, m.worker)].agent;
    AsksItsSubject(env, TaskOf(s.db, m.job).value, agent.ws, agent.audit, agent.pending.value.call, m.oracle);
  }

  lemma AskedByLast(env: Env, moves: seq<Move>, m: Move, k: InputKey)
    requires k !in Moves(env, IDLE, moves).db.inputs && k in Move1(env, Moves(env, IDLE, moves), m).db.inputs
    ensures AsAsked(env, moves + [m], |moves|, k)
  {
    MovesGood(env, moves);
    NewQuestion(env, Moves(env, IDLE, moves), m, k);
    LastTool(env, moves, m);
    MovesExtend(env, moves, m);
  }

  lemma AsAskedLater(env: Env, moves: seq<Move>, m: Move, n: nat, k: InputKey)
    requires AsAsked(env, moves, n, k)
    ensures AsAsked(env, moves + [m], n, k)
  {
    AskedAtLater(env, moves, m, n, k);
    InputStaysNext(env, moves, m, k);
  }

  lemma InputStaysNext(env: Env, moves: seq<Move>, m: Move, k: InputKey)
    ensures InputStays(Moves(env, IDLE, moves).db, Moves(env, IDLE, moves + [m]).db, k)
  {
    assert (moves + [m])[..|moves|] == moves;
    InputStaysSince(env, moves + [m], |moves|, k);
  }

  /** In every run, with any call ids, every stored question was put to the user by a tool call
      under its id, and is about the subject of that call. */
  lemma {:induction false} EveryQuestionWasAsked(env: Env, moves: seq<Move>, k: InputKey)
    requires k in Moves(env, IDLE, moves).db.inputs
    ensures exists n: nat :: AsAsked(env, moves, n, k)
  {
    if moves != [] {
      var front, m := moves[..|moves| - 1], moves[|moves| - 1];
      assert moves == front + [m];
      MovesExtend(env, front, m);
      if k in Moves(env, IDLE, front).db.inputs {
        EveryQuestionWasAsked(env, front, k);
        var n: nat :| AsAsked(env, front, n, k);
        AsAskedLater(env, front, m, n, k);
      } else {
        AskedByLast(env, front, m, k);
      }
    }
  }

  /** Two moves that put the same question to the user are one. */
  lemma AskedOnce(env: Env, moves: seq<Move>, n: nat, m: nat, k: InputKey)
    requires AskedAt(env, moves, n, k) && AskedAt(env, moves, m, k)
    ensures n == m
  {
    if n < m { AskedBefore(env, moves, n, m, k); }
    if m < n { AskedBefore(env, moves, m, n, k); }
  }

  lemma AskedBefore(env: Env, moves: seq<Move>, n: nat, m: nat, k: InputKey)
    requires n < m <= |moves| && k in Moves(env, IDLE, moves[..n + 1]).db.inputs
    ensures k in Moves(env, IDLE, moves[..m]).db.inputs
  {
    assert moves[..m][..n + 1] == moves[..n + 1];
    InputStaysSince(env, moves[..m], n + 1, k);
  }

  /** Call n acts on an answer, and the question it answers is about the subject of call n. */
  ghost predicate UsedAsAsked(env: Env, moves: seq<Move>, n: nat, j: JobId)
    requires ToolAt(env, moves, n, j)
  {
    IsAbout(Before(env, moves, n).db, InputKey(j, CallAt(env, moves, n, j).id), SubjectAt(env, moves, n, j))
  }

  /** In every run, with any call ids: the answer that a tool call reads is to a question that
      exactly one earlier call asked, and it is used for what the user was asked about if and
      only if the two calls have the same subject. */
  lemma UsedAsAskedExactly(env: Env, moves: seq<Move>, n: nat, j: JobId)
    requires ToolAt(env, moves, n, j) && AnsweredInput(Before(env, moves, n).db, j, CallAt(env, moves, n, j).id).Some?
    ensures var k := InputKey(j, CallAt(env, moves, n, j).id);
            exists m: nat :: AskedAt(env, moves[..n], m, k) &&
              (UsedAsAsked(env, moves, n, j) <==> SubjectAt(env, moves[..n], m, j) == SubjectAt(env, moves, n, j))
  {
    var k := InputKey(j, CallAt(env, moves, n, j).id);
    EveryQuestionWasAsked(env, moves[..n], k);
    var m: nat :| AsAsked(env, moves[..n], m, k);
  }

  /** So an approved correction is one the user was asked about exactly when the call that asked
      proposed the same correction. */
  lemma CorrectionUsedAsAskedExactly(env: Env, moves: seq<Move>, n: nat, j: JobId, i: nat, correction: Correction, m: nat)
    requires ApprovedAt(env, moves, n, j, i, correction)
    requires AskedAt(env, moves[..n], m, InputKey(j, CallAt(env, moves, n, j).id))
    ensures AskedAndApproved(Before(env, moves, n).db, InputKey(j, CallAt(env, moves, n, j).id), correction) <==>
            SubjectAt(env, moves[..n], m, j) == Some((ExampleCorrection, AboutExample(correction)))
  {
    AskerDecides(env, moves[..n], m, InputKey(j, CallAt(env, moves, n, j).id));
  }

  lemma AskerDecides(env: Env, moves: seq<Move>, m: nat, k: InputKey)
    requires AskedAt(env, moves, m, k) && k in Moves(env, IDLE, moves).db.inputs
    ensures AsAsked(env, moves, m, k)
  {
    EveryQuestionWasAsked(env, moves, k);
    var x: nat :| AsAsked(env, moves, x, k);
    AskedOnce(env, moves, m, x, k);
  }

  /** Nothing but the id is compared: in every reachable workspace an approval under the id of a
      call is used for whatever valid correction that call proposes. */
  lemma ReusedIdApprovesAnything(env: Env, task: Request, ws: Workspace, audit: Audit, c: Call, o: Oracle)
    requires AgentOk(task, ws, audit) && c.RequestExampleCorrection? && ValidReason(c.reason)
    requires ValidCorrection(env, task, c).Some? && c.exampleIndex - 1 !in ws.corrections && o.answer == Some(Approve)
    ensures var r := Execute(env, task, ws, audit, c, o);
            c.exampleIndex - 1 in r.ws.corrections && r.ws.corrections[c.exampleIndex - 1] == ValidCorrection(env, task, c).value
  {
    Outcomes.CorrectionRecorded(env, task, ws, audit, c, o);
  }
}
