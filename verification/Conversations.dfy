/** Runs in which the user answers: one that publishes on every kind of evidence, and one in which
    an approval is used for something the user was not asked about. */
module Conversations {
  import opened Wrappers
  import opened ArtifactTypes
  import opened AgentTypes
  import opened Schema
  import opened Transactions
  import opened Effects
  import opened ToolCalls
  import opened PublicationGate
  import opened Processes
  import opened Rehearsals
  import opened CallIds
  import Collection
  import Progress
  import Provenance
  import Text
  import Truncation

  // ---------------------------------------------------------------- a worker at work

  /** Worker w owns job j and runs process p; these questions have been asked, and none is open. */
  predicate Works(s: Sys, j: JobId, w: WorkerId, p: Proc, task: Request, asked: map<InputKey, Input>) {
    && Owns(s.db, j, w) && s.db.jobs[j].stage == ContractStage && s.db.jobs[j].attempts <= MAX_JOB_ATTEMPTS
    && ProcId(j, w) in s.procs && s.procs[ProcId(j, w)] == p
    && TaskOf(s.db, j) == Some(task) && s.db.inputs == asked && s.db.pendingCall == map[]
  }

  /** And the registry holds the agent. */
  predicate WorksSaved(s: Sys, j: JobId, w: WorkerId, a: Agent, task: Request, asked: map<InputKey, Input>) {
    Works(s, j, w, Proc(a, true), task, asked) && Kept(s, j, a)
  }

  lemma SaveWorks(s: Sys, j: JobId, w: WorkerId, p: Proc, task: Request, asked: map<InputKey, Input>)
    requires Works(s, j, w, p, task, asked)
    ensures WorksSaved(SaveNext(s, j, w), j, w, p.agent, task, asked)
  {
  }

  lemma TurnWorks(s: Sys, j: JobId, w: WorkerId, a: Agent, p: PendingCall, task: Request, asked: map<InputKey, Input>)
    requires Works(s, j, w, Proc(a, true), task, asked) && a.pending.None? && Advertised(Counted(a.ws), p.call)
    ensures Works(TurnNext(s, j, w, p), j, w, Proc(Chosen(a, p), false), task, asked)
  {
  }

  /** A call is chosen and saved. */
  lemma ChosenWorks(s: Sys, j: JobId, w: WorkerId, a: Agent, p: PendingCall, task: Request, asked: map<InputKey, Input>)
    requires WorksSaved(s, j, w, a, task, asked) && a.pending.None? && Advertised(Counted(a.ws), p.call)
    ensures WorksSaved(SaveNext(TurnNext(s, j, w, p), j, w), j, w, Chosen(a, p), task, asked)
  {
    TurnWorks(s, j, w, a, p, task, asked);
    SaveWorks(TurnNext(s, j, w, p), j, w, Proc(Chosen(a, p), false), task, asked);
  }

  function AnswerIn(asked: map<InputKey, Input>, k: InputKey): Option<Answer> {
    if k in asked then asked[k].answer else None
  }

  /** Every write succeeds, and the answer is that of the registry. */
  predicate Serves(o: Oracle, answer: Option<Answer>) {
    && o.answer == answer && o.stageBuildingOk && o.stageValidatingOk && o.saveContractOk && o.putOk && o.buildOk
    && o.suspendOk && o.publishOk
  }

  predicate Plain(c: Call) {
    !c.RequestHttpCapability?
  }

  lemma ServedRuns(s: Sys, j: JobId, w: WorkerId, a: Agent, task: Request, asked: map<InputKey, Input>, o: Oracle)
    requires WorksSaved(s, j, w, a, task, asked) && a.pending.Some? && Plain(a.pending.value.call)
    requires Serves(o, AnswerIn(asked, InputKey(j, a.pending.value.id)))
    ensures Runs(s, j, w, o) && Approving(s, j, w, o) == s
  {
  }

  lemma ToolWorks(env: Env, s: Sys, j: JobId, w: WorkerId, a: Agent, task: Request, asked: map<InputKey, Input>, o: Oracle, slip: Slip)
    requires WorksSaved(s, j, w, a, task, asked) && a.pending.Some? && Plain(a.pending.value.call)
    requires Serves(o, AnswerIn(asked, InputKey(j, a.pending.value.id))) && GoesOn(env, task, a, a.pending.value.call, o)
    ensures Works(ToolNext(env, s, j, w, o, slip), j, w, Proc(Gone(env, task, a, a.pending.value.call, o), false), task, asked)
  {
    ServedRuns(s, j, w, a, task, asked, o);
  }

  /** A call that goes on, saved before and after. */
  lemma RoundWorks(env: Env, s: Sys, j: JobId, w: WorkerId, a: Agent, p: PendingCall, task: Request, asked: map<InputKey, Input>,
                   o: Oracle, slip: Slip)
    requires WorksSaved(s, j, w, a, task, asked) && a.pending.None? && Advertised(Counted(a.ws), p.call) && Plain(p.call)
    requires Serves(o, AnswerIn(asked, InputKey(j, p.id))) && GoesOn(env, task, Chosen(a, p), p.call, o)
    ensures WorksSaved(Moves(env, s, Round(j, w, p, o, slip)), j, w, Gone(env, task, Chosen(a, p), p.call, o), task, asked)
  {
    RoundMoves(env, s, j, w, p, o, slip);
    ChosenWorks(s, j, w, a, p, task, asked);
    var s2 := SaveNext(TurnNext(s, j, w, p), j, w);
    ToolWorks(env, s2, j, w, Chosen(a, p), task, asked, o, slip);
    SaveWorks(ToolNext(env, s2, j, w, o, slip), j, w, Proc(Gone(env, task, Chosen(a, p), p.call, o), false), task, asked);
  }

  lemma BeginWorks(env: Env, name: string, task: Request, key: string, j: JobId, w: WorkerId)
    ensures WorksSaved(Moves(env, IDLE, Begin(name, task, key, j, w)), j, w, FRESH_AGENT, task, map[])
  {
    BeginDrives(env, name, task, key, j, w);
  }

  // ---------------------------------------------------------------- a question and its answer

  /** The question is stored, and nobody works on the job. */
  predicate Open(s: Sys, j: JobId, a: Agent, task: Request, asked: map<InputKey, Input>, k: InputKey, input: Input) {
    && j in s.db.jobs && s.db.jobs[j].status == AwaitingInput && s.db.jobs[j].attempts <= MAX_JOB_ATTEMPTS
    && TaskOf(s.db, j) == Some(task) && Kept(s, j, a)
    && k.job == j && s.db.inputs == asked[k := input] && s.db.pendingCall == map[j := k.call] && input.answer.None?
    && input.resumeStage == ContractStage
  }

  function Stored(slip: Slip, kind: InputKind, context: Context, answer: Option<Answer>): Input {
    Input(slip.id, kind, context, ContractStage, answer)
  }

  lemma ToolAsksUser(env: Env, s: Sys, j: JobId, w: WorkerId, a: Agent, task: Request, asked: map<InputKey, Input>, o: Oracle,
                     slip: Slip, kind: InputKind, context: Context)
    requires WorksSaved(s, j, w, a, task, asked) && a.pending.Some? && Plain(a.pending.value.call)
    requires InputKey(j, a.pending.value.id) !in asked && Serves(o, None)
    requires Execute(env, task, a.ws, a.audit, a.pending.value.call, o).execution == Suspended(kind, context)
    ensures Open(ToolNext(env, s, j, w, o, slip), j, a, task, asked, InputKey(j, a.pending.value.id), Stored(slip, kind, context, None))
  {
    ServedRuns(s, j, w, a, task, asked, o);
    var input := Question(a.pending.value.id, slip, kind, context);
    AskStored(s.db, j, w, input, s.now);
    SuspendEffect(s.db, j, w, input, s.now);
    assert ToolNext(env, s, j, w, o, slip).db == Suspend(s.db, j, w, input, s.now).value;
  }

  lemma AskStored(db: Db, j: JobId, w: WorkerId, input: NewInput, now: Time)
    requires Owns(db, j, w) && db.jobs[j].stage == ContractStage && j in db.runs
    requires InputKey(j, input.call) !in db.inputs && db.pendingCall == map[]
    ensures Suspend(db, j, w, input, now).Success?
  {
    var db1 := db.(inputs := db.inputs[InputKey(j, input.call) := AskedInput(db, j, input)],
                   pendingCall := db.pendingCall[j := input.call]);
    assert db1.runs == db.runs;
  }

  function Replied(s: Sys, j: JobId, id: InputId, answer: Answer): Sys {
    s.(db := After(s.db, AnswerInput(s.db, j, id, answer, 0, s.now)))
  }

  /** The answered job waits in the queue. */
  predicate InQueue(s: Sys, j: JobId, a: Agent, task: Request, asked: map<InputKey, Input>) {
    && j in s.db.jobs && Resumes(s.db.jobs[j]) && s.db.jobs[j].stage == ContractStage && s.db.jobs[j].availableAt == s.now
    && s.db.jobs[j].attempts <= MAX_JOB_ATTEMPTS
    && TaskOf(s.db, j) == Some(task) && Kept(s, j, a) && s.db.inputs == asked && s.db.pendingCall == map[]
  }

  lemma UserReplies(s: Sys, j: JobId, a: Agent, task: Request, asked: map<InputKey, Input>, k: InputKey, input: Input, answer: Answer)
    requires Open(s, j, a, task, asked, k, input) && ValidAnswer(input.kind, answer)
    ensures InQueue(Replied(s, j, input.id, answer), j, a, task, asked[k := input.(answer := Some(answer))])
  {
    Progress.AnswerExactly(s.db, j, input.id, answer, 0, s.now);
    AnswerEffect(s.db, j, input.id, answer, 0, s.now);
    var closed := CloseInput(s.db, j, answer);
    assert closed.inputs == asked[k := input.(answer := Some(answer))] && closed.pendingCall == map[];
  }

  lemma ResumedWorks(s: Sys, j: JobId, w: WorkerId, a: Agent, task: Request, asked: map<InputKey, Input>)
    requires InQueue(s, j, a, task, asked)
    ensures WorksSaved(SaveNext(TakeNext(s, j, w), j, w), j, w, a, task, asked)
  {
    var r := Claim(s.db, j, w, LEASE, s.now);
    assert r.Success?;
    ClaimEffect(s.db, j, w, s.now);
    ClaimedTask(s.db, j, w, s.now);
    Provenance.TakeNextIs(s, s.(db := r.value, procs := s.procs - {ProcId(j, w)}), j, w);
    assert SavedCheckpoint(r.value, j) == Some(Saved(a));
    SaveWorks(TakeNext(s, j, w), j, w, Proc(a, false), task, asked);
  }

  /** A question is asked, answered, and its call resumed by the same worker. */
  function Asking(j: JobId, w: WorkerId, p: PendingCall, o: Oracle, slip: Slip, answer: Answer): seq<Move> {
    [Turn(j, w, p), Save(j, w), UseTool(j, w, o, slip)] + [Other(DoAnswer(j, slip.id, answer, 0)), Take(j, w), Save(j, w)]
  }

  lemma ReplyMove(env: Env, s: Sys, j: JobId, id: InputId, answer: Answer)
    ensures Move1(env, s, Other(DoAnswer(j, id, answer, 0))) == Replied(s, j, id, answer)
  {
    assert Attempt(s.db, s.now, DoAnswer(j, id, answer, 0)) == AnswerInput(s.db, j, id, answer, 0, s.now);
  }

  lemma CallMoves(env: Env, s: Sys, j: JobId, w: WorkerId, p: PendingCall, o: Oracle, slip: Slip)
    ensures Moves(env, s, [Turn(j, w, p), Save(j, w), UseTool(j, w, o, slip)]) ==
            ToolNext(env, SaveNext(TurnNext(s, j, w, p), j, w), j, w, o, slip)
  {
    MovesThree(env, s, Turn(j, w, p), Save(j, w), UseTool(j, w, o, slip));
  }

  lemma ReplyMoves(env: Env, s: Sys, j: JobId, w: WorkerId, id: InputId, answer: Answer)
    ensures Moves(env, s, [Other(DoAnswer(j, id, answer, 0)), Take(j, w), Save(j, w)]) ==
            SaveNext(TakeNext(Replied(s, j, id, answer), j, w), j, w)
  {
    MovesThree(env, s, Other(DoAnswer(j, id, answer, 0)), Take(j, w), Save(j, w));
    ReplyMove(env, s, j, id, answer);
  }

  lemma AskingWorks(env: Env, s: Sys, j: JobId, w: WorkerId, a: Agent, p: PendingCall, task: Request, asked: map<InputKey, Input>,
                    o: Oracle, slip: Slip, kind: InputKind, context: Context, answer: Answer)
    requires WorksSaved(s, j, w, a, task, asked) && a.pending.None? && Advertised(Counted(a.ws), p.call) && Plain(p.call)
    requires InputKey(j, p.id) !in asked && Serves(o, None) && ValidAnswer(kind, answer)
    requires Execute(env, task, Chosen(a, p).ws, a.audit, p.call, o).execution == Suspended(kind, context)
    ensures WorksSaved(Moves(env, s, Asking(j, w, p, o, slip, answer)), j, w, Chosen(a, p), task,
                       asked[InputKey(j, p.id) := Stored(slip, kind, context, Some(answer))])
  {
    var k, input := InputKey(j, p.id), Stored(slip, kind, context, None);
    var first := [Turn(j, w, p), Save(j, w), UseTool(j, w, o, slip)];
    MovesAppend(env, s, first, [Other(DoAnswer(j, slip.id, answer, 0)), Take(j, w), Save(j, w)]);
    CallMoves(env, s, j, w, p, o, slip);
    ChosenWorks(s, j, w, a, p, task, asked);
    var s2 := SaveNext(TurnNext(s, j, w, p), j, w);
    ToolAsksUser(env, s2, j, w, Chosen(a, p), task, asked, o, slip, kind, context);
    AnsweredAndResumed(env, Moves(env, s, first), j, w, Chosen(a, p), task, asked, k, input, answer);
  }

  lemma AnsweredAndResumed(env: Env, s: Sys, j: JobId, w: WorkerId, a: Agent, task: Request, asked: map<InputKey, Input>,
                           k: InputKey, input: Input, answer: Answer)
    requires Open(s, j, a, task, asked, k, input) && ValidAnswer(input.kind, answer)
    ensures WorksSaved(Moves(env, s, [Other(DoAnswer(j, input.id, answer, 0)), Take(j, w), Save(j, w)]), j, w, a, task,
                       asked[k := input.(answer := Some(answer))])
  {
    ReplyMoves(env, s, j, w, input.id, answer);
    UserReplies(s, j, a, task, asked, k, input, answer);
    ResumedWorks(Replied(s, j, input.id, answer), j, w, a, task, asked[k := input.(answer := Some(answer))]);
  }

  /** The resumed call is carried out and saved. */
  function Resuming(j: JobId, w: WorkerId, o: Oracle, slip: Slip): seq<Move> {
    [UseTool(j, w, o, slip), Save(j, w)]
  }

  lemma ResumingWorks(env: Env, s: Sys, j: JobId, w: WorkerId, a: Agent, task: Request, asked: map<InputKey, Input>, o: Oracle, slip: Slip)
    requires WorksSaved(s, j, w, a, task, asked) && a.pending.Some? && Plain(a.pending.value.call)
    requires Serves(o, AnswerIn(asked, InputKey(j, a.pending.value.id))) && GoesOn(env, task, a, a.pending.value.call, o)
    ensures WorksSaved(Moves(env, s, Resuming(j, w, o, slip)), j, w, Gone(env, task, a, a.pending.value.call, o), task, asked)
  {
    MovesTwo(env, s, UseTool(j, w, o, slip), Save(j, w));
    ToolWorks(env, s, j, w, a, task, asked, o, slip);
    SaveWorks(ToolNext(env, s, j, w, o, slip), j, w, Proc(Gone(env, task, a, a.pending.value.call, o), false), task, asked);
  }

  // ---------------------------------------------------------------- an approval used for another correction

  const TWO: Request := Request("", TextFormat, TextFormat, [Example("", ""), Example("", "")], [])

  /** Proposes another output of example i. */
  function Correct(i: nat, output: string): Call {
    RequestExampleCorrection(i, "", output, "r")
  }

  function CorrectionOf(i: nat, output: string): Correction {
    Correction(i, Example("", ""), Example("", output), "r")
  }

  /** Samples pass, tests end like this, and this is what verifier and user say. */
  function Saying(tests: nat -> RunResult, verdict: Option<Verdict>, answer: Option<Answer>): Oracle {
    Oracle(true, true, true, true, true, true, true, true, true, Some(Review(Accept, "", [])), verdict,
           _ => Ran(0, "", ""), tests, RunFailed, NO_RECORD, answer, false, 0)
  }

  function Silent(answer: Option<Answer>): Oracle {
    Saying(_ => RunFailed, None, answer)
  }

  /** The user approves a correction of example 1; under the same call id the model then proposes
      one of example 2. */
  function ReusedIdRun(name: string, key: string, j: JobId, w: WorkerId, slip: Slip): seq<Move> {
    Begin(name, TWO, key, j, w) + Asking(j, w, PendingCall("a", Correct(1, "1")), Silent(None), slip, Approve) +
    Resuming(j, w, Silent(Some(Approve)), slip) + Round(j, w, PendingCall("a", Correct(2, "2")), Silent(Some(Approve)), slip)
  }

  lemma AsksForCorrection(env: Env, a: Agent)
    requires a == Chosen(FRESH_AGENT, PendingCall("a", Correct(1, "1")))
    ensures Execute(env, TWO, a.ws, a.audit, Correct(1, "1"), Silent(None)).execution ==
            Suspended(ExampleCorrection, AboutExample(CorrectionOf(1, "1")))
  {
    Reasoned();
  }

  /** Nothing but this has been corrected. */
  predicate Corrected(a: Agent, corrections: map<nat, Correction>) {
    a.pending.None? && a.ws.draft.None? && a.ws.corrections == corrections
  }

  lemma Corrects(env: Env, a: Agent, i: nat, output: string)
    requires a.ws.draft.None? && 1 <= i <= 2 && i - 1 !in a.ws.corrections && output in {"1", "2"}
    ensures GoesOn(env, TWO, a, Correct(i, output), Silent(Some(Approve)))
    ensures Corrected(Gone(env, TWO, a, Correct(i, output), Silent(Some(Approve))),
                      a.ws.corrections[i - 1 := CorrectionOf(i, output)])
  {
    Reasoned();
    assert ValidCorrection(env, TWO, Correct(i, output)) == Some(CorrectionOf(i, output));
  }

  /** The state after the approved correction of example 1. */
  predicate FirstCorrected(s: Sys, j: JobId, w: WorkerId, a: Agent, slip: Slip) {
    && Corrected(a, map[0 := CorrectionOf(1, "1")])
    && WorksSaved(s, j, w, a, TWO,
                  map[InputKey(j, "a") := Stored(slip, ExampleCorrection, AboutExample(CorrectionOf(1, "1")), Some(Approve))])
  }

  lemma FirstCorrection(env: Env, s: Sys, j: JobId, w: WorkerId, slip: Slip)
    requires WorksSaved(s, j, w, FRESH_AGENT, TWO, map[])
    ensures exists a :: FirstCorrected(
              Moves(env, Moves(env, s, Asking(j, w, PendingCall("a", Correct(1, "1")), Silent(None), slip, Approve)),
                    Resuming(j, w, Silent(Some(Approve)), slip)), j, w, a, slip)
  {
    var p := PendingCall("a", Correct(1, "1"));
    var a, about := Chosen(FRESH_AGENT, p), AboutExample(CorrectionOf(1, "1"));
    AsksForCorrection(env, a);
    AskingWorks(env, s, j, w, FRESH_AGENT, p, TWO, map[], Silent(None), slip, ExampleCorrection, about, Approve);
    var s1 := Moves(env, s, Asking(j, w, p, Silent(None), slip, Approve));
    var asked := map[InputKey(j, "a") := Stored(slip, ExampleCorrection, about, Some(Approve))];
    assert (map[])[InputKey(j, "a") := Stored(slip, ExampleCorrection, about, Some(Approve))] == asked;
    Corrects(env, a, 1, "1");
    ResumingWorks(env, s1, j, w, a, TWO, asked, Silent(Some(Approve)), slip);
    assert FirstCorrected(Moves(env, s1, Resuming(j, w, Silent(Some(Approve)), slip)), j, w,
                          Gone(env, TWO, a, Correct(1, "1"), Silent(Some(Approve))), slip);
  }

  /** Example 2 has been corrected, though the only question was about example 1. */
  predicate Misused(s: Sys, j: JobId, w: WorkerId, slip: Slip) {
    && ProcId(j, w) in s.procs
    && s.procs[ProcId(j, w)].agent.ws.corrections == map[0 := CorrectionOf(1, "1"), 1 := CorrectionOf(2, "2")]
    && s.db.inputs ==
       map[InputKey(j, "a") := Stored(slip, ExampleCorrection, AboutExample(CorrectionOf(1, "1")), Some(Approve))]
  }

  lemma SecondCorrection(env: Env, s: Sys, j: JobId, w: WorkerId, a: Agent, slip: Slip)
    requires FirstCorrected(s, j, w, a, slip)
    ensures Misused(Moves(env, s, Round(j, w, PendingCall("a", Correct(2, "2")), Silent(Some(Approve)), slip)), j, w, slip)
  {
    var p := PendingCall("a", Correct(2, "2"));
    var asked := map[InputKey(j, "a") := Stored(slip, ExampleCorrection, AboutExample(CorrectionOf(1, "1")), Some(Approve))];
    Corrects(env, Chosen(a, p), 2, "2");
    RoundWorks(env, s, j, w, a, p, TWO, asked, Silent(Some(Approve)), slip);
  }

  /** Without unique call ids a correction is applied that the user was never asked about. */
  lemma ReusedIdIsMisused(env: Env, name: string, key: string, j: JobId, w: WorkerId, slip: Slip)
    ensures Misused(Moves(env, IDLE, ReusedIdRun(name, key, j, w, slip)), j, w, slip)
  {
    var begin := Begin(name, TWO, key, j, w);
    var asking := Asking(j, w, PendingCall("a", Correct(1, "1")), Silent(None), slip, Approve);
    var resuming := Resuming(j, w, Silent(Some(Approve)), slip);
    MovesAppend(env, IDLE, begin, asking);
    MovesAppend(env, IDLE, begin + asking, resuming);
    MovesAppend(env, IDLE, begin + asking + resuming, Round(j, w, PendingCall("a", Correct(2, "2")), Silent(Some(Approve)), slip));
    BeginWorks(env, name, TWO, key, j, w);
    FirstCorrection(env, Moves(env, IDLE, begin), j, w, slip);
    var a :| FirstCorrected(Moves(env, IDLE, begin + asking + resuming), j, w, a, slip);
    SecondCorrection(env, Moves(env, IDLE, begin + asking + resuming), j, w, a, slip);
  }

  // ---------------------------------------------------------------- a publication on all kinds of evidence

  /** One registered example and one sample. */
  const FULL: Request := Request("", TextFormat, TextFormat, [Example("", "a")], ["s"])

  /** A contract with one test of the model's own. */
  const PLAN: Call := SubmitContract("c", [], [], [ProposedTest("t", [], "", "x", 0, [])], "r")
  const REVIEW: Call := ReviewGeneratedTest(Generated(1, "t"), "r")
  const FIX: Call := RequestExampleCorrection(1, "", "b", "r")
  const FIXED: Correction := Correction(1, Example("", "a"), Example("", "b"), "r")

  function PlanTests(expected: string): seq<TestCase> {
    [TestCase(UserExample(1), [], "", "a", 0, []), TestCase(Generated(1, "t"), [], "", expected, 0, [])]
  }

  function PlanDraft(expected: string): Draft {
    Draft(Contract("c", [], []), PlanTests(expected), 1)
  }

  /** The first test prints this, the second "z". */
  function Prints(first: string): nat -> RunResult {
    n => Ran(0, if n == 0 then first else "z", "")
  }

  const DECIDES: Option<Verdict> := Some(OracleWrong(Some("z"), Some(0)))

  /** The agent so far: its draft, its changes, whether it has a source, and what failed last. */
  predicate Stands(a: Agent, expected: string, changes: seq<OracleChange>, written: bool, failure: Option<Snapshot>) {
    && a.pending.None? && a.ws.draft == Some(PlanDraft(expected)) && a.ws.source.Some? == written && a.ws.latestFailure == failure
    && a.ws.corrections == map[] && a.ws.metrics.sourceRevisions == (if written then 1 else 0)
    && a.ws.metrics.generatedTestCorrections == |changes|
    && a.audit.accepted.Some? && a.audit.acceptedReview.Some? && a.audit.approved == map[] && a.audit.changes == changes
  }

  lemma Titles()
    ensures CleanTitle("t") == "t" && NameFits(Generated(1, "t"))
  {
    assert !Text.IsSpace("t"[0]);
    assert "t"[..0] == "";
    assert Truncation.Bytes("t") == 1;
  }

  lemma PlanTestsBuilt()
    ensures UserTests(FULL, map[], []) + GeneratedTests([ProposedTest("t", [], "", "x", 0, [])]) == PlanTests("x")
  {
    Titles();
    var generated := GeneratedTests([ProposedTest("t", [], "", "x", 0, [])]);
    assert |generated| == 1 && generated[0] == TestCase(Generated(1, "t"), [], "", "x", 0, []);
    assert UserTests(FULL, map[], []) == [TestCase(UserExample(1), [], "", "a", 0, [])];
  }

  lemma PlanBuilt(env: Env, ws: Workspace)
    requires env.fixturesEncode([]) && ws.corrections == map[] && ws.httpProbeRecords == []
    ensures BuildDraft(env, FULL, ws, Contract("c", [], []), [ProposedTest("t", [], "", "x", 0, [])]) == Some(PlanDraft("x"))
  {
    Reasoned();
    Titles();
    PlanTestsBuilt();
    assert RecordsToFixtures([]) == [];
    assert ValidFixtures(env, ws.httpCapabilities, []);
    forall t | t in PlanTests("x") ensures ValidTest(env, TextFormat, ws.httpCapabilities, t) {
      assert t == PlanTests("x")[0] || t == PlanTests("x")[1];
    }
  }

  lemma PlanAccepted(env: Env)
    requires env.fixturesEncode([])
    ensures var a := Chosen(FRESH_AGENT, PendingCall("c", PLAN));
            && Advertised(a.ws, PLAN) && GoesOn(env, FULL, a, PLAN, Silent(None))
            && Stands(Gone(env, FULL, a, PLAN, Silent(None)), "x", [], false, None)
  {
    Reasoned();
    PlanBuilt(env, Counted(EMPTY_WORKSPACE));
  }

  /** What validation reports of a draft whose first test is run so. */
  lemma Validates(env: Env, expected: string, first: string, draft: Draft, o: Oracle)
    requires env.isUtf8("") && |draft.tests| == 2 && draft.userTestCount == 1
    requires draft.tests[0].expectedExitCode == 0 && draft.tests[1].expectedExitCode == 0
    requires draft.tests[1].expectedStdout == expected && draft.tests[1].name == Generated(1, "t")
    requires o.testRuns == Prints(first) && o.sampleRuns(0) == Ran(0, "", "")
    ensures var failure := ValidationFailure(env, FULL, draft, o);
            if draft.tests[0].expectedStdout != first then failure.Some? && failure.value.origin == UserOrigin
            else if expected != "z" then failure == Some(Snapshot(TestNamed(Generated(1, "t")), GeneratedOrigin, Some(0)))
            else failure.None?
  {
    assert SampleFailure(env, TextFormat, 1, o.sampleRuns, 1).None?;
    assert SampleFailure(env, TextFormat, 1, o.sampleRuns, 0).None?;
    assert TestFailure(env, TextFormat, draft, o.testRuns, 2).None?;
    assert o.testRuns(0) == Ran(0, first, "") && o.testRuns(1) == Ran(0, "z", "");
    assert TestPasses(env, TextFormat, draft.tests[1], o.testRuns(1)) <==> expected == "z";
    assert TestPasses(env, TextFormat, draft.tests[0], o.testRuns(0)) <==> draft.tests[0].expectedStdout == first;
    assert expected != "z" ==>
             TestFailure(env, TextFormat, draft, o.testRuns, 1) == Some(Snapshot(TestNamed(Generated(1, "t")), GeneratedOrigin, Some(0)));
    assert expected == "z" ==> TestFailure(env, TextFormat, draft, o.testRuns, 1).None?;
  }

  const FAILED: Snapshot := Snapshot(TestNamed(Generated(1, "t")), GeneratedOrigin, Some(0))

  lemma SourceFails(env: Env, a: Agent)
    requires env.isUtf8("") && Stands(a, "x", [], false, None)
    ensures var b, o := Chosen(a, PendingCall("w", WRITE)), Saying(Prints("a"), None, None);
            && Advertised(b.ws, WRITE) && GoesOn(env, FULL, b, WRITE, o)
            && Stands(Gone(env, FULL, b, WRITE, o), "x", [], true, Some(FAILED))
  {
    Reasoned();
    Validates(env, "x", "a", PlanDraft("x"), Saying(Prints("a"), None, None));
  }

  lemma ReviewReplaces(env: Env, a: Agent)
    requires env.isUtf8("") && Stands(a, "x", [], true, Some(FAILED))
    ensures var b, o := Chosen(a, PendingCall("v", REVIEW)), Saying(Prints("b"), DECIDES, None);
            && Advertised(b.ws, REVIEW) && GoesOn(env, FULL, b, REVIEW, o)
            && exists f :: Stands(Gone(env, FULL, b, REVIEW, o), "z", [OracleChange(1, "z", 0)], true, Some(f))
  {
    Reasoned();
    var b, o := Chosen(a, PendingCall("v", REVIEW)), Saying(Prints("b"), DECIDES, None);
    assert FindTest(PlanTests("x"), Generated(1, "t"), 1) == Some(1);
    assert ReviewedTest(b.ws, Generated(1, "t")) == Some(1);
    var replaced := ReplaceOracle(b.ws, 1, "z", 0);
    assert replaced.draft.value.tests == PlanTests("z");
    assert replaced.draft == Some(PlanDraft("z"));
    Validates(env, "z", "b", PlanDraft("z"), o);
    assert Stands(Gone(env, FULL, b, REVIEW, o), "z", [OracleChange(1, "z", 0)], true, ValidationFailure(env, FULL, PlanDraft("z"), o));
  }

  lemma FixIsAsked(env: Env, a: Agent, f: Snapshot)
    requires Stands(a, "z", [OracleChange(1, "z", 0)], true, Some(f))
    ensures var b := Chosen(a, PendingCall("e", FIX));
            Execute(env, FULL, b.ws, b.audit, FIX, Silent(None)).execution == Suspended(ExampleCorrection, AboutExample(FIXED))
  {
    Reasoned();
    assert ValidCorrection(env, FULL, FIX) == Some(FIXED);
  }

  lemma FixPublishes(env: Env, a: Agent, f: Snapshot)
    requires env.isUtf8("") && Stands(a, "z", [OracleChange(1, "z", 0)], true, Some(f))
    ensures var b, o := Chosen(a, PendingCall("e", FIX)), Saying(Prints("b"), None, Some(Approve));
            var r := Execute(env, FULL, b.ws, b.audit, FIX, o);
            && r.execution.Published? && r.audit.accepted.Some? && r.audit.acceptedReview.Some?
            && r.audit.approved == map[0 := FIXED] && r.audit.changes == [OracleChange(1, "z", 0)]
            && |r.execution.bundle.tests| == 2
  {
    Reasoned();
    var b, o := Chosen(a, PendingCall("e", FIX)), Saying(Prints("b"), None, Some(Approve));
    assert ValidCorrection(env, FULL, FIX) == Some(FIXED);
    var applied := ApplyCorrection(b.ws, FIXED).value;
    Validates(env, "z", "b", applied.draft.value, o);
  }

  predicate PublishedJob(db: Db, j: JobId) {
    && j in db.jobs && db.jobs[j].status == Ready
    && db.jobs[j].version in db.versions && db.versions[db.jobs[j].version].status == ReadyVersion
  }

  /** The owner's call publishes, and its evidence is kept. */
  lemma ToolPublishes(env: Env, s: Sys, j: JobId, w: WorkerId, a: Agent, task: Request, asked: map<InputKey, Input>, o: Oracle, slip: Slip)
    requires WorksSaved(s, j, w, a, task, asked) && a.pending.Some? && Plain(a.pending.value.call)
    requires Serves(o, AnswerIn(asked, InputKey(j, a.pending.value.id)))
    requires var r := Execute(env, task, a.ws, a.audit, a.pending.value.call, o);
             r.execution.Published? && r.audit.accepted.Some? && r.audit.acceptedReview.Some?
    ensures var s' := ToolNext(env, s, j, w, o, slip); var k := s.db.jobs[j].version;
            && PublishedJob(s'.db, j) && s'.db.jobs[j].version == k && k in s'.evidence
            && s'.evidence[k] == EvidenceOf(task, Execute(env, task, a.ws, a.audit, a.pending.value.call, o), o)
  {
    ServedRuns(s, j, w, a, task, asked, o);
    PublishesArtifact(s.db, j, w, ResultOf(env, s, j, w, o).execution.bundle, s.now);
  }

  lemma PublishesArtifact(db: Db, j: JobId, w: WorkerId, b: Bundle, now: Time)
    requires Owns(db, j, w) && j in db.runs && db.jobs[j].version in db.versions
    ensures var r := Publish(db, j, w, Collection.Artifact(b), now);
            r.Success? && PublishedJob(r.value, j) && r.value.jobs[j].version == db.jobs[j].version
  {
    Provenance.OwnerPublishes(db, j, w, Collection.Artifact(b), now);
    PublishEffect(db, j, w, Collection.Artifact(b), now);
  }

  /** A contract, a source that fails the model's own test, a verdict that changes that test, an
      approved correction of the example, and the publication. */
  function FullRun(name: string, key: string, j: JobId, w: WorkerId, slip: Slip): seq<Move> {
    Begin(name, FULL, key, j, w) + Round(j, w, PendingCall("c", PLAN), Silent(None), slip) +
    Round(j, w, PendingCall("w", WRITE), Saying(Prints("a"), None, None), slip) +
    Round(j, w, PendingCall("v", REVIEW), Saying(Prints("b"), DECIDES, None), slip) +
    Asking(j, w, PendingCall("e", FIX), Silent(None), slip, Approve) +
    [UseTool(j, w, Saying(Prints("b"), None, Some(Approve)), slip)]
  }

  /** Worker w works on an agent that stands so. */
  ghost predicate At(s: Sys, j: JobId, w: WorkerId, expected: string, changes: seq<OracleChange>, written: bool) {
    exists a, f :: AtWith(s, j, w, a, expected, changes, written, f)
  }

  predicate AtWith(s: Sys, j: JobId, w: WorkerId, a: Agent, expected: string, changes: seq<OracleChange>, written: bool,
                   failure: Option<Snapshot>) {
    && WorksSaved(s, j, w, a, FULL, map[]) && Stands(a, expected, changes, written, failure)
    && (changes == [] ==> failure == if written then Some(FAILED) else None) && (changes != [] ==> failure.Some?)
  }

  lemma PlanRound(env: Env, s: Sys, j: JobId, w: WorkerId, slip: Slip)
    requires env.fixturesEncode([]) && WorksSaved(s, j, w, FRESH_AGENT, FULL, map[])
    ensures At(Moves(env, s, Round(j, w, PendingCall("c", PLAN), Silent(None), slip)), j, w, "x", [], false)
  {
    var p, o := PendingCall("c", PLAN), Silent(None);
    PlanAccepted(env);
    RoundWorks(env, s, j, w, FRESH_AGENT, p, FULL, map[], o, slip);
    assert AtWith(Moves(env, s, Round(j, w, p, o, slip)), j, w, Gone(env, FULL, Chosen(FRESH_AGENT, p), PLAN, o), "x", [], false, None);
  }

  lemma SourceRoundFails(env: Env, s: Sys, j: JobId, w: WorkerId, slip: Slip)
    requires env.isUtf8("") && At(s, j, w, "x", [], false)
    ensures At(Moves(env, s, Round(j, w, PendingCall("w", WRITE), Saying(Prints("a"), None, None), slip)), j, w, "x", [], true)
  {
    var a, f :| AtWith(s, j, w, a, "x", [], false, f);
    var p, o := PendingCall("w", WRITE), Saying(Prints("a"), None, None);
    SourceFails(env, a);
    RoundWorks(env, s, j, w, a, p, FULL, map[], o, slip);
    assert AtWith(Moves(env, s, Round(j, w, p, o, slip)), j, w, Gone(env, FULL, Chosen(a, p), WRITE, o), "x", [], true, Some(FAILED));
  }

  lemma ReviewRound(env: Env, s: Sys, j: JobId, w: WorkerId, slip: Slip)
    requires env.isUtf8("") && At(s, j, w, "x", [], true)
    ensures At(Moves(env, s, Round(j, w, PendingCall("v", REVIEW), Saying(Prints("b"), DECIDES, None), slip)), j, w,
               "z", [OracleChange(1, "z", 0)], true)
  {
    var a, f :| AtWith(s, j, w, a, "x", [], true, f);
    var p, o := PendingCall("v", REVIEW), Saying(Prints("b"), DECIDES, None);
    ReviewReplaces(env, a);
    var b := Gone(env, FULL, Chosen(a, p), REVIEW, o);
    var g :| Stands(b, "z", [OracleChange(1, "z", 0)], true, Some(g));
    RoundWorks(env, s, j, w, a, p, FULL, map[], o, slip);
    assert AtWith(Moves(env, s, Round(j, w, p, o, slip)), j, w, b, "z", [OracleChange(1, "z", 0)], true, Some(g));
  }

  /** Published, with one approved correction, one changed test, one sample and two tests. */
  predicate FullyEvident(s: Sys, j: JobId) {
    && PublishedJob(s.db, j) && s.db.jobs[j].version in s.evidence
    && var e := s.evidence[s.db.jobs[j].version];
       && e.approved == map[0 := FIXED] && e.changes == [OracleChange(1, "z", 0)]
       && |e.sampleResults| == 1 && |e.testResults| == 2
  }

  lemma FixRound(env: Env, s: Sys, j: JobId, w: WorkerId, slip: Slip)
    requires env.isUtf8("") && At(s, j, w, "z", [OracleChange(1, "z", 0)], true)
    ensures FullyEvident(ToolNext(env, Moves(env, s, Asking(j, w, PendingCall("e", FIX), Silent(None), slip, Approve)), j, w,
                                  Saying(Prints("b"), None, Some(Approve)), slip), j)
  {
    var a, f :| AtWith(s, j, w, a, "z", [OracleChange(1, "z", 0)], true, f);
    var p := PendingCall("e", FIX);
    FixIsAsked(env, a, f.value);
    AskingWorks(env, s, j, w, a, p, FULL, map[], Silent(None), slip, ExampleCorrection, AboutExample(FIXED), Approve);
    FixPublishes(env, a, f.value);
    var asked := (map[])[InputKey(j, "e") := Stored(slip, ExampleCorrection, AboutExample(FIXED), Some(Approve))];
    ToolPublishes(env, Moves(env, s, Asking(j, w, p, Silent(None), slip, Approve)), j, w, Chosen(a, p), FULL, asked,
                  Saying(Prints("b"), None, Some(Approve)), slip);
  }

  /** Published versions with every kind of evidence exist: this run reaches one. */
  lemma PublicationIsReached(env: Env, name: string, key: string, j: JobId, w: WorkerId, slip: Slip)
    requires env.fixturesEncode([]) && env.isUtf8("")
    ensures FullyEvident(Moves(env, IDLE, FullRun(name, key, j, w, slip)), j)
  {
    var begin, plan := Begin(name, FULL, key, j, w), Round(j, w, PendingCall("c", PLAN), Silent(None), slip);
    var source := Round(j, w, PendingCall("w", WRITE), Saying(Prints("a"), None, None), slip);
    var review := Round(j, w, PendingCall("v", REVIEW), Saying(Prints("b"), DECIDES, None), slip);
    BeginWorks(env, name, FULL, key, j, w);
    MovesAppend(env, IDLE, begin, plan);
    PlanRound(env, Moves(env, IDLE, begin), j, w, slip);
    MovesAppend(env, IDLE, begin + plan, source);
    SourceRoundFails(env, Moves(env, IDLE, begin + plan), j, w, slip);
    MovesAppend(env, IDLE, begin + plan + source, review);
    ReviewRound(env, Moves(env, IDLE, begin + plan + source), j, w, slip);
    FixEnds(env, begin + plan + source + review, j, w, slip);
  }

  lemma LastCall(env: Env, front: seq<Move>, j: JobId, w: WorkerId, o: Oracle, slip: Slip)
    ensures Moves(env, IDLE, front + [UseTool(j, w, o, slip)]) == ToolNext(env, Moves(env, IDLE, front), j, w, o, slip)
  {
    MovesLast(env, IDLE, front, UseTool(j, w, o, slip));
  }

  lemma FixEnds(env: Env, front: seq<Move>, j: JobId, w: WorkerId, slip: Slip)
    requires env.isUtf8("") && At(Moves(env, IDLE, front), j, w, "z", [OracleChange(1, "z", 0)], true)
    ensures FullyEvident(Moves(env, IDLE, front + Asking(j, w, PendingCall("e", FIX), Silent(None), slip, Approve) +
                                          [UseTool(j, w, Saying(Prints("b"), None, Some(Approve)), slip)]), j)
  {
    var asking := Asking(j, w, PendingCall("e", FIX), Silent(None), slip, Approve);
    MovesAppend(env, IDLE, front, asking);
    LastCall(env, front + asking, j, w, Saying(Prints("b"), None, Some(Approve)), slip);
    FixRound(env, Moves(env, IDLE, front), j, w, slip);
  }

  // ---------------------------------------------------------------- its call ids are unique

  function FullCall(k: InputKey): Call {
    if k.call == "c" then PLAN else if k.call == "w" then WRITE else if k.call == "v" then REVIEW else FIX
  }

  lemma FullRunIds(name: string, key: string, j: JobId, w: WorkerId, slip: Slip)
    ensures UniqueIds(FullRun(name, key, j, w, slip), FullCall)
  {
    var moves := FullRun(name, key, j, w, slip);
    forall n | 0 <= n < |moves| && moves[n].Turn? ensures moves[n].pending.call == FullCall(InputKey(moves[n].job, moves[n].pending.id)) {
      assert moves[n] in moves;
    }
  }
}
