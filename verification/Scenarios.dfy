/** Runs from the empty registry that reach the states in which a documented property fails:
    each trace is given step by step, for any names, workers and payloads. */
module Scenarios {
  import opened Wrappers
  import opened ArtifactTypes
  import opened AgentTypes
  import opened Schema
  import opened Transactions
  import opened Coherence
  import opened Effects
  import opened Histories
  import opened Endings
  import opened Collection
  import opened Traces
  import Progress
  import Revisions
  import Text

  // ---------------------------------------------------------------- steps that succeed

  lemma PlayLast(w: World, front: seq<Step>, s: Step, j: JobId)
    ensures Play(w, front + [s], j) == Next(Play(w, front, j), s, j)
  {
    assert (front + [s])[..|front|] == front;
  }

  lemma PlayOne(w: World, s: Step, j: JobId)
    ensures Play(w, [s], j) == Next(w, s, j)
  {
    PlayLast(w, [], s, j);
    assert [] + [s] == [s];
  }

  /** Job j is the only one, its first revision is being built by worker a, and nothing has
      been asked, published or recorded. */
  predicate Open(w: World, j: JobId, name: string, a: WorkerId) {
    && j in w.db.jobs && w.db.jobs[j].version == VersionKey(name, 1) && w.db.jobs[j].stage == ContractStage
    && Owns(w.db, j, a) && w.now == w.h.touched
    && w.db.runs.Keys <= {j} && w.db.inputs == map[] && w.db.pendingCall == map[] && w.db.artifacts == map[]
    && w.db.events == [] && w.db.archives == map[]
  }

  function Opening(name: string, request: Request, key: string, j: JobId, a: WorkerId): seq<Step> {
    [Act(DoRegister(name, request, key, j)), Act(DoClaim(j, a))]
  }

  lemma FirstClaim(db: Db, name: string, request: Request, key: string, j: JobId, a: WorkerId, h: History)
    requires db == Registered(EMPTY, name, request, key, j, 0)
    ensures var w := Next(World(db, 0, h), Act(DoClaim(j, a)), j); Open(w, j, name, a) && w.db.runs == map[]
  {
    assert Claim(db, j, a, LEASE, 0).Success?;
    ClaimEffect(db, j, a, 0);
  }

  /** Registered and claimed. */
  lemma Opened(name: string, request: Request, key: string, j: JobId, a: WorkerId)
    ensures var w := Play(START, Opening(name, request, key, j, a), j);
            WorldOk(w, j) && Open(w, j, name, a) && w.db.runs == map[]
  {
    ReachableOk(Opening(name, request, key, j, a), j);
    var register := Act(DoRegister(name, request, key, j));
    PlayOne(START, register, j);
    PlayLast(START, [register], Act(DoClaim(j, a)), j);
    assert Opening(name, request, key, j, a) == [register] + [Act(DoClaim(j, a))];
    var db := Registered(EMPTY, name, request, key, j, 0);
    assert Next(START, register, j) == World(db, 0, NO_HISTORY);
    FirstClaim(db, name, request, key, j, a, NO_HISTORY);
  }

  lemma Saves(w: World, j: JobId, name: string, a: WorkerId, c: Checkpoint)
    requires WorldOk(w, j) && Open(w, j, name, a)
    ensures var v := Next(w, Act(DoSaveCheckpoint(j, a, c)), j);
            && WorldOk(v, j) && Open(v, j, name, a) && SavedCheckpoint(v.db, j) == Some(c)
            && v.db.jobs == w.db.jobs && v.now == w.now
            && (j !in w.db.runs ==> v.db.runs == map[j := Run(c, 0)])
  {
    NextKeeps(w, Act(DoSaveCheckpoint(j, a, c)), j);
  }

  /** Registered, claimed and saved. */
  function Started(name: string, request: Request, key: string, j: JobId, a: WorkerId, c: Checkpoint): seq<Step> {
    Opening(name, request, key, j, a) + [Act(DoSaveCheckpoint(j, a, c))]
  }

  lemma StartedOk(name: string, request: Request, key: string, j: JobId, a: WorkerId, c: Checkpoint)
    ensures var w := Play(START, Started(name, request, key, j, a, c), j);
            WorldOk(w, j) && Open(w, j, name, a) && SavedCheckpoint(w.db, j) == Some(c)
  {
    Opened(name, request, key, j, a);
    PlayLast(START, Opening(name, request, key, j, a), Act(DoSaveCheckpoint(j, a, c)), j);
    Saves(Play(START, Opening(name, request, key, j, a), j), j, name, a, c);
  }

  /** A first claim records no event. */
  lemma StartedRun(name: string, request: Request, key: string, j: JobId, a: WorkerId, c: Checkpoint)
    ensures Play(START, Started(name, request, key, j, a, c), j).db.runs == map[j := Run(c, 0)]
  {
    Opened(name, request, key, j, a);
    PlayLast(START, Opening(name, request, key, j, a), Act(DoSaveCheckpoint(j, a, c)), j);
    Saves(Play(START, Opening(name, request, key, j, a), j), j, name, a, c);
  }

  lemma PublishSucceeds(db: Db, j: JobId, w: WorkerId, a: PublishedArtifact, now: Time)
    requires Owns(db, j, w) && j in db.runs
    ensures Publish(db, j, w, a, now).Success?
  {
    assert PublishedDb(db, j, a, now).runs == db.runs;
  }

  // ---------------------------------------------------------------- the two statements of set_job_stage

  /** More than 300 seconds later another worker claims the job. */
  lemma LateClaim(w: World, j: JobId, name: string, a: WorkerId, b: WorkerId)
    requires WorldOk(w, j) && Open(w, j, name, a)
    ensures var v := Next(Next(w, Tick(LEASE + 1), j), Act(DoClaim(j, b)), j);
            WorldOk(v, j) && Open(v, j, name, b) && SavedCheckpoint(v.db, j) == SavedCheckpoint(w.db, j)
  {
    var late := Next(w, Tick(LEASE + 1), j);
    NextKeeps(w, Tick(LEASE + 1), j);
    NextKeeps(late, Act(DoClaim(j, b)), j);
    assert Claim(late.db, j, b, LEASE, late.now).Success?;
    ClaimEffect(late.db, j, b, late.now);
  }

  /** What happens between the two statements of worker a. */
  function Overtaken(j: JobId, b: WorkerId, c: Checkpoint): seq<Step> {
    [Tick(LEASE + 1), Act(DoClaim(j, b)), Act(DoSaveCheckpoint(j, b, c))]
  }

  lemma OvertakenOpen(w: World, j: JobId, name: string, a: WorkerId, b: WorkerId, c: Checkpoint)
    requires WorldOk(w, j) && Open(w, j, name, a)
    ensures var v := Play(w, Overtaken(j, b, c), j); Open(v, j, name, b) && SavedCheckpoint(v.db, j) == Some(c)
  {
    var tick, claim, save := Tick(LEASE + 1), Act(DoClaim(j, b)), Act(DoSaveCheckpoint(j, b, c));
    PlayOne(w, tick, j);
    PlayLast(w, [tick], claim, j);
    PlayLast(w, [tick] + [claim], save, j);
    assert Overtaken(j, b, c) == [tick] + [claim] + [save];
    LateClaim(w, j, name, a, b);
    Saves(Play(w, [tick] + [claim], j), j, name, b, c);
  }

  lemma OvertakenRun(w: World, j: JobId, name: string, a: WorkerId, b: WorkerId, c: Checkpoint)
    requires WorldOk(w, j) && Open(w, j, name, a)
    ensures var v := Play(w, Overtaken(j, b, c), j); Owns(v.db, j, b) && j in v.db.runs && WorkerStages(Overtaken(j, b, c))
  {
    OvertakenOpen(w, j, name, a, b, c);
  }

  lemma FirstStatementOpen(w: World, j: JobId, name: string, a: WorkerId)
    requires WorldOk(w, j) && Open(w, j, name, a)
    ensures SetStageRow(w.db, j, a, ContractStage, w.now).Success?
    ensures WorldOk(FirstStatement(w, j, a, ContractStage), j) && Open(FirstStatement(w, j, a, ContractStage), j, name, a)
  {
    FirstStatementOk(w, j, a, ContractStage);
  }

  /** Worker a runs the first statement of a change to the contract stage and stalls; when its
      lease has run out worker b claims the job, saves and publishes it; a's second statement
      then takes the published version back into synthesis. */
  lemma PublishSplit(name: string, request: Request, key: string, j: JobId, a: WorkerId, b: WorkerId, c: Checkpoint,
                     artifact: PublishedArtifact)
    requires b != a
    ensures var w := Play(START, Opening(name, request, key, j, a), j);
            && SetStageRow(w.db, j, a, ContractStage, w.now).Success?
            && var v := Play(FirstStatement(w, j, a, ContractStage), Overtaken(j, b, c), j);
               var published := Publish(v.db, j, b, artifact, v.now);
               && published.Success?
               && var d := SetStageVersion(published.value, j, ContractStage);
                  && j in d.jobs && d.jobs[j].status == Ready && !RowsOk(d)
                  && d.jobs[j].version.tool in d.tools && d.tools[d.jobs[j].version.tool].stable.Some?
                  && ResolveTool(d, d.jobs[j].version.tool, None) == Failure(ToolNotReady)
  {
    var w := Play(START, Opening(name, request, key, j, a), j);
    Opened(name, request, key, j, a);
    FirstStatementOpen(w, j, name, a);
    OvertakenRun(FirstStatement(w, j, a, ContractStage), j, name, a, b, c);
    var v := Play(FirstStatement(w, j, a, ContractStage), Overtaken(j, b, c), j);
    PublishSucceeds(v.db, j, b, artifact, v.now);
    PublishBetweenStatements(w, j, a, ContractStage, Overtaken(j, b, c), b, artifact);
  }

  /** A user cancels between the two statements: the job is rejected while its version is being
      built. */
  lemma CancelSplit(name: string, request: Request, key: string, j: JobId, a: WorkerId, c: Checkpoint, reason: string, bytes: nat)
    requires !Text.Blank(reason) && |Text.Trim(reason)| <= 4096
    ensures var w := Play(START, Started(name, request, key, j, a, c), j);
            var first := SetStageRow(w.db, j, a, ContractStage, w.now);
            && first.Success?
            && var cancelled := Cancel(first.value, j, reason, bytes, w.now);
               && cancelled.Success?
               && var d := SetStageVersion(cancelled.value, j, ContractStage);
                  && j in d.jobs && d.jobs[j].status == Rejected && d.jobs[j].version in d.versions
                  && Busy(d.versions[d.jobs[j].version].status)
  {
    var w := Play(START, Started(name, request, key, j, a, c), j);
    StartedOk(name, request, key, j, a, c);
    FirstStatementOpen(w, j, name, a);
    var db1 := SetStageRow(w.db, j, a, ContractStage, w.now).value;
    CancelExactly(db1, j, reason, bytes, w.now);
    CancelBetweenStatements(w.db, db1, Cancel(db1, j, reason, bytes, w.now).value, j, a, ContractStage, reason, bytes, w.now, w.now);
  }

  // ---------------------------------------------------------------- the artifact store

  const NEW_SITE: Site := Site(EMPTY, 0, {})

  function OnSite(steps: seq<Step>): seq<SiteStep> {
    seq(|steps|, i requires 0 <= i < |steps| => Registry(steps[i]))
  }

  predicate NeverPublishes(steps: seq<Step>) {
    forall i | 0 <= i < |steps| :: steps[i].Act? ==> !steps[i].action.DoPublish?
  }

  lemma SiteLast(s: Site, front: seq<SiteStep>, step: SiteStep)
    ensures SiteRun(s, front + [step]) == SiteNext(SiteRun(s, front), step)
  {
    assert (front + [step])[..|front|] == front;
  }

  lemma {:induction false} SiteAppend(s: Site, front: seq<SiteStep>, rest: seq<SiteStep>)
    ensures SiteRun(s, front + rest) == SiteRun(SiteRun(s, front), rest)
    decreases |rest|
  {
    if rest == [] {
      assert front + rest == front;
    } else {
      var r := rest[..|rest| - 1];
      SiteAppend(s, front, r);
      assert front + rest == front + r + [rest[|rest| - 1]];
      SiteLast(s, front + r, rest[|rest| - 1]);
    }
  }

  /** Steps of the registry alone leave the store as it is. */
  lemma {:induction false} SiteFollows(w: World, store: set<Digest>, steps: seq<Step>, j: JobId)
    requires NeverPublishes(steps)
    ensures SiteRun(Site(w.db, w.now, store), OnSite(steps)) == Site(Play(w, steps, j).db, Play(w, steps, j).now, store)
  {
    if steps != [] {
      var front, last := steps[..|steps| - 1], steps[|steps| - 1];
      assert forall i | 0 <= i < |front| :: front[i] == steps[i];
      SiteFollows(w, store, front, j);
      assert OnSite(steps) == OnSite(front) + [Registry(last)];
      SiteLast(Site(w.db, w.now, store), OnSite(front), Registry(last));
    }
  }

  /** The question is stored when nothing else is asked and the job has a run. */
  lemma SuspendSucceeds(db: Db, j: JobId, w: WorkerId, input: NewInput, now: Time)
    requires Owns(db, j, w) && Working(db.jobs[j].stage) && j in db.runs
    requires InputKey(j, input.call) !in db.inputs && j !in db.pendingCall
    ensures Suspend(db, j, w, input, now).Success?
  {
    var db1 := db.(inputs := db.inputs[InputKey(j, input.call) := AskedInput(db, j, input)],
                   pendingCall := db.pendingCall[j := input.call]);
    assert db1.runs == db.runs;
  }

  function AskAndAnswer(j: JobId, a: WorkerId, input: NewInput, answer: Answer, bytes: nat): seq<Step> {
    [Act(DoSuspend(j, a, input)), Act(DoAnswer(j, input.id, answer, bytes))]
  }

  /** Job j waits for the answer to this question. */
  predicate Waits(db: Db, j: JobId, input: NewInput, c: Checkpoint) {
    && IsPending(db, j, input.id) && db.pendingCall[j] == input.call
    && db.inputs[InputKey(j, input.call)].kind == input.kind && Working(db.inputs[InputKey(j, input.call)].resumeStage)
    && SavedCheckpoint(db, j) == Some(c) && db.runs.Keys <= {j} && db.artifacts == map[]
  }

  lemma AsksUser(w: World, j: JobId, name: string, a: WorkerId, c: Checkpoint, input: NewInput)
    requires Open(w, j, name, a) && SavedCheckpoint(w.db, j) == Some(c)
    ensures Waits(Next(w, Act(DoSuspend(j, a, input)), j).db, j, input, c)
  {
    SuspendSucceeds(w.db, j, a, input, w.now);
    SuspendEffect(w.db, j, a, input, w.now);
    OneRun(w.db, Next(w, Act(DoSuspend(j, a, input)), j).db, j);
  }

  lemma UserAnswers(w: World, j: JobId, c: Checkpoint, input: NewInput, answer: Answer, bytes: nat)
    requires Waits(w.db, j, input, c) && ValidAnswer(input.kind, answer)
    ensures var d := Next(w, Act(DoAnswer(j, input.id, answer, bytes)), j).db;
            && j in d.jobs && Resumes(d.jobs[j]) && SavedCheckpoint(d, j) == Some(c)
            && d.runs.Keys <= {j} && d.artifacts == map[]
  {
    Progress.AnswerExactly(w.db, j, input.id, answer, bytes, w.now);
    AnswerEffect(w.db, j, input.id, answer, bytes, w.now);
    OneRun(w.db, Next(w, Act(DoAnswer(j, input.id, answer, bytes)), j).db, j);
  }

  /** A question asked and answered leaves the job in the queue with its checkpoint. */
  lemma Answered(w: World, j: JobId, name: string, a: WorkerId, c: Checkpoint, input: NewInput, answer: Answer, bytes: nat)
    requires Open(w, j, name, a) && SavedCheckpoint(w.db, j) == Some(c) && ValidAnswer(input.kind, answer)
    ensures var v := Play(w, AskAndAnswer(j, a, input, answer, bytes), j);
            && j in v.db.jobs && Resumes(v.db.jobs[j]) && SavedCheckpoint(v.db, j) == Some(c)
            && v.db.runs.Keys <= {j} && v.db.artifacts == map[]
  {
    var ask, reply := Act(DoSuspend(j, a, input)), Act(DoAnswer(j, input.id, answer, bytes));
    PlayOne(w, ask, j);
    PlayLast(w, [ask], reply, j);
    assert AskAndAnswer(j, a, input, answer, bytes) == [ask] + [reply];
    AsksUser(w, j, name, a, c, input);
    UserAnswers(Next(w, ask, j), j, c, input, answer, bytes);
  }

  lemma OneRun(db: Db, d: Db, j: JobId)
    requires db.runs.Keys <= {j} && forall i | i != j :: SameRun(db, d, i)
    ensures d.runs.Keys <= {j}
  {
    forall i | i != j ensures i !in d.runs { assert SameRun(db, d, i); }
  }

  /** A worker stores a candidate, saves it, and asks the user; the answer comes; before anyone
      claims the job again another worker starts and cleans up. */
  function QueuedTrace(name: string, request: Request, key: string, j: JobId, a: WorkerId, b: Bundle, c: Checkpoint,
                       input: NewInput, answer: Answer, bytes: nat): seq<SiteStep> {
    OnSite(Opening(name, request, key, j, a)) + [PutAndPublish(j, a, b, false)] +
    OnSite([Act(DoSaveCheckpoint(j, a, c))]) + OnSite(AskAndAnswer(j, a, input, answer, bytes))
  }

  lemma TwoParts(s: Site, front: seq<SiteStep>, w: World, store: set<Digest>, first: seq<Step>, second: seq<Step>, j: JobId)
    requires SiteRun(s, front) == Site(w.db, w.now, store) && NeverPublishes(first) && NeverPublishes(second)
    ensures var v := Play(Play(w, first, j), second, j);
            SiteRun(s, front + OnSite(first) + OnSite(second)) == Site(v.db, v.now, store)
  {
    SiteAppend(s, front, OnSite(first));
    SiteFollows(w, store, first, j);
    SiteAppend(s, front + OnSite(first), OnSite(second));
    SiteFollows(Play(w, first, j), store, second, j);
  }

  /** A claimed job whose worker has stored a candidate. */
  lemma StoredSite(name: string, request: Request, key: string, j: JobId, a: WorkerId, b: Bundle)
    ensures var w := Play(START, Opening(name, request, key, j, a), j);
            SiteRun(NEW_SITE, OnSite(Opening(name, request, key, j, a)) + [PutAndPublish(j, a, b, false)]) ==
            Site(w.db, w.now, {SemanticDigest(b)})
  {
    var opening := Opening(name, request, key, j, a);
    SiteFollows(START, {}, opening, j);
    SiteLast(NEW_SITE, OnSite(opening), PutAndPublish(j, a, b, false));
  }

  /** The same trace, seen from the registry. */
  lemma QueuedSite(name: string, request: Request, key: string, j: JobId, a: WorkerId, b: Bundle, c: Checkpoint,
                   input: NewInput, answer: Answer, bytes: nat)
    ensures var w := Play(START, Opening(name, request, key, j, a), j);
            var v := Play(Play(w, [Act(DoSaveCheckpoint(j, a, c))], j), AskAndAnswer(j, a, input, answer, bytes), j);
            SiteRun(NEW_SITE, QueuedTrace(name, request, key, j, a, b, c, input, answer, bytes)) ==
            Site(v.db, v.now, {SemanticDigest(b)})
  {
    var opening, save, ask := Opening(name, request, key, j, a), [Act(DoSaveCheckpoint(j, a, c))], AskAndAnswer(j, a, input, answer, bytes);
    StoredSite(name, request, key, j, a, b);
    TwoParts(NEW_SITE, OnSite(opening) + [PutAndPublish(j, a, b, false)], Play(START, opening, j), {SemanticDigest(b)}, save, ask, j);
  }

  /** The cleanup removes the candidate that the answered job's checkpoint still lists. */
  lemma QueuedJobLosesCandidate(name: string, request: Request, key: string, j: JobId, a: WorkerId, b: Bundle, c: Checkpoint,
                                input: NewInput, answer: Answer, bytes: nat)
    requires SemanticDigest(b) in c.agent.ws.candidateDigests && ValidAnswer(input.kind, answer)
    ensures var s := SiteRun(NEW_SITE, QueuedTrace(name, request, key, j, a, b, c, input, answer, bytes));
            && SavedCheckpoint(s.db, j) == Some(c) && j in s.db.jobs && Resumes(s.db.jobs[j])
            && SemanticDigest(b) in s.store && SemanticDigest(b) !in SiteNext(s, StaleCleanup).store
  {
    var w := Play(START, Opening(name, request, key, j, a), j);
    var save := Act(DoSaveCheckpoint(j, a, c));
    Opened(name, request, key, j, a);
    PlayOne(w, save, j);
    Saves(w, j, name, a, c);
    Answered(Next(w, save, j), j, name, a, c, input, answer, bytes);
    QueuedSite(name, request, key, j, a, b, c, input, answer, bytes);
    AnsweredJobIsUnprotected(SiteRun(NEW_SITE, QueuedTrace(name, request, key, j, a, b, c, input, answer, bytes)), j, SemanticDigest(b));
  }

  /** Worker a stores and saves a candidate and loses its lease; worker b takes over what a had
      saved. */
  function SuccessorTrace(name: string, request: Request, key: string, j: JobId, a: WorkerId, b: WorkerId, bundle: Bundle,
                          c: Checkpoint): seq<SiteStep> {
    OnSite(Opening(name, request, key, j, a)) + [PutAndPublish(j, a, bundle, false)] +
    OnSite([Act(DoSaveCheckpoint(j, a, c))]) + OnSite(Overtaken(j, b, c))
  }

  lemma SuccessorSite(name: string, request: Request, key: string, j: JobId, a: WorkerId, b: WorkerId, bundle: Bundle, c: Checkpoint)
    ensures var w := Play(START, Opening(name, request, key, j, a), j);
            var v := Play(Play(w, [Act(DoSaveCheckpoint(j, a, c))], j), Overtaken(j, b, c), j);
            SiteRun(NEW_SITE, SuccessorTrace(name, request, key, j, a, b, bundle, c)) == Site(v.db, v.now, {SemanticDigest(bundle)})
  {
    var opening, save := Opening(name, request, key, j, a), [Act(DoSaveCheckpoint(j, a, c))];
    StoredSite(name, request, key, j, a, bundle);
    TwoParts(NEW_SITE, OnSite(opening) + [PutAndPublish(j, a, bundle, false)], Play(START, opening, j), {SemanticDigest(bundle)},
             save, Overtaken(j, b, c), j);
  }

  /** Worker a's next write fails, and the cleanup with which it ends removes the candidate that
      the checkpoint of the running job lists. */
  lemma FencedWorkerCleansUp(name: string, request: Request, key: string, j: JobId, a: WorkerId, b: WorkerId, bundle: Bundle,
                             c: Checkpoint)
    requires a != b && SemanticDigest(bundle) in c.agent.ws.candidateDigests
    ensures var s := SiteRun(NEW_SITE, SuccessorTrace(name, request, key, j, a, b, bundle, c));
            && Owns(s.db, j, b) && SaveCheckpoint(s.db, j, a, c) == Failure(JobLeaseLost)
            && HoldsCandidate(s.db, j, SemanticDigest(bundle)) && SemanticDigest(bundle) in s.store
            && SemanticDigest(bundle) !in SiteNext(s, CandidateCleanup(j, {SemanticDigest(bundle)}, None)).store
  {
    var w := Play(START, Opening(name, request, key, j, a), j);
    var save := Act(DoSaveCheckpoint(j, a, c));
    Opened(name, request, key, j, a);
    PlayOne(w, save, j);
    Saves(w, j, name, a, c);
    OvertakenOpen(Next(w, save, j), j, name, a, b, c);
    SuccessorSite(name, request, key, j, a, b, bundle, c);
    var s := SiteRun(NEW_SITE, SuccessorTrace(name, request, key, j, a, b, bundle, c));
    OwnCleanupRemovesSuccessors(s, j, {SemanticDigest(bundle)}, SemanticDigest(bundle));
  }

  lemma NothingReferenced(db: Db, j: JobId, c: Checkpoint, d: Digest)
    requires db.runs.Keys <= {j} && db.artifacts == map[] && SavedCheckpoint(db, j) == Some(c) && c.agent.ws.candidateDigests == {}
    ensures !Referenced(db, d, None)
  {
  }

  /** A worker that has saved no candidate yet stores one; another worker starts and cleans up
      before the first publishes: the published version has no artifact. */
  lemma CleanupInsideFirstEvaluation(name: string, request: Request, key: string, j: JobId, a: WorkerId, c: Checkpoint, b: Bundle)
    requires c.agent.ws.candidateDigests == {}
    ensures var s := SiteRun(NEW_SITE, OnSite(Started(name, request, key, j, a, c)));
            var cleaned := SiteNext(s.(store := s.store + {SemanticDigest(b)}), StaleCleanup);
            var r := Publish(cleaned.db, j, a, Artifact(b), s.now);
            r.Success? && SemanticDigest(b) in r.value.artifacts && SemanticDigest(b) !in cleaned.store
  {
    var steps := Started(name, request, key, j, a, c);
    StartedOk(name, request, key, j, a, c);
    SiteFollows(START, {}, steps, j);
    var s := Site(Play(START, steps, j).db, Play(START, steps, j).now, {});
    PublishSucceeds(s.db, j, a, Artifact(b), s.now);
    NothingReferenced(s.db, j, c, SemanticDigest(b));
    CleanupInsideEvaluation(s, j, a, b);
  }

  // ---------------------------------------------------------------- traces

  /** Published, and compacted more than seven days later. */
  function ArchivedTrace(name: string, request: Request, key: string, j: JobId, a: WorkerId, c: Checkpoint,
                         artifact: PublishedArtifact): seq<Step> {
    Started(name, request, key, j, a, c) + [Act(DoPublish(j, a, artifact))] + [Tick(ARCHIVE_AGE + 1)] + [Act(DoCompact)]
  }

  /** A published job whose events have been archived. */
  predicate Archived(db: Db, j: JobId, a: WorkerId) {
    && j in db.jobs && db.jobs[j].status == Ready && db.jobs[j].worker == Some(a)
    && j in db.archives && EventsOf(db.events, j) == []
    && j in db.runs && db.runs[j].traceBytes <= TRACE_LIMIT - TERMINAL_RESERVE - EVENT_LIMIT
  }

  lemma PublishEvent(w: World, j: JobId, name: string, a: WorkerId, c: Checkpoint, artifact: PublishedArtifact)
    requires Open(w, j, name, a) && w.db.runs == map[j := Run(c, 0)]
    ensures var d := Next(w, Act(DoPublish(j, a, artifact)), j).db;
            && d.events == [Event(w.db.nextEvent, j, "candidate_validated", Whole(PUBLISH_BYTES))]
            && j in d.jobs && d.jobs[j].status == Ready && d.jobs[j].worker == Some(a) && d.jobs[j].updatedAt == w.now
            && j in d.runs && d.runs[j].traceBytes == PUBLISH_BYTES && d.archives == map[]
  {
    PublishSucceeds(w.db, j, a, artifact, w.now);
    PublishEffect(w.db, j, a, artifact, w.now);
    assert RecordedPayload(PUBLISH_BYTES, TRACE_LIMIT) == Some(Whole(PUBLISH_BYTES));
  }

  lemma OneEvent(e: Event, j: JobId)
    requires e.job == j
    ensures EventsOf([e], j) == [e]
  {
    assert [e][..0] == [];
  }

  lemma Compacts(db: Db, j: JobId, a: WorkerId, now: Time)
    requires j in db.jobs && db.jobs[j].status == Ready && db.jobs[j].worker == Some(a) && db.jobs[j].updatedAt == now - ARCHIVE_AGE - 1
    requires EventsOf(db.events, j) != [] && j in db.runs && db.runs[j].traceBytes == PUBLISH_BYTES
    ensures Archived(Compact(db, now).value, j, a)
  {
    CompactEffect(db, now, j);
  }

  predicate JustPublished(w: World, j: JobId, a: WorkerId) {
    && j in w.db.jobs && w.db.jobs[j].status == Ready && w.db.jobs[j].worker == Some(a) && w.db.jobs[j].updatedAt == w.now
    && EventsOf(w.db.events, j) != [] && j in w.db.runs && w.db.runs[j].traceBytes == PUBLISH_BYTES
  }

  lemma WeekLater(w: World, j: JobId, a: WorkerId)
    requires JustPublished(w, j, a)
    ensures Archived(Next(Next(w, Tick(ARCHIVE_AGE + 1), j), Act(DoCompact), j).db, j, a)
  {
    var v := Next(w, Tick(ARCHIVE_AGE + 1), j);
    Compacts(v.db, j, a, v.now);
    assert Attempt(v.db, v.now, DoCompact) == Compact(v.db, v.now);
  }

  lemma PublishedNow(name: string, request: Request, key: string, j: JobId, a: WorkerId, c: Checkpoint, artifact: PublishedArtifact)
    ensures JustPublished(Play(START, Started(name, request, key, j, a, c) + [Act(DoPublish(j, a, artifact))], j), j, a)
  {
    var started, publish := Started(name, request, key, j, a, c), Act(DoPublish(j, a, artifact));
    StartedOk(name, request, key, j, a, c);
    StartedRun(name, request, key, j, a, c);
    PlayLast(START, started, publish, j);
    PublishEvent(Play(START, started, j), j, name, a, c, artifact);
    OneEvent(Play(START, started + [publish], j).db.events[0], j);
  }

  lemma ArchivedRun(name: string, request: Request, key: string, j: JobId, a: WorkerId, c: Checkpoint, artifact: PublishedArtifact)
    ensures Archived(Play(START, ArchivedTrace(name, request, key, j, a, c, artifact), j).db, j, a)
  {
    var published := Started(name, request, key, j, a, c) + [Act(DoPublish(j, a, artifact))];
    PublishedNow(name, request, key, j, a, c, artifact);
    PlayLast(START, published, Tick(ARCHIVE_AGE + 1), j);
    PlayLast(START, published + [Tick(ARCHIVE_AGE + 1)], Act(DoCompact), j);
    WeekLater(Play(START, published, j), j, a);
  }

  lemma LateEvent(db: Db, j: JobId, a: WorkerId, kind: string, bytes: nat)
    requires Archived(db, j, a) && bytes <= EVENT_LIMIT
    ensures var r := AppendOwnEvent(db, j, a, kind, bytes);
            r.Success? && r.value.archives == db.archives && EventsOf(r.value.events, j) == [Event(db.nextEvent, j, kind, Whole(bytes))]
  {
    EventsOfExtends(db.events, Event(db.nextEvent, j, kind, Whole(bytes)), j);
    assert RecordedPayload(bytes, ORDINARY_LIMIT - db.runs[j].traceBytes) == Some(Whole(bytes));
  }

  /** A worker of a published job appends an event after the job's trace was archived; the next
      compaction deletes the event, and no archive has it. */
  lemma LateEventIsLost(name: string, request: Request, key: string, j: JobId, a: WorkerId, c: Checkpoint,
                        artifact: PublishedArtifact, kind: string, bytes: nat)
    requires bytes <= EVENT_LIMIT
    ensures var v := Play(START, ArchivedTrace(name, request, key, j, a, c, artifact), j);
            var r := AppendOwnEvent(v.db, j, a, kind, bytes);
            && r.Success? && EventsOf(r.value.events, j) == [Event(v.db.nextEvent, j, kind, Whole(bytes))]
            && var d := Compact(r.value, v.now).value;
               EventsOf(d.events, j) == [] && ArchiveOf(d, j) == ArchiveOf(v.db, j)
  {
    var v := Play(START, ArchivedTrace(name, request, key, j, a, c, artifact), j);
    ArchivedRun(name, request, key, j, a, c, artifact);
    LateEvent(v.db, j, a, kind, bytes);
    CompactEffect(AppendOwnEvent(v.db, j, a, kind, bytes).value, v.now, j);
  }

  // ---------------------------------------------------------------- the stable pointer

  /** Job j, registered and not yet claimed, builds this version. */
  predicate Waiting(w: World, j: JobId, k: VersionKey) {
    j in w.db.jobs && w.db.jobs[j].status == Queued && w.db.jobs[j].availableAt <= w.now && w.db.jobs[j].version == k
  }

  /** Job j is being built by worker a, with a saved run. */
  predicate Built(w: World, j: JobId, k: VersionKey, a: WorkerId) {
    Owns(w.db, j, a) && j in w.db.runs && w.db.jobs[j].version == k
  }

  function TwoRegistrations(name: string, request: Request, key1: string, key2: string, i: JobId, j: JobId): seq<Step> {
    [Act(DoRegister(name, request, key1, i)), Act(DoRegister(name, request, key2, j))]
  }

  lemma TwoRegistered(name: string, request: Request, key1: string, key2: string, i: JobId, j: JobId)
    requires i != j && key1 != key2
    ensures var w := Play(START, TwoRegistrations(name, request, key1, key2, i, j), i);
            Coherent(w.db) && Waiting(w, i, VersionKey(name, 1)) && Waiting(w, j, VersionKey(name, 2))
  {
    var first, second := Act(DoRegister(name, request, key1, i)), Act(DoRegister(name, request, key2, j));
    ReachableOk(TwoRegistrations(name, request, key1, key2, i, j), i);
    PlayOne(START, first, i);
    PlayLast(START, [first], second, i);
    assert TwoRegistrations(name, request, key1, key2, i, j) == [first] + [second];
    var w := Next(START, first, i);
    assert w == World(Registered(EMPTY, name, request, key1, i, 0), 0, NO_HISTORY);
    SecondRegistration(w, name, request, key1, key2, i, j);
  }

  lemma SecondRegistration(w: World, name: string, request: Request, key1: string, key2: string, i: JobId, j: JobId)
    requires i != j && key1 != key2 && w == World(Registered(EMPTY, name, request, key1, i, 0), 0, NO_HISTORY)
    ensures var v := Next(w, Act(DoRegister(name, request, key2, j)), i);
            Waiting(v, i, VersionKey(name, 1)) && Waiting(v, j, VersionKey(name, 2))
  {
    assert Register(w.db, name, request, key2, j, 0) == Success(Registered(w.db, name, request, key2, j, 0));
  }

  /** A claim and a save of one job leave the other as it was. */
  lemma ClaimedAndSaved(w: World, h: JobId, j: JobId, k: VersionKey, a: WorkerId, c: Checkpoint)
    requires Coherent(w.db) && Waiting(w, j, k)
    ensures var v := Next(Next(w, Act(DoClaim(j, a)), h), Act(DoSaveCheckpoint(j, a, c)), h);
            Coherent(v.db) && Built(v, j, k, a) && v.now == w.now && forall x | x != j :: SameRow(w.db, v.db, x)
  {
    var claimed := Next(w, Act(DoClaim(j, a)), h);
    assert Claim(w.db, j, a, LEASE, w.now).Success?;
    ClaimEffect(w.db, j, a, w.now);
    AttemptCoherent(w.db, w.now, DoClaim(j, a));
    var v := Next(claimed, Act(DoSaveCheckpoint(j, a, c)), h);
    AttemptCoherent(claimed.db, claimed.now, DoSaveCheckpoint(j, a, c));
    forall x | x != j ensures SameRow(w.db, v.db, x) {
      Isolation(w.db, w.now, DoClaim(j, a), x);
      Isolation(claimed.db, claimed.now, DoSaveCheckpoint(j, a, c), x);
    }
  }

  function Building(j: JobId, a: WorkerId, c: Checkpoint): seq<Step> {
    [Act(DoClaim(j, a)), Act(DoSaveCheckpoint(j, a, c))]
  }

  lemma BuildsAfter(steps: seq<Step>, h: JobId, j: JobId, k: VersionKey, a: WorkerId, c: Checkpoint)
    requires Coherent(Play(START, steps, h).db) && Waiting(Play(START, steps, h), j, k)
    ensures var w, v := Play(START, steps, h), Play(START, steps + Building(j, a, c), h);
            Coherent(v.db) && Built(v, j, k, a) && v.now == w.now && forall x | x != j :: SameRow(w.db, v.db, x)
  {
    var claim, save := Act(DoClaim(j, a)), Act(DoSaveCheckpoint(j, a, c));
    PlayLast(START, steps, claim, h);
    PlayLast(START, steps + [claim], save, h);
    assert steps + Building(j, a, c) == steps + [claim] + [save];
    ClaimedAndSaved(Play(START, steps, h), h, j, k, a, c);
  }

  function BothBuilt(name: string, request: Request, key1: string, key2: string, i: JobId, j: JobId, a: WorkerId, c: Checkpoint): seq<Step> {
    TwoRegistrations(name, request, key1, key2, i, j) + Building(i, a, c) + Building(j, a, c)
  }

  lemma BothAreBuilt(name: string, request: Request, key1: string, key2: string, i: JobId, j: JobId, a: WorkerId, c: Checkpoint)
    requires i != j && key1 != key2
    ensures var w := Play(START, BothBuilt(name, request, key1, key2, i, j, a, c), i);
            Coherent(w.db) && Built(w, i, VersionKey(name, 1), a) && Built(w, j, VersionKey(name, 2), a)
  {
    var steps := TwoRegistrations(name, request, key1, key2, i, j);
    TwoRegistered(name, request, key1, key2, i, j);
    BuildsAfter(steps, i, i, VersionKey(name, 1), a, c);
    assert SameRow(Play(START, steps, i).db, Play(START, steps + Building(i, a, c), i).db, j);
    BuildsAfter(steps + Building(i, a, c), i, j, VersionKey(name, 2), a, c);
    assert SameRow(Play(START, steps + Building(i, a, c), i).db, Play(START, steps + Building(i, a, c) + Building(j, a, c), i).db, i);
  }

  lemma PublishesLater(db: Db, i: JobId, j: JobId, name: string, a: WorkerId, artifact: PublishedArtifact, now: Time)
    requires Coherent(db) && i != j && Owns(db, i, a) && Owns(db, j, a) && i in db.runs && j in db.runs
    requires db.jobs[i].version == VersionKey(name, 1) && db.jobs[j].version == VersionKey(name, 2)
    ensures var r := Publish(db, j, a, artifact, now);
            && r.Success? && Coherent(r.value) && ReadyAt(r.value, name, 2)
            && Owns(r.value, i, a) && i in r.value.runs && r.value.jobs[i].version == VersionKey(name, 1)
  {
    PublishSucceeds(db, j, a, artifact, now);
    PublishCoherent(db, j, a, artifact, now);
    PublishIsolated(db, j, a, artifact, now, i);
    Revisions.PublishedReady(db, Publish(db, j, a, artifact, now).value, j, a, artifact, now);
  }

  /** Two revisions of one tool; the second is published first, and then the first: the tool
      points at revision 1 although revision 2 is ready. */
  lemma StablePointerGoesBack(name: string, request: Request, key1: string, key2: string, i: JobId, j: JobId, a: WorkerId,
                              c: Checkpoint, artifact: PublishedArtifact)
    requires i != j && key1 != key2
    ensures var w := Play(START, BothBuilt(name, request, key1, key2, i, j, a, c), i);
            var second := Publish(w.db, j, a, artifact, w.now);
            && second.Success?
            && var first := Publish(second.value, i, a, artifact, w.now);
               && first.Success? && name in first.value.tools
               && first.value.tools[name].stable == Some(1) && ReadyAt(first.value, name, 2)
  {
    var w := Play(START, BothBuilt(name, request, key1, key2, i, j, a, c), i);
    BothAreBuilt(name, request, key1, key2, i, j, a, c);
    PublishesLater(w.db, i, j, name, a, artifact, w.now);
    var db := Publish(w.db, j, a, artifact, w.now).value;
    PublishSucceeds(db, i, a, artifact, w.now);
    var d := Publish(db, i, a, artifact, w.now).value;
    Revisions.PublishedPointerIsGreatestExactly(db, d, i, a, artifact, w.now);
    Revisions.PublishedReady(db, d, i, a, artifact, w.now);
  }
}
