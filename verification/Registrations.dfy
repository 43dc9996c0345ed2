/** Where a job and its version come from, and what a resolved tool therefore is: over every run of
    registry and processes. */
module Registrations {
  import opened Wrappers
  import opened ArtifactTypes
  import opened AgentTypes
  import opened Schema
  import opened Transactions
  import opened Coherence
  import opened Commits
  import opened Histories
  import opened Processes
  import opened Provenance
  import opened PublicationGate
  import opened Lineage
  import opened ToolCalls
  import Outcomes
  import Revisions

  /** Move n registered job j, under a new key, for this request, as the next revision k of its
      tool. */
  ghost predicate RegisteredAt(env: Env, moves: seq<Move>, n: nat, j: JobId, k: VersionKey, request: Request) {
    && n < |moves| && moves[n].Other? && moves[n].action.DoRegister?
    && var a, db := moves[n].action, Before(env, moves, n).db;
       && a.newJob == j && a.name == k.tool && a.request == request
       && j !in db.jobs && a.key !in db.jobByKey
       && k.revision == 1 + if k.tool in db.tools then db.tools[k.tool].latest else 0
  }

  lemma NewJobRegistered(db: Db, now: Time, a: Action, j: JobId)
    requires Coherent(db) && Attempt(db, now, a).Success? && j !in db.jobs && j in Attempt(db, now, a).value.jobs
    ensures a.DoRegister? && a.newJob == j && a.key !in db.jobByKey
    ensures var d := Attempt(db, now, a).value; var k := d.jobs[j].version;
            && k == VersionKey(a.name, 1 + if a.name in db.tools then db.tools[a.name].latest else 0)
            && k in d.versions && d.versions[k].request == a.request
  {
    if JobOf(a) != Some(j) { Isolation(db, now, a, j); }
    OnlyRegistersUnknown(db, now, a, j);
    RegisterCommits(db, a.name, a.request, a.key, j, now);
  }

  lemma OnlyRegistersUnknown(db: Db, now: Time, a: Action, j: JobId)
    requires Attempt(db, now, a).Success? && j !in db.jobs && JobOf(a) == Some(j)
    ensures a.DoRegister?
  {
  }

  lemma JobComesFrom(env: Env, front: seq<Move>, m: Move, j: JobId)
    requires j in Moves(env, IDLE, front + [m]).db.jobs && j !in Moves(env, IDLE, front).db.jobs
    ensures var db := Moves(env, IDLE, front + [m]).db;
            TaskOf(db, j).Some? && RegisteredAt(env, front + [m], |front|, j, db.jobs[j].version, TaskOf(db, j).value)
  {
    var s := Moves(env, IDLE, front);
    MovesExtend(env, front, m);
    MovesGood(env, front);
    MoveIsAction(env, s, m);
    var a := ActionOf(env, s, m).value;
    NewJobRegistered(s.db, s.now, a, j);
    RegistrationIsFree(env, s, m, a);
    assert (front + [m])[..|front|] == front;
  }

  lemma RegistrationIsFree(env: Env, s: Sys, m: Move, a: Action)
    requires ActionOf(env, s, m) == Some(a) && a.DoRegister?
    ensures m == Other(a)
  {
  }

  /** In every run every job was registered by a move of the run, for the very request and as the
      very version that it has now. */
  lemma {:induction false} EveryJobWasRegistered(env: Env, moves: seq<Move>, j: JobId)
    requires j in Moves(env, IDLE, moves).db.jobs
    ensures var db := Moves(env, IDLE, moves).db;
            TaskOf(db, j).Some? && exists n: nat :: RegisteredAt(env, moves, n, j, db.jobs[j].version, TaskOf(db, j).value)
  {
    if moves != [] {
      var front, m := moves[..|moves| - 1], moves[|moves| - 1];
      assert moves == front + [m];
      if j in Moves(env, IDLE, front).db.jobs {
        EveryJobWasRegistered(env, front, j);
        var db := Moves(env, IDLE, front).db;
        var n: nat :| RegisteredAt(env, front, n, j, db.jobs[j].version, TaskOf(db, j).value);
        JobStays(env, front, m, j);
        SamePast(env, front, m, n);
        assert RegisteredAt(env, moves, n, j, db.jobs[j].version, TaskOf(db, j).value);
      } else {
        JobComesFrom(env, front, m, j);
      }
    }
  }

  lemma JobStays(env: Env, front: seq<Move>, m: Move, j: JobId)
    requires j in Moves(env, IDLE, front).db.jobs && TaskOf(Moves(env, IDLE, front).db, j).Some?
    ensures var db, d := Moves(env, IDLE, front).db, Moves(env, IDLE, front + [m]).db;
            j in d.jobs && d.jobs[j].version == db.jobs[j].version && TaskOf(d, j) == TaskOf(db, j)
  {
    var s := Moves(env, IDLE, front);
    MovesExtend(env, front, m);
    MovesGood(env, front);
    MoveIsAction(env, s, m);
    var a := ActionOf(env, s, m);
    if a.Some? && Attempt(s.db, s.now, a.value).Success? {
      Revisions.IdentityKept(s.db, s.now, a.value, j);
      TaskKept(s.db, s.now, a.value, j);
    }
  }

  /** Move n published revision k for the job that move m had registered: the answer has the digest
      of the bundle that was published there, and the formats of the request registered here. */
  ghost predicate GoesBack(env: Env, moves: seq<Move>, k: VersionKey, r: ResolvedTool, m: nat, n: nat, w: Witness) {
    var e := Moves(env, IDLE, moves).evidence;
    && k in e && r.revision == k.revision
    && PublishedFrom(env, moves, n, k, e[k], w)
    && RegisteredAt(env, moves, m, moves[n].job, k, e[k].task) && m < n
    && r.digest == SemanticDigest(e[k].bundle)
    && r.inputFormat == e[k].task.inputFormat && r.outputFormat == e[k].task.outputFormat
  }

  /** In every run a resolved revision was published by a tool call of the run, for the job that was
      registered for it; its digest is that of the bundle of that very call, and its formats are
      those of the registered request. */
  lemma ResolvedGoesBack(env: Env, moves: seq<Move>, tool: string, requested: Option<nat>)
    requires ResolveTool(Moves(env, IDLE, moves).db, tool, requested).Success?
    ensures var db := Moves(env, IDLE, moves).db; var at := Revisions.Wanted(db, tool, requested);
            at.Some? && exists m: nat, n: nat, w ::
              GoesBack(env, moves, VersionKey(tool, at.value), ResolveTool(db, tool, requested).value, m, n, w)
  {
    var s := Moves(env, IDLE, moves);
    MovesGood(env, moves);
    Revisions.ResolvesExactly(s.db, tool, requested);
    var k := VersionKey(tool, Revisions.Wanted(s.db, tool, requested).value);
    PublishedRestsOnEvidence(env, moves, k);
    var n: nat, w :| PublishedFrom(env, moves, n, k, s.evidence[k], w);
    PublisherRegistered(env, moves, n, k, s.evidence[k]);
    var m: nat :| RegisteredAt(env, moves, m, moves[n].job, k, s.evidence[k].task) && m < n;
    BackedAnswer(s.db, k, s.evidence[k], ResolveTool(s.db, tool, requested).value);
    assert GoesBack(env, moves, k, ResolveTool(s.db, tool, requested).value, m, n, w);
  }

  lemma BackedAnswer(db: Db, k: VersionKey, e: Evidence, r: ResolvedTool)
    requires Backs(db, k, e) && Revisions.Answers(db, k, r)
    ensures r.revision == k.revision && r.digest == SemanticDigest(e.bundle)
    ensures r.inputFormat == e.task.inputFormat && r.outputFormat == e.task.outputFormat
  {
  }

  /** The evidence of a publication is that of its own call: the bundle is made of the workspace the
      call left, and the results are those its sandbox gave, one for each sample and each test. */
  lemma EvidenceIsItsCalls(env: Env, moves: seq<Move>, n: nat, k: VersionKey, e: Evidence)
    requires PublishedAt(env, moves, n, k, e)
    ensures var j := moves[n].job; var r, o := ResultAt(env, moves, n, j), moves[n].oracle;
            && r.execution == Published(e.bundle) && Outcomes.Ready(r.ws) && Outcomes.MadeOf(e.task, r.ws, e.bundle)
            && |e.sampleResults| == |e.task.inputSamples| && |e.testResults| == |e.bundle.tests|
            && (forall x | 0 <= x < |e.sampleResults| :: e.sampleResults[x] == o.sampleRuns(x))
            && (forall x | 0 <= x < |e.testResults| :: e.testResults[x] == o.testRuns(x))
            && r.audit.accepted == Some(e.accepted) && r.audit.acceptedReview == Some(e.review)
            && r.audit.approved == e.approved && r.audit.changes == e.changes
  {
    ResultIsMadeOf(env, moves, n, moves[n].job);
    EvidenceContents(TaskAt(env, moves, n, moves[n].job), ResultAt(env, moves, n, moves[n].job), moves[n].oracle);
  }

  lemma ResultIsMadeOf(env: Env, moves: seq<Move>, n: nat, j: JobId)
    requires ToolAt(env, moves, n, j) && ResultAt(env, moves, n, j).execution.Published?
    ensures var r := ResultAt(env, moves, n, j);
            Outcomes.Ready(r.ws) && Outcomes.MadeOf(TaskAt(env, moves, n, j), r.ws, r.execution.bundle)
  {
    var a := ActorAt(env, moves, n, j);
    Outcomes.PublishedIsMadeOf(env, TaskAt(env, moves, n, j), a.ws, a.audit, a.pending.value.call, moves[n].oracle);
  }

  lemma EvidenceContents(task: Request, r: Outcome, o: Oracle)
    requires r.execution.Published? && r.audit.accepted.Some? && r.audit.acceptedReview.Some?
    ensures var e := EvidenceOf(task, r, o);
            && e.task == task && e.bundle == r.execution.bundle
            && |e.sampleResults| == |task.inputSamples| && |e.testResults| == |e.bundle.tests|
            && (forall x | 0 <= x < |e.sampleResults| :: e.sampleResults[x] == o.sampleRuns(x))
            && (forall x | 0 <= x < |e.testResults| :: e.testResults[x] == o.testRuns(x))
            && r.audit.accepted == Some(e.accepted) && r.audit.acceptedReview == Some(e.review)
            && r.audit.approved == e.approved && r.audit.changes == e.changes
  {
  }

  /** The job that published was registered before, for the request of its evidence. */
  lemma PublisherRegistered(env: Env, moves: seq<Move>, n: nat, k: VersionKey, e: Evidence)
    requires PublishedAt(env, moves, n, k, e)
    ensures exists m: nat :: RegisteredAt(env, moves, m, moves[n].job, k, e.task) && m < n
  {
    PublisherOf(env, moves, n, k, e);
    EveryJobWasRegistered(env, moves[..n], moves[n].job);
    var m: nat :| RegisteredAt(env, moves[..n], m, moves[n].job, k, e.task);
    RegisteredBefore(env, moves, n, m, moves[n].job, k, e.task);
  }

  lemma PublisherOf(env: Env, moves: seq<Move>, n: nat, k: VersionKey, e: Evidence)
    requires PublishedAt(env, moves, n, k, e)
    ensures var j, db := moves[n].job, Before(env, moves, n).db;
            j in db.jobs && db.jobs[j].version == k && TaskOf(db, j) == Some(e.task)
  {
  }

  lemma RegisteredBefore(env: Env, moves: seq<Move>, n: nat, m: nat, j: JobId, k: VersionKey, request: Request)
    requires n <= |moves| && RegisteredAt(env, moves[..n], m, j, k, request)
    ensures RegisteredAt(env, moves, m, j, k, request) && m < n
  {
    assert moves[..n][..m] == moves[..m] && moves[..n][m] == moves[m];
  }
}
