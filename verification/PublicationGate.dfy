/** What stands behind a published bundle (jobs.rs, evaluate_after_mutation). */
module PublicationGate {
  import opened Wrappers
  import opened ArtifactTypes
  import opened AgentTypes
  import opened JsonValues
  import opened ToolCalls
  import opened PlanIntegrity

  // ---------------------------------------------------------------- what a run must show

  /** A sample was run to success and printed what the output format allows. */
  ghost predicate ServesSample(env: Env, format: IoFormat, r: RunResult) {
    && r.Ran? && r.exitCode == 0
    && (format == JsonFormat ==> env.parse(r.stdout).Some?) && (format == TextFormat ==> env.isUtf8(r.stdout))
  }

  /** A test was run, ended with the expected exit code, and printed the expected text, or for
      JSON a text of the same meaning. */
  ghost predicate MeetsTest(env: Env, format: IoFormat, test: TestCase, r: RunResult) {
    && r.Ran? && r.exitCode == test.expectedExitCode
    && Meets(env.parse, format, test.expectedExitCode, test.expectedStdout, r.stdout)
  }

  lemma SamplePassesExactly(env: Env, format: IoFormat, r: RunResult)
    ensures SamplePasses(env, format, r) <==> ServesSample(env, format, r)
  {
  }

  lemma TestPassesExactly(env: Env, format: IoFormat, test: TestCase, r: RunResult)
    ensures TestPasses(env, format, test, r) <==> MeetsTest(env, format, test, r)
  {
    if r.Ran? { OutputAcceptedExactly(env.parse, format, test.expectedExitCode, test.expectedStdout, r.stdout); }
  }

  // ---------------------------------------------------------------- the validation loops

  method ValidateInputSamples(env: Env, format: IoFormat, count: nat, runs: nat -> RunResult)
    returns (failure: Option<Snapshot>)
    ensures failure == SampleFailure(env, format, count, runs, 0)
    ensures failure.None? <==> forall k | 0 <= k < count :: ServesSample(env, format, runs(k))
  {
    FirstSampleFailure(env, format, count, runs, 0);
    var i := 0;
    while i < count
      invariant i <= count
      invariant SampleFailure(env, format, count, runs, 0) == SampleFailure(env, format, count, runs, i)
    {
      if !SamplePasses(env, format, runs(i)) {
        return Some(Snapshot(SampleNamed(i + 1), SampleOrigin, ExitOf(runs(i))));
      }
      i := i + 1;
    }
    return None;
  }

  method ValidateTests(env: Env, format: IoFormat, draft: Draft, runs: nat -> RunResult)
    returns (failure: Option<Snapshot>)
    ensures failure == TestFailure(env, format, draft, runs, 0)
    ensures failure.None? <==> forall k | 0 <= k < |draft.tests| :: MeetsTest(env, format, draft.tests[k], runs(k))
  {
    FirstTestFailure(env, format, draft, runs, 0);
    var i := 0;
    while i < |draft.tests|
      invariant i <= |draft.tests|
      invariant TestFailure(env, format, draft, runs, 0) == TestFailure(env, format, draft, runs, i)
    {
      var origin := if i < draft.userTestCount then UserOrigin else GeneratedOrigin;
      if !TestPasses(env, format, draft.tests[i], runs(i)) {
        return Some(Snapshot(TestNamed(draft.tests[i].name), origin, ExitOf(runs(i))));
      }
      i := i + 1;
    }
    return None;
  }

  /** Validation reports nothing exactly when every sample passes; otherwise it reports the
      first sample that fails. */
  lemma {:induction false} FirstSampleFailure(env: Env, format: IoFormat, count: nat, runs: nat -> RunResult, i: nat)
    requires i <= count
    ensures var f := SampleFailure(env, format, count, runs, i);
            if f.None? then forall k | i <= k < count :: ServesSample(env, format, runs(k))
            else exists k | i <= k < count ::
              && !ServesSample(env, format, runs(k))
              && (forall j | i <= j < k :: ServesSample(env, format, runs(j)))
              && f.value == Snapshot(SampleNamed(k + 1), SampleOrigin, if runs(k).Ran? then Some(runs(k).exitCode) else None)
    decreases count - i
  {
    if i < count {
      SamplePassesExactly(env, format, runs(i));
      if SamplePasses(env, format, runs(i)) { FirstSampleFailure(env, format, count, runs, i + 1); }
    }
  }

  /** Validation reports nothing exactly when every test passes; otherwise it reports the
      first test that fails, as a user test exactly when it is one. */
  lemma {:induction false} FirstTestFailure(env: Env, format: IoFormat, draft: Draft, runs: nat -> RunResult, i: nat)
    requires i <= |draft.tests|
    ensures var f := TestFailure(env, format, draft, runs, i);
            if f.None? then forall k | i <= k < |draft.tests| :: MeetsTest(env, format, draft.tests[k], runs(k))
            else exists k | i <= k < |draft.tests| ::
              && !MeetsTest(env, format, draft.tests[k], runs(k))
              && (forall j | i <= j < k :: MeetsTest(env, format, draft.tests[j], runs(j)))
              && f.value.name == TestNamed(draft.tests[k].name)
              && f.value.origin == (if k < draft.userTestCount then UserOrigin else GeneratedOrigin)
              && f.value.exitCode == (if runs(k).Ran? then Some(runs(k).exitCode) else None)
    decreases |draft.tests| - i
  {
    if i < |draft.tests| {
      TestPassesExactly(env, format, draft.tests[i], runs(i));
      if TestPasses(env, format, draft.tests[i], runs(i)) { FirstTestFailure(env, format, draft, runs, i + 1); }
    }
  }

  // ---------------------------------------------------------------- evidence

  datatype Evidence = Evidence(
    task: Request,
    bundle: Bundle,
    accepted: Draft,
    review: Review,
    approved: map<nat, Correction>,
    changes: seq<OracleChange>,
    sampleResults: seq<RunResult>,
    testResults: seq<RunResult>)

  /** The bundle's source passed every sample and every test; its contract is the accepted one;
      its tests are the accepted ones up to user-approved corrections of user tests and at
      most three verifier changes of the others. */
  ghost predicate Supports(env: Env, e: Evidence) {
    var b, format := e.bundle, e.task.outputFormat;
    && |e.sampleResults| == |e.task.inputSamples|
    && (forall k | 0 <= k < |e.sampleResults| :: ServesSample(env, format, e.sampleResults[k]))
    && |e.testResults| == |b.tests| && b.tests != []
    && (forall k | 0 <= k < |b.tests| :: MeetsTest(env, format, b.tests[k], e.testResults[k]))
    && e.review.decision == Accept
    && GoodCorrections(e.task, e.approved)
    && FollowsPlan(e.task, Draft(b.contract, b.tests, |e.task.examples|), e.accepted, e.approved, e.changes)
    && |e.changes| <= MAX_GENERATED_TEST_CORRECTIONS
    && b.manifest.sourceHash == SourceHash(b.source) && ValidSource(b.source)
    && b.manifest.outputFormat == format && b.manifest.inputFormat == e.task.inputFormat
    && DistinctHashes(b.manifest.grants)
    && b.validation.testsTotal == b.validation.testsPassed == |b.tests|
    && b.validation.inputSamplesTotal == b.validation.inputSamplesPassed == |e.task.inputSamples|
    && b.validation.generatedTestCorrections == |e.changes|
    && b.validation.repairRounds < MAX_SOURCE_REVISIONS && b.validation.probesRun <= MAX_PROBES
  }

  /** The evidence an outcome leaves behind, when it published. */
  ghost function EvidenceOf(task: Request, r: Outcome, o: Oracle): Evidence
    requires r.execution.Published? && r.audit.accepted.Some? && r.audit.acceptedReview.Some?
  {
    var b := r.execution.bundle;
    Evidence(task, b, r.audit.accepted.value, r.audit.acceptedReview.value, r.audit.approved, r.audit.changes,
             seq(|task.inputSamples|, k requires 0 <= k < |task.inputSamples| => o.sampleRuns(k)),
             seq(|b.tests|, k requires 0 <= k < |b.tests| => o.testRuns(k)))
  }

  /** The bundle is the candidate of the workspace left behind, and its validation was clean. */
  ghost predicate CleanCandidate(env: Env, task: Request, r: Outcome, o: Oracle) {
    r.execution.Published? ==>
      && r.ws.draft.Some? && r.ws.source.Some?
      && r.execution.bundle == CandidateBundle(task, r.ws, r.ws.draft.value, r.ws.source.value, o.now)
      && ValidationFailure(env, task, r.ws.draft.value, o).None?
      && o.publishOk && r.ws.currentDigest == Some(SemanticDigest(r.execution.bundle))
  }

  lemma EvaluateClean(env: Env, task: Request, ws: Workspace, audit: Audit, o: Oracle)
    ensures CleanCandidate(env, task, Evaluate(env, task, ws, audit, o), o)
  {
  }

  /** Only the four calls that change source, tests or expectations can publish, and each of
      them publishes through the same evaluation. */
  lemma ExecuteClean(env: Env, task: Request, ws: Workspace, audit: Audit, c: Call, o: Oracle)
    ensures CleanCandidate(env, task, Execute(env, task, ws, audit, c, o), o)
  {
    forall w: Workspace, a: Audit ensures CleanCandidate(env, task, Evaluate(env, task, w, a, o), o) {
      EvaluateClean(env, task, w, a, o);
    }
  }

  /** Whatever the model, the reviewer, the verifier, the sandbox and the user do, a published
      bundle is supported by its evidence. */
  lemma PublishedIsSupported(env: Env, task: Request, ws: Workspace, audit: Audit, c: Call, o: Oracle)
    requires AgentOk(task, ws, audit) && Advertised(ws, c)
    requires Execute(env, task, ws, audit, c, o).execution.Published?
    ensures var r := Execute(env, task, ws, audit, c, o);
            && r.audit.accepted.Some? && r.audit.acceptedReview.Some?
            && Supports(env, EvidenceOf(task, r, o))
    ensures var b := Execute(env, task, ws, audit, c, o).execution.bundle;
            && (forall k | 0 <= k < |task.inputSamples| :: ServesSample(env, task.outputFormat, o.sampleRuns(k)))
            && (forall k | 0 <= k < |b.tests| :: MeetsTest(env, task.outputFormat, b.tests[k], o.testRuns(k)))
  {
    var r := Execute(env, task, ws, audit, c, o);
    ExecuteKeeps(env, task, ws, audit, c, o);
    ExecuteClean(env, task, ws, audit, c, o);
    var draft := r.ws.draft.value;
    FirstSampleFailure(env, task.outputFormat, |task.inputSamples|, o.sampleRuns, 0);
    FirstTestFailure(env, task.outputFormat, draft, o.testRuns, 0);
    assert Draft(draft.contract, draft.tests, |task.examples|) == draft;
  }

  // ---------------------------------------------------------------- how far tests can drift

  ghost function ChangedIndices(changes: seq<OracleChange>): set<nat> {
    set k | 0 <= k < |changes| :: changes[k].index
  }

  lemma {:induction false} FewIndices(changes: seq<OracleChange>)
    ensures |ChangedIndices(changes)| <= |changes|
  {
    if changes != [] {
      var front := changes[..|changes| - 1];
      FewIndices(front);
      assert ChangedIndices(changes) == ChangedIndices(front) + {changes[|changes| - 1].index} by {
        forall x | x in ChangedIndices(changes) ensures x in ChangedIndices(front) + {changes[|changes| - 1].index} {
          var k :| 0 <= k < |changes| && changes[k].index == x;
          if k < |front| { assert front[k].index == x; }
        }
        forall x | x in ChangedIndices(front) ensures x in ChangedIndices(changes) {
          var k :| 0 <= k < |front| && front[k].index == x;
          assert changes[k].index == x;
        }
      }
    }
  }

  lemma {:induction false} UnchangedUnlessListed(t: TestCase, i: nat, changes: seq<OracleChange>)
    ensures i !in ChangedIndices(changes) ==> Revised(t, i, changes) == t
    ensures var r := Revised(t, i, changes);
            r.name == t.name && r.args == t.args && r.stdin == t.stdin && r.fixtures == t.fixtures
  {
    if changes != [] {
      var front := changes[..|changes| - 1];
      UnchangedUnlessListed(t, i, front);
      if i !in ChangedIndices(changes) {
        assert changes[|changes| - 1].index != i;
        forall k | 0 <= k < |front| ensures front[k].index != i {
          assert changes[k].index != i;
        }
      }
    }
  }

  /** In a supported bundle at most three generated tests differ from the accepted plan, and
      those only in what they expect; the inputs, arguments and fixtures are the accepted ones. */
  lemma AtMostThreeGeneratedTestsDiffer(env: Env, e: Evidence)
    requires Supports(env, e)
    ensures |ChangedIndices(e.changes)| <= 3
    ensures forall i | |e.task.examples| <= i < |e.bundle.tests| ::
              var now, was := e.bundle.tests[i], e.accepted.tests[i];
              && (i !in ChangedIndices(e.changes) ==> now == was)
              && now.name == was.name && now.args == was.args && now.stdin == was.stdin && now.fixtures == was.fixtures
  {
    FewIndices(e.changes);
    forall i | |e.task.examples| <= i < |e.bundle.tests|
      ensures (i !in ChangedIndices(e.changes) ==> e.bundle.tests[i] == e.accepted.tests[i])
    {
      UnchangedUnlessListed(e.accepted.tests[i], i, e.changes);
    }
    forall i | |e.task.examples| <= i < |e.bundle.tests|
      ensures var now, was := e.bundle.tests[i], e.accepted.tests[i];
              now.name == was.name && now.args == was.args && now.stdin == was.stdin && now.fixtures == was.fixtures
    {
      UnchangedUnlessListed(e.accepted.tests[i], i, e.changes);
    }
  }

  /** The test a review changes is the one the latest failure is about: names are unique. */
  lemma ReviewedTestIsUnique(task: Request, ws: Workspace, audit: Audit, name: TestName)
    requires AgentOk(task, ws, audit) && ReviewedTest(ws, name).Some?
    ensures var at := ReviewedTest(ws, name).value; var tests := ws.draft.value.tests;
            && |task.examples| <= at < |tests| && tests[at].name == name
            && ws.latestFailure.value.name == TestNamed(name)
            && forall k | 0 <= k < |tests| && tests[k].name == name :: k == at
  {
    FindTestFinds(ws.draft.value.tests, name, ws.draft.value.userTestCount);
  }
}
