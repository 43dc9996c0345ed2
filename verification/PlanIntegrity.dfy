/** What every tool call keeps of the workspace: the accepted test plan, the budgets and the
    approved capabilities. */
module PlanIntegrity {
  import opened Wrappers
  import opened ArtifactTypes
  import opened AgentTypes
  import opened ToolCalls

  // ---------------------------------------------------------------- the test plan

  /** User test i carries the registered example, or its approved correction. */
  predicate IsUserTest(task: Request, corrections: map<nat, Correction>, i: nat, t: TestCase)
    requires i < |task.examples|
  {
    var e := EffectiveExample(task, corrections, i);
    t.name == UserExample(i + 1) && t.args == [] && t.stdin == e.input && t.expectedStdout == e.output && t.expectedExitCode == 0
  }

  /** The last change the verifier made to test i, or the accepted expectation. */
  function Revised(t: TestCase, i: nat, changes: seq<OracleChange>): TestCase {
    if changes == [] then t
    else
      var last := changes[|changes| - 1];
      if last.index == i then WithOracle(Revised(t, i, changes[..|changes| - 1]), last.stdout, last.exitCode)
      else Revised(t, i, changes[..|changes| - 1])
  }

  /** The current tests differ from the accepted ones only where the user approved a
      correction (user tests) and where the verifier changed an expectation (the rest). */
  ghost predicate FollowsPlan(task: Request, draft: Draft, accepted: Draft, corrections: map<nat, Correction>,
                              changes: seq<OracleChange>)
  {
    var n := |task.examples|;
    && draft.contract == accepted.contract
    && draft.userTestCount == accepted.userTestCount == n
    && n <= |draft.tests| == |accepted.tests| && draft.tests != []
    && (forall i | 0 <= i < n :: IsUserTest(task, corrections, i, draft.tests[i]))
    && (forall i | 0 <= i < n :: draft.tests[i].fixtures == accepted.tests[i].fixtures)
    && (forall i | n <= i < |draft.tests| :: draft.tests[i] == Revised(accepted.tests[i], i, changes))
    && (forall k | 0 <= k < |changes| :: n <= changes[k].index < |draft.tests|)
  }

  /** Test names identify tests: a review changes the very test that failed. */
  ghost predicate NamedByIndex(task: Request, tests: seq<TestCase>) {
    && (forall i | 0 <= i < |task.examples| && i < |tests| :: tests[i].name == UserExample(i + 1))
    && (forall i | |task.examples| <= i < |tests| ::
          tests[i].name.Generated? && tests[i].name.index == i - |task.examples| + 1)
  }

  ghost predicate GoodCorrections(task: Request, corrections: map<nat, Correction>) {
    forall i | i in corrections ::
      && i < |task.examples|
      && corrections[i].exampleIndex == i + 1
      && corrections[i].original == task.examples[i]
      && corrections[i].corrected != task.examples[i]
  }

  // ---------------------------------------------------------------- the invariant

  ghost predicate DistinctHashes(caps: seq<Grant>) {
    forall i, j | 0 <= i < j < |caps| :: caps[i].approvalHash != caps[j].approvalHash
  }

  ghost predicate CapabilitiesOk(ws: Workspace) {
    && |ws.httpCapabilities| <= MAX_HTTP_CAPABILITIES
    && DistinctHashes(ws.httpCapabilities)
    && (forall i | 0 <= i < |ws.httpCapabilities| ::
          ws.httpCapabilities[i].approvalHash == HashCapability(ws.httpCapabilities[i].capability))
    && RecordsHeld(ws.httpProbeRecords, ws.httpCapabilities)
  }

  /** Every recorded response came from a source that is still approved for this task. */
  predicate RecordsHeld(records: seq<ProbeRecord>, caps: seq<Grant>) {
    forall i | 0 <= i < |records| :: HoldsHash(caps, records[i].capabilityHash)
  }

  ghost predicate BudgetsOk(ws: Workspace) {
    var m := ws.metrics;
    && m.sourceRevisions <= MAX_SOURCE_REVISIONS
    && m.generatedTestCorrections <= MAX_GENERATED_TEST_CORRECTIONS
    && m.probesRun == |ws.probeResults| && m.probesRun <= MAX_PROBES
    && m.webSearches <= MAX_WEB_SEARCHES
    && m.documentsFetched <= MAX_DOCUMENT_FETCHES
    && m.httpProbes <= MAX_HTTP_PROBES
  }

  /** Contract before source before candidate. */
  ghost predicate PhasesOk(ws: Workspace) {
    && (ws.source.Some? <==> ws.metrics.sourceRevisions > 0)
    && (ws.source.Some? ==> ws.draft.Some? && ValidSource(ws.source.value))
    && (ws.currentDigest.Some? ==> ws.source.Some? && ws.currentDigest.value in ws.candidateDigests)
    && (ws.draft.None? ==> ws.metrics.generatedTestCorrections == 0)
  }

  ghost predicate PlanOk(task: Request, ws: Workspace, audit: Audit) {
    && GoodCorrections(task, ws.corrections)
    && audit.approved == ws.corrections
    && (ws.draft.Some? <==> audit.accepted.Some?)
    && (ws.draft.Some? ==>
          && audit.acceptedReview.Some? && audit.acceptedReview.value in ws.reviews
          && audit.acceptedReview.value.decision == Accept
          && FollowsPlan(task, ws.draft.value, audit.accepted.value, ws.corrections, audit.changes)
          && NamedByIndex(task, ws.draft.value.tests)
          && |audit.changes| == ws.metrics.generatedTestCorrections)
  }

  ghost predicate AgentOk(task: Request, ws: Workspace, audit: Audit) {
    BudgetsOk(ws) && PhasesOk(ws) && PlanOk(task, ws, audit) && CapabilitiesOk(ws)
  }

  lemma FreshAgentOk(task: Request)
    ensures AgentOk(task, EMPTY_WORKSPACE, EMPTY_AUDIT)
  {
  }

  /** What the plan depends on. */
  ghost predicate SamePlan(ws: Workspace, ws': Workspace) {
    && ws'.draft == ws.draft && ws'.corrections == ws.corrections
    && (forall r | r in ws.reviews :: r in ws'.reviews)
    && ws'.metrics.generatedTestCorrections == ws.metrics.generatedTestCorrections
  }

  lemma SamePlanKeeps(task: Request, ws: Workspace, ws': Workspace, audit: Audit)
    requires PlanOk(task, ws, audit) && SamePlan(ws, ws')
    ensures PlanOk(task, ws', audit)
  {
  }

  // ---------------------------------------------------------------- evaluation

  /** A candidate changes nothing the plan depends on. */
  lemma EvaluateKeeps(env: Env, task: Request, ws: Workspace, audit: Audit, o: Oracle)
    requires AgentOk(task, ws, audit)
    ensures var r := Evaluate(env, task, ws, audit, o);
            AgentOk(task, r.ws, r.audit) && r.ws.metrics == ws.metrics
  {
    var ws' := Evaluate(env, task, ws, audit, o).ws;
    assert SamePlan(ws, ws');
    SamePlanKeeps(task, ws, ws', audit);
  }

  // ---------------------------------------------------------------- contract and source

  /** A generated test is what the model proposed, but for its name. */
  predicate IsProposal(t: TestCase, p: ProposedTest) {
    && t.args == p.args && t.stdin == p.stdin && t.fixtures == p.fixtures
    && t.expectedStdout == p.expectedStdout && t.expectedExitCode == p.expectedExitCode
  }

  /** A built draft carries every registered example or its approved correction, on the
      recorded responses, then at most twelve proposed tests, and all of them are valid. */
  lemma BuiltDraftFollows(env: Env, task: Request, ws: Workspace, contract: Contract, proposed: seq<ProposedTest>)
    requires BuildDraft(env, task, ws, contract, proposed).Some?
    ensures var d := BuildDraft(env, task, ws, contract, proposed).value; var n := |task.examples|;
            && FollowsPlan(task, d, d, ws.corrections, []) && NamedByIndex(task, d.tests)
            && |d.tests| == n + (if |proposed| <= MAX_GENERATED_TESTS then |proposed| else MAX_GENERATED_TESTS)
            && (forall i | 0 <= i < n :: d.tests[i].fixtures == RecordsToFixtures(ws.httpProbeRecords))
            && (forall i | n <= i < |d.tests| :: IsProposal(d.tests[i], proposed[i - n]))
            && (forall t | t in d.tests :: ValidTest(env, task.outputFormat, ws.httpCapabilities, t))
  {
    var users := UserTests(task, ws.corrections, RecordsToFixtures(ws.httpProbeRecords));
    var d := BuildDraft(env, task, ws, contract, proposed).value;
    assert d.tests == users + GeneratedTests(proposed);
    forall i | 0 <= i < |users| ensures IsUserTest(task, ws.corrections, i, d.tests[i]) {
      assert d.tests[i] == users[i];
    }
    forall i | |users| <= i < |d.tests|
      ensures d.tests[i].name.Generated? && d.tests[i].name.index == i - |users| + 1
      ensures IsProposal(d.tests[i], proposed[i - |users|])
    {
      assert d.tests[i] == GeneratedTests(proposed)[i - |users|];
    }
  }

  lemma AcceptedDraftKeeps(task: Request, ws: Workspace, audit: Audit, draft: Draft, review: Review)
    requires AgentOk(task, ws, audit) && ws.draft.None? && review.decision == Accept
    requires FollowsPlan(task, draft, draft, ws.corrections, []) && NamedByIndex(task, draft.tests)
    ensures AgentOk(task, ws.(reviews := ws.reviews + [review], draft := Some(draft), latestFailure := None),
                    audit.(accepted := Some(draft), acceptedReview := Some(review), changes := []))
  {
  }

  lemma SubmitContractKeeps(env: Env, task: Request, ws: Workspace, audit: Audit, c: Call, o: Oracle)
    requires c.SubmitContract? && Advertised(ws, c) && AgentOk(task, ws, audit)
    ensures var r := DoSubmitContract(env, task, ws, audit, c, o); AgentOk(task, r.ws, r.audit)
  {
    var contract := Contract(c.summary, c.assumptions, c.invariants);
    var draft := BuildDraft(env, task, ws, contract, c.tests);
    if draft.Some? && o.review.Some? {
      var review := o.review.value;
      if review.decision == Accept {
        BuiltDraftFollows(env, task, ws, contract, c.tests);
        AcceptedDraftKeeps(task, ws, audit, draft.value, review);
      }
      SamePlanKeeps(task, ws, ws.(reviews := ws.reviews + [review]), audit);
    }
  }

  lemma WriteSourceKeeps(env: Env, task: Request, ws: Workspace, audit: Audit, c: Call, o: Oracle)
    requires c.WriteSource? && AgentOk(task, ws, audit)
    ensures var r := DoWriteSource(env, task, ws, audit, c, o); AgentOk(task, r.ws, r.audit)
  {
    if ws.draft.Some? && ws.source.None? && ValidSource(c.source) && ws.metrics.sourceRevisions < MAX_SOURCE_REVISIONS {
      EvaluateKeeps(env, task, WithSource(ws, c.source), audit, o);
    }
  }

  lemma EditSourceKeeps(env: Env, task: Request, ws: Workspace, audit: Audit, c: Call, o: Oracle)
    requires c.EditSource? && AgentOk(task, ws, audit)
    ensures var r := DoEditSource(env, task, ws, audit, c, o); AgentOk(task, r.ws, r.audit)
  {
    if ws.source.Some? && c.oldText != "" && ws.metrics.sourceRevisions < MAX_SOURCE_REVISIONS {
      var edited := EditedSource(ws.source.value, c.oldText, c.newText);
      if edited.Some? && ValidSource(edited.value) {
        EvaluateKeeps(env, task, WithSource(ws, edited.value), audit, o);
      }
    }
  }

  // ---------------------------------------------------------------- probes and reviews

  lemma ProbeKeeps(task: Request, ws: Workspace, audit: Audit, c: Call, o: Oracle)
    requires c.Probe? && AgentOk(task, ws, audit)
    ensures var r := DoProbe(ws, audit, c, o);
            AgentOk(task, r.ws, r.audit) && r.ws.metrics.probesRun <= ws.metrics.probesRun + 1
  {
    SamePlanKeeps(task, ws, DoProbe(ws, audit, c, o).ws, audit);
  }

  lemma {:induction false} FindTestFinds(tests: seq<TestCase>, name: TestName, i: nat)
    requires i <= |tests|
    ensures var at := FindTest(tests, name, i);
            if at.Some? then i <= at.value < |tests| && tests[at.value].name == name
            else forall k | i <= k < |tests| :: tests[k].name != name
    decreases |tests| - i
  {
    if i < |tests| && tests[i].name != name {
      FindTestFinds(tests, name, i + 1);
    }
  }

  lemma RevisedExtends(t: TestCase, i: nat, changes: seq<OracleChange>, c: OracleChange)
    ensures Revised(t, i, changes + [c]) ==
            if c.index == i then WithOracle(Revised(t, i, changes), c.stdout, c.exitCode) else Revised(t, i, changes)
  {
    assert (changes + [c])[..|changes|] == changes;
  }

  /** Replacing the expectation of a generated test is one more verifier change. */
  lemma ReplaceOracleKeeps(task: Request, ws: Workspace, audit: Audit, i: nat, stdout: string, exitCode: int)
    requires AgentOk(task, ws, audit) && ws.draft.Some? && |task.examples| <= i < |ws.draft.value.tests|
    requires ws.metrics.generatedTestCorrections < MAX_GENERATED_TEST_CORRECTIONS
    ensures AgentOk(task, ReplaceOracle(ws, i, stdout, exitCode),
                    audit.(changes := audit.changes + [OracleChange(i, stdout, exitCode)]))
  {
    var draft, accepted := ws.draft.value, audit.accepted.value;
    var draft' := ReplaceOracle(ws, i, stdout, exitCode).draft.value;
    var change := OracleChange(i, stdout, exitCode);
    forall k | |task.examples| <= k < |draft'.tests|
      ensures draft'.tests[k] == Revised(accepted.tests[k], k, audit.changes + [change])
    {
      RevisedExtends(accepted.tests[k], k, audit.changes, change);
    }
    assert FollowsPlan(task, draft', accepted, ws.corrections, audit.changes + [change]);
    assert NamedByIndex(task, draft'.tests);
  }

  lemma ReviewGeneratedTestKeeps(env: Env, task: Request, ws: Workspace, audit: Audit, c: Call, o: Oracle)
    requires c.ReviewGeneratedTest? && AgentOk(task, ws, audit)
    ensures var r := DoReviewGeneratedTest(env, task, ws, audit, c, o); AgentOk(task, r.ws, r.audit)
  {
    var at := ReviewedTest(ws, c.testName);
    if at.Some? && ws.metrics.generatedTestCorrections < MAX_GENERATED_TEST_CORRECTIONS {
      FindTestFinds(ws.draft.value.tests, c.testName, ws.draft.value.userTestCount);
      if o.verdict.Some? && o.verdict.value.OracleWrong? && o.verdict.value.stdout.Some? && o.verdict.value.exitCode.Some? {
        var stdout, exitCode := o.verdict.value.stdout.value, o.verdict.value.exitCode.value;
        ReplaceOracleKeeps(task, ws, audit, at.value, stdout, exitCode);
        EvaluateKeeps(env, task, ReplaceOracle(ws, at.value, stdout, exitCode),
                      audit.(changes := audit.changes + [OracleChange(at.value, stdout, exitCode)]), o);
      }
    }
  }

  // ---------------------------------------------------------------- corrections

  /** A correction changes user tests only, and only to what the user approved. */
  lemma ApplyCorrectionKeeps(task: Request, ws: Workspace, audit: Audit, correction: Correction)
    requires AgentOk(task, ws, audit)
    requires 1 <= correction.exampleIndex <= |task.examples|
    requires correction.original == task.examples[correction.exampleIndex - 1] != correction.corrected
    ensures ApplyCorrection(ws, correction).Some?
    ensures AgentOk(task, ApplyCorrection(ws, correction).value,
                    audit.(approved := audit.approved[correction.exampleIndex - 1 := correction]))
  {
    var ws' := ApplyCorrection(ws, correction).value;
    if ws.draft.Some? {
      CorrectedDraftFollows(task, ws.draft.value, audit.accepted.value, ws.corrections, audit.changes, correction);
    }
  }

  lemma CorrectedDraftFollows(task: Request, draft: Draft, accepted: Draft, corrections: map<nat, Correction>,
                              changes: seq<OracleChange>, correction: Correction)
    requires FollowsPlan(task, draft, accepted, corrections, changes) && NamedByIndex(task, draft.tests)
    requires 1 <= correction.exampleIndex <= |task.examples|
    ensures var i := correction.exampleIndex - 1;
            var t := draft.tests[i].(stdin := correction.corrected.input, expectedStdout := correction.corrected.output);
            var draft' := draft.(tests := draft.tests[i := t]);
            FollowsPlan(task, draft', accepted, corrections[i := correction], changes) && NamedByIndex(task, draft'.tests)
  {
    var i := correction.exampleIndex - 1;
    var t := draft.tests[i].(stdin := correction.corrected.input, expectedStdout := correction.corrected.output);
    var tests' := draft.tests[i := t];
    forall k | 0 <= k < |task.examples| ensures IsUserTest(task, corrections[i := correction], k, tests'[k]) {
      assert IsUserTest(task, corrections, k, draft.tests[k]);
    }
  }

  lemma RequestExampleCorrectionKeeps(env: Env, task: Request, ws: Workspace, audit: Audit, c: Call, o: Oracle)
    requires c.RequestExampleCorrection? && AgentOk(task, ws, audit)
    ensures var r := DoRequestExampleCorrection(env, task, ws, audit, c, o); AgentOk(task, r.ws, r.audit)
  {
    var correction := ValidCorrection(env, task, c);
    if correction.Some? {
      ApplyCorrectionKeeps(task, ws, audit, correction.value);
      EvaluateKeeps(env, task, ApplyCorrection(ws, correction.value).value,
                    audit.(approved := audit.approved[c.exampleIndex - 1 := correction.value]), o);
    }
  }

  // ---------------------------------------------------------------- capabilities

  lemma {:induction false} WithoutFirstKeeps(caps: seq<Grant>, hash: CapabilityHash)
    requires DistinctHashes(caps)
    ensures var r := WithoutFirst(caps, hash);
            && |r| <= |caps| && DistinctHashes(r)
            && (forall g | g in r :: g in caps)
            && !HoldsHash(r, hash)
            && (forall i | 0 <= i < |caps| && caps[i].approvalHash != hash :: HoldsHash(r, caps[i].approvalHash))
  {
    if caps != [] {
      var rest := caps[1..];
      assert DistinctHashes(rest);
      WithoutFirstKeeps(rest, hash);
      if caps[0].approvalHash == hash {
        assert forall i | 0 <= i < |rest| :: rest[i] == caps[i + 1];
        forall i | 0 <= i < |caps| && caps[i].approvalHash != hash ensures HoldsHash(rest, caps[i].approvalHash) {
          assert rest[i - 1] == caps[i];
        }
      } else {
        var r := WithoutFirst(rest, hash);
        forall i | 0 <= i < |caps| && caps[i].approvalHash != hash ensures HoldsHash([caps[0]] + r, caps[i].approvalHash) {
          if i == 0 {
            assert ([caps[0]] + r)[0] == caps[0];
          } else {
            assert rest[i - 1] == caps[i];
            var k :| 0 <= k < |r| && r[k].approvalHash == caps[i].approvalHash;
            assert ([caps[0]] + r)[k + 1] == r[k];
          }
        }
        forall j | 0 <= j < |r| ensures r[j].approvalHash != caps[0].approvalHash {
          assert r[j] in rest;
          var k :| 0 <= k < |rest| && rest[k] == r[j];
          assert caps[k + 1] == r[j];
        }
        assert forall i | 0 < i < |r| + 1 :: ([caps[0]] + r)[i] == r[i - 1];
      }
    }
  }

  lemma {:induction false} RecordsOfOthers(records: seq<ProbeRecord>, hash: CapabilityHash)
    ensures forall r | r in RecordsWithout(records, hash) :: r in records && r.capabilityHash != hash
    ensures forall r | r in records && r.capabilityHash != hash :: r in RecordsWithout(records, hash)
  {
    if records != [] {
      RecordsOfOthers(records[1..], hash);
      assert records == [records[0]] + records[1..];
    }
  }

  /** A release leaves exactly the records of the sources still approved. */
  lemma ReleasedRecordsHeld(records: seq<ProbeRecord>, caps: seq<Grant>, hash: CapabilityHash)
    requires RecordsHeld(records, caps) && DistinctHashes(caps)
    ensures RecordsHeld(RecordsWithout(records, hash), WithoutFirst(caps, hash))
  {
    WithoutFirstKeeps(caps, hash);
    RecordsOfOthers(records, hash);
    var kept := RecordsWithout(records, hash);
    forall i | 0 <= i < |kept| ensures HoldsHash(WithoutFirst(caps, hash), kept[i].capabilityHash) {
      assert kept[i] in kept;
      var k :| 0 <= k < |records| && records[k] == kept[i];
      assert HoldsHash(caps, records[k].capabilityHash);
      var c :| 0 <= c < |caps| && caps[c].approvalHash == records[k].capabilityHash;
    }
  }

  lemma {:induction false} CoveringFinds(env: Env, caps: seq<Grant>, url: string)
    ensures var c := CoveringCapability(env, caps, url);
            c.Some? ==> c.value in caps && env.covers(c.value.capability, url) && HoldsHash(caps, c.value.approvalHash)
  {
    if caps != [] && env.safeUrl(url) && !env.covers(caps[0].capability, url) {
      CoveringFinds(env, caps[1..], url);
      var c := CoveringCapability(env, caps[1..], url);
      if c.Some? {
        var k :| 0 <= k < |caps[1..]| && caps[1..][k].approvalHash == c.value.approvalHash;
        assert caps[k + 1].approvalHash == c.value.approvalHash;
      }
    }
  }

  /** A request keeps the approved hashes distinct. */
  lemma RequestHttpCapabilityKeeps(task: Request, ws: Workspace, audit: Audit, c: Call, o: Oracle)
    requires c.RequestHttpCapability? && AgentOk(task, ws, audit)
    ensures AgentOk(task, DoRequestHttpCapability(ws, audit, c, o).ws, audit)
  {
    var ws' := DoRequestHttpCapability(ws, audit, c, o).ws;
    SamePlanKeeps(task, ws, ws', audit);
    forall i | 0 <= i < |ws.httpProbeRecords| ensures HoldsHash(ws'.httpCapabilities, ws.httpProbeRecords[i].capabilityHash) {
      assert HoldsHash(ws.httpCapabilities, ws.httpProbeRecords[i].capabilityHash);
      var k :| 0 <= k < |ws.httpCapabilities| && ws.httpCapabilities[k].approvalHash == ws.httpProbeRecords[i].capabilityHash;
      assert ws'.httpCapabilities[k] == ws.httpCapabilities[k];
    }
  }

  /** A release keeps them distinct, and the released hash is gone. */
  lemma ReleaseHttpCapabilityKeeps(task: Request, ws: Workspace, audit: Audit, c: Call)
    requires c.ReleaseHttpCapability? && AgentOk(task, ws, audit)
    ensures var ws' := DoReleaseHttpCapability(ws, audit, c).ws;
            AgentOk(task, ws', audit) && (ValidReason(c.reason) ==> !HoldsHash(ws'.httpCapabilities, c.hash))
  {
    WithoutFirstKeeps(ws.httpCapabilities, c.hash);
    ReleasedRecordsHeld(ws.httpProbeRecords, ws.httpCapabilities, c.hash);
    var r := WithoutFirst(ws.httpCapabilities, c.hash);
    forall i | 0 <= i < |r| ensures r[i].approvalHash == HashCapability(r[i].capability) {
      assert r[i] in ws.httpCapabilities;
    }
    SamePlanKeeps(task, ws, DoReleaseHttpCapability(ws, audit, c).ws, audit);
  }

  lemma WebCallsKeep(env: Env, task: Request, ws: Workspace, audit: Audit, c: Call, o: Oracle)
    requires AgentOk(task, ws, audit)
    ensures c.SearchWeb? ==> AgentOk(task, DoSearchWeb(ws, audit, c).ws, audit)
    ensures c.FetchDocument? ==> AgentOk(task, DoFetchDocument(ws, audit, c).ws, audit)
  {
    if c.SearchWeb? {
      SamePlanKeeps(task, ws, DoSearchWeb(ws, audit, c).ws, audit);
    } else if c.FetchDocument? {
      SamePlanKeeps(task, ws, DoFetchDocument(ws, audit, c).ws, audit);
    }
  }

  lemma ProbeHttpKeeps(env: Env, task: Request, ws: Workspace, audit: Audit, c: Call, o: Oracle)
    requires c.ProbeHttp? && AgentOk(task, ws, audit)
    ensures AgentOk(task, DoProbeHttp(env, ws, audit, c, o).ws, audit)
  {
    CoveringFinds(env, ws.httpCapabilities, c.url);
    SamePlanKeeps(task, ws, DoProbeHttp(env, ws, audit, c, o).ws, audit);
  }

  lemma ClarificationKeeps(task: Request, ws: Workspace, audit: Audit, c: Call, o: Oracle)
    requires c.RequestClarification? && AgentOk(task, ws, audit)
    ensures AgentOk(task, DoRequestClarification(ws, audit, c, o).ws, audit)
  {
    SamePlanKeeps(task, ws, DoRequestClarification(ws, audit, c, o).ws, audit);
  }

  // ---------------------------------------------------------------- every call

  lemma MutationKeeps(env: Env, task: Request, ws: Workspace, audit: Audit, c: Call, o: Oracle)
    requires AgentOk(task, ws, audit) && Advertised(ws, c) && Mutates(c)
    ensures var r := ExecuteMutation(env, task, ws, audit, c, o);
            AgentOk(task, r.ws, r.audit)
  {
    match c
    case SubmitContract(_, _, _, _, _) => SubmitContractKeeps(env, task, ws, audit, c, o);
    case WriteSource(_, _) => WriteSourceKeeps(env, task, ws, audit, c, o);
    case EditSource(_, _, _) => EditSourceKeeps(env, task, ws, audit, c, o);
    case ReviewGeneratedTest(_, _) => ReviewGeneratedTestKeeps(env, task, ws, audit, c, o);
    case RequestExampleCorrection(_, _, _, _) => RequestExampleCorrectionKeeps(env, task, ws, audit, c, o);
  }

  lemma QueryKeeps(env: Env, task: Request, ws: Workspace, audit: Audit, c: Call, o: Oracle)
    requires AgentOk(task, ws, audit) && !Mutates(c)
    ensures var r := ExecuteQuery(env, ws, audit, c, o);
            AgentOk(task, r.ws, r.audit)
  {
    match c
    case Probe(_, _, _) => ProbeKeeps(task, ws, audit, c, o);
    case RequestHttpCapability(_, _) => RequestHttpCapabilityKeeps(task, ws, audit, c, o);
    case ReleaseHttpCapability(_, _) => ReleaseHttpCapabilityKeeps(task, ws, audit, c);
    case ProbeHttp(_, _) => ProbeHttpKeeps(env, task, ws, audit, c, o);
    case RequestClarification(_, _, _) => ClarificationKeeps(task, ws, audit, c, o);
    case _ => WebCallsKeep(env, task, ws, audit, c, o);
  }

  /** Every advertised call, whatever the outside world answers, keeps the invariant. */
  lemma ExecuteKeeps(env: Env, task: Request, ws: Workspace, audit: Audit, c: Call, o: Oracle)
    requires AgentOk(task, ws, audit) && Advertised(ws, c)
    ensures var r := Execute(env, task, ws, audit, c, o);
            AgentOk(task, r.ws, r.audit)
  {
    if Mutates(c) {
      MutationKeeps(env, task, ws, audit, c, o);
      assert Execute(env, task, ws, audit, c, o) == ExecuteMutation(env, task, ws, audit, c, o);
    } else {
      QueryKeeps(env, task, ws, audit, c, o);
      assert Execute(env, task, ws, audit, c, o) == ExecuteQuery(env, ws, audit, c, o);
    }
  }
}
