/** What each tool call comes to, for its caller: when it is refused and then changes nothing, and
    what exactly it changes when it acts (jobs.rs, execute_tool_inner). */
module Outcomes {
  import opened Wrappers
  import opened ArtifactTypes
  import opened AgentTypes
  import opened ToolCalls
  import opened PlanIntegrity
  import opened PublicationGate
  import opened SourceEdits
  import Text
  import Truncation

  /** Nothing was done: the workspace and its history are as before. */
  predicate Untouched(r: Outcome, ws: Workspace, audit: Audit) {
    r.ws == ws && r.audit == audit
  }

  // ---------------------------------------------------------------- evaluation

  /** There is something to evaluate. */
  predicate Ready(ws: Workspace) {
    ws.draft.Some? && ws.source.Some?
  }

  /** The candidate was written to the store. */
  predicate Stored(ws: Workspace, o: Oracle) {
    Ready(ws) && o.stageBuildingOk && o.putOk
  }

  /** And it was built and run. */
  predicate Validated(ws: Workspace, o: Oracle) {
    Stored(ws, o) && o.buildOk && o.stageValidatingOk
  }

  /** Every sample and every test of the draft shows what it must. */
  ghost predicate AllMeet(env: Env, task: Request, draft: Draft, o: Oracle) {
    && (forall k | 0 <= k < |task.inputSamples| :: ServesSample(env, task.outputFormat, o.sampleRuns(k)))
    && (forall k | 0 <= k < |draft.tests| :: MeetsTest(env, task.outputFormat, draft.tests[k], o.testRuns(k)))
  }

  /** Sample k fails, and no earlier one. */
  ghost predicate FailsFirst(env: Env, task: Request, o: Oracle, k: nat) {
    && k < |task.inputSamples| && !ServesSample(env, task.outputFormat, o.sampleRuns(k))
    && forall i | 0 <= i < k :: ServesSample(env, task.outputFormat, o.sampleRuns(i))
  }

  /** Every sample serves; test k fails, and no earlier one. */
  ghost predicate TestFailsFirst(env: Env, task: Request, draft: Draft, o: Oracle, k: nat) {
    && (forall i | 0 <= i < |task.inputSamples| :: ServesSample(env, task.outputFormat, o.sampleRuns(i)))
    && k < |draft.tests| && !MeetsTest(env, task.outputFormat, draft.tests[k], o.testRuns(k))
    && forall i | 0 <= i < k :: MeetsTest(env, task.outputFormat, draft.tests[i], o.testRuns(i))
  }

  /** The failure is about the run that failed first, samples before tests, and names it, where it
      comes from and its exit code. */
  ghost predicate Reports(env: Env, task: Request, draft: Draft, o: Oracle, f: Option<Snapshot>) {
    || (exists k: nat :: FailsFirst(env, task, o, k) && IsFailure(f, SampleNamed(k + 1), SampleOrigin, o.sampleRuns(k)))
    || (exists k: nat :: TestFailsFirst(env, task, draft, o, k) &&
                         IsFailure(f, TestNamed(draft.tests[k].name), if k < draft.userTestCount then UserOrigin else GeneratedOrigin, o.testRuns(k)))
  }

  predicate IsFailure(f: Option<Snapshot>, name: FailureName, origin: Origin, r: RunResult) {
    f.Some? && f.value.name == name && f.value.origin == origin && f.value.exitCode == if r.Ran? then Some(r.exitCode) else None
  }

  lemma ValidationFailureExactly(env: Env, task: Request, draft: Draft, o: Oracle)
    ensures var f := ValidationFailure(env, task, draft, o);
            if AllMeet(env, task, draft, o) then f.None? else Reports(env, task, draft, o, f)
  {
    var f := SampleFailure(env, task.outputFormat, |task.inputSamples|, o.sampleRuns, 0);
    FirstSampleFailure(env, task.outputFormat, |task.inputSamples|, o.sampleRuns, 0);
    if f.Some? {
      var k: nat :| FailsFirst(env, task, o, k) &&
                    f.value == Snapshot(SampleNamed(k + 1), SampleOrigin, if o.sampleRuns(k).Ran? then Some(o.sampleRuns(k).exitCode) else None);
      assert IsFailure(f, SampleNamed(k + 1), SampleOrigin, o.sampleRuns(k));
    } else {
      TestFailureExactly(env, task, draft, o);
    }
  }

  lemma TestFailureExactly(env: Env, task: Request, draft: Draft, o: Oracle)
    requires forall i | 0 <= i < |task.inputSamples| :: ServesSample(env, task.outputFormat, o.sampleRuns(i))
    ensures var f := TestFailure(env, task.outputFormat, draft, o.testRuns, 0);
            if AllMeet(env, task, draft, o) then f.None? else Reports(env, task, draft, o, f)
  {
    FirstTestFailure(env, task.outputFormat, draft, o.testRuns, 0);
    var f := TestFailure(env, task.outputFormat, draft, o.testRuns, 0);
    if f.Some? {
      var k: nat :| TestFailsFirst(env, task, draft, o, k) && f.value.name == TestNamed(draft.tests[k].name) &&
                    f.value.origin == (if k < draft.userTestCount then UserOrigin else GeneratedOrigin) &&
                    f.value.exitCode == if o.testRuns(k).Ran? then Some(o.testRuns(k).exitCode) else None;
      assert TestFailsFirst(env, task, draft, o, k);
      assert IsFailure(f, TestNamed(draft.tests[k].name), if k < draft.userTestCount then UserOrigin else GeneratedOrigin, o.testRuns(k));
    }
  }

  /** How an evaluation ends, and exactly when. */
  lemma EvaluationEnds(env: Env, task: Request, ws: Workspace, audit: Audit, o: Oracle)
    ensures var x := Evaluate(env, task, ws, audit, o).execution;
            && (x.Published? <==> Validated(ws, o) && AllMeet(env, task, ws.draft.value, o) && o.publishOk)
            && (x == Continue <==> !Ready(ws) || (Validated(ws, o) && !AllMeet(env, task, ws.draft.value, o)))
            && (x == Failed(ArtifactError) <==> Ready(ws) && o.stageBuildingOk && !o.putOk)
            && (x == Failed(RunnerError) <==> Stored(ws, o) && !o.buildOk)
            && (x == Failed(StorageError) <==>
                  && Ready(ws)
                  && (!o.stageBuildingOk || (o.putOk && o.buildOk && !o.stageValidatingOk) ||
                      (Validated(ws, o) && AllMeet(env, task, ws.draft.value, o) && !o.publishOk)))
  {
    if Ready(ws) { ValidationFailureExactly(env, task, ws.draft.value, o); }
  }

  /** The bundle is made of this workspace: its source, its tests, its contract, its grants and
      its counters, for the requested formats. */
  predicate MadeOf(task: Request, ws: Workspace, b: Bundle)
    requires Ready(ws)
  {
    && b.source == ws.source.value && b.manifest.sourceHash.source == ws.source.value
    && b.tests == ws.draft.value.tests && b.contract == ws.draft.value.contract
    && b.manifest.grants == ws.httpCapabilities
    && b.manifest.inputFormat == task.inputFormat && b.manifest.outputFormat == task.outputFormat
    && b.validation.testsTotal == b.validation.testsPassed == |b.tests|
    && b.validation.inputSamplesTotal == b.validation.inputSamplesPassed == |task.inputSamples|
    && b.validation.repairRounds == (if ws.metrics.sourceRevisions > 0 then ws.metrics.sourceRevisions - 1 else 0)
    && b.validation.agentTurns == ws.metrics.turns && b.validation.probesRun == ws.metrics.probesRun
    && b.validation.generatedTestCorrections == ws.metrics.generatedTestCorrections
  }

  /** What an evaluation leaves: without a candidate the workspace as it was; otherwise the digest
      of the candidate made of it, and the failure that validation reported. */
  lemma EvaluationLeaves(env: Env, task: Request, ws: Workspace, audit: Audit, o: Oracle)
    ensures var r := Evaluate(env, task, ws, audit, o);
            && r.audit == audit && (!Stored(ws, o) ==> r.ws == ws)
            && (Stored(ws, o) ==>
                  && r.ws == ws.(currentDigest := r.ws.currentDigest, candidateDigests := r.ws.candidateDigests,
                                 candidateSources := r.ws.candidateSources, latestFailure := r.ws.latestFailure)
                  && r.ws.candidateSources == ws.candidateSources + {SourceHash(ws.source.value)}
                  && exists b :: MadeOf(task, ws, b) && b.validation.validatedAt == o.now
                                 && r.ws.currentDigest == Some(SemanticDigest(b))
                                 && r.ws.candidateDigests == ws.candidateDigests + {SemanticDigest(b)}
                                 && (r.execution.Published? ==> r.execution.bundle == b))
            && (Stored(ws, o) && !Validated(ws, o) ==> r.ws.latestFailure == ws.latestFailure)
            && (Validated(ws, o) && AllMeet(env, task, ws.draft.value, o) ==> r.ws.latestFailure.None?)
            && (Validated(ws, o) && !AllMeet(env, task, ws.draft.value, o) ==>
                  Reports(env, task, ws.draft.value, o, r.ws.latestFailure))
  {
    if Stored(ws, o) {
      ValidationFailureExactly(env, task, ws.draft.value, o);
      var b := CandidateBundle(task, ws, ws.draft.value, ws.source.value, o.now);
      assert MadeOf(task, ws, b);
    }
  }

  /** Whichever call publishes, the bundle is made of the workspace it leaves, and every sample and
      every test showed what it must. */
  lemma PublishedIsMadeOf(env: Env, task: Request, ws: Workspace, audit: Audit, c: Call, o: Oracle)
    requires Execute(env, task, ws, audit, c, o).execution.Published?
    ensures var r := Execute(env, task, ws, audit, c, o);
            && Ready(r.ws) && MadeOf(task, r.ws, r.execution.bundle) && AllMeet(env, task, r.ws.draft.value, o)
            && r.ws.currentDigest == Some(SemanticDigest(r.execution.bundle)) && r.execution.bundle.validation.validatedAt == o.now
  {
    ExecuteClean(env, task, ws, audit, c, o);
    ValidationFailureExactly(env, task, Execute(env, task, ws, audit, c, o).ws.draft.value, o);
  }

  // ---------------------------------------------------------------- limits on what the model says

  /** A reason says something, in at most 2048 bytes. */
  lemma ReasonExactly(reason: string)
    ensures ValidReason(reason) <==> |reason| <= 2048 && exists i | 0 <= i < |reason| :: !Text.IsSpace(reason[i])
  {
  }

  /** A source has between one byte and 64 KiB, and no zero byte. */
  lemma SourceExactly(source: string)
    ensures ValidSource(source) <==> 1 <= |source| <= 65536 && forall i | 0 <= i < |source| :: source[i] != '\0'
  {
  }

  /** A decision key has at most 128 characters of a-z, 0-9, dot, dash and underscore, begins and
      ends with a letter or digit, and has no two dots in a row; a question says something. */
  lemma ClarificationExactly(key: string, question: string)
    ensures ValidClarification(key, question) <==>
              && 1 <= |key| <= 128 && key[0] !in {'.', '-', '_'} && key[|key| - 1] !in {'.', '-', '_'}
              && (forall i | 0 <= i < |key| :: 'a' <= key[i] <= 'z' || '0' <= key[i] <= '9' || key[i] in {'.', '-', '_'})
              && (forall i | 0 <= i < |key| - 1 :: key[i] == '.' ==> key[i + 1] != '.')
              && |question| <= 4096 && exists i | 0 <= i < |question| :: !Text.IsSpace(question[i])
  {
    if 1 <= |key| <= 128 && forall i | 0 <= i < |key| - 1 :: key[i] == '.' ==> key[i + 1] != '.' {
      forall i | 0 < i < |key| ensures !(key[i - 1] == '.' && key[i] == '.') { assert key[i - 1] == '.' ==> key[i - 1 + 1] != '.'; }
    }
  }

  /** A recorded response serves as the answer to its own request. */
  predicate Replays(fixtures: seq<Fixture>, records: seq<ProbeRecord>) {
    && |fixtures| == |records|
    && forall k | 0 <= k < |records| ::
         && fixtures[k].requestUrl == records[k].requestUrl && fixtures[k].responseUrl == records[k].finalUrl
         && fixtures[k].status == records[k].status && fixtures[k].contentType == records[k].contentType
         && fixtures[k].body == records[k].body
  }

  /** A title is the trimmed one, cut after 96 characters, and never empty. */
  predicate IsTitleOf(title: string, proposed: string) {
    var t := Text.Trim(proposed);
    && title != "" && |title| <= 96
    && (t == "" ==> title == "test") && (t != "" ==> title <= t && (|title| == 96 || title == t))
  }

  /** The fixtures of a test are few and small, each for another request, and each from an approved
      source to an approved source. */
  predicate FixturesFit(env: Env, caps: seq<Grant>, fixtures: seq<Fixture>) {
    && |fixtures| <= 8 && env.fixturesEncode(fixtures)
    && (forall i, j | 0 <= i < j < |fixtures| :: fixtures[i].requestUrl != fixtures[j].requestUrl)
    && (forall k | 0 <= k < |fixtures| ::
          && |fixtures[k].requestUrl| <= 4096 && |fixtures[k].responseUrl| <= 4096 && 100 <= fixtures[k].status <= 599
          && 1 <= |fixtures[k].contentType| <= 256 && |fixtures[k].body| <= 65536
          && Allowed(env, caps, fixtures[k].requestUrl) && Allowed(env, caps, fixtures[k].responseUrl))
  }

  /** Some held capability covers this safe URL. */
  predicate Allowed(env: Env, caps: seq<Grant>, url: string) {
    env.safeUrl(url) && exists k | 0 <= k < |caps| :: env.covers(caps[k].capability, url)
  }

  lemma {:induction false} AllowedExactly(env: Env, caps: seq<Grant>, url: string)
    ensures CoveringCapability(env, caps, url).Some? <==> Allowed(env, caps, url)
  {
    if caps != [] {
      AllowedExactly(env, caps[1..], url);
      assert forall k | 0 <= k < |caps[1..]| :: caps[1..][k] == caps[k + 1];
      if Allowed(env, caps, url) && !env.covers(caps[0].capability, url) {
        var k :| 0 <= k < |caps| && env.covers(caps[k].capability, url);
        assert caps[1..][k - 1] == caps[k];
      }
    }
  }

  lemma FixturesExactly(env: Env, caps: seq<Grant>, fixtures: seq<Fixture>)
    ensures ValidFixtures(env, caps, fixtures) <==> FixturesFit(env, caps, fixtures)
  {
    forall url: string ensures CoveringCapability(env, caps, url).Some? <==> Allowed(env, caps, url) { AllowedExactly(env, caps, url); }
    assert forall k | 0 <= k < |fixtures| :: fixtures[k] in fixtures;
  }

  /** A test fits its limits, and what it expects of a success is JSON where the format is. */
  predicate TestFits(env: Env, format: IoFormat, caps: seq<Grant>, t: TestCase) {
    && (t.name.Generated? ==> (if t.name.index < 10 then 12 else 13) + Truncation.Bytes(t.name.title) <= 128)
    && |t.stdin| <= 1048576 && |t.expectedStdout| <= 1048576 && |t.args| <= 32
    && (forall k | 0 <= k < |t.args| :: |t.args[k]| <= 4096)
    && (format == JsonFormat && t.expectedExitCode == 0 ==> env.parse(t.expectedStdout).Some?)
    && FixturesFit(env, caps, t.fixtures)
  }

  lemma TestExactly(env: Env, format: IoFormat, caps: seq<Grant>, t: TestCase)
    ensures ValidTest(env, format, caps, t) <==> TestFits(env, format, caps, t)
  {
    FixturesExactly(env, caps, t.fixtures);
    assert forall k | 0 <= k < |t.args| :: t.args[k] in t.args;
  }

  /** The texts of a contract fit. */
  predicate TextsFit(c: Contract) {
    && |c.summary| <= 4096 && (exists i | 0 <= i < |c.summary| :: !Text.IsSpace(c.summary[i]))
    && |c.assumptions| <= 32 && |c.invariants| <= 32
    && (forall i | 0 <= i < |c.assumptions| :: |c.assumptions[i]| <= 4096)
    && (forall i | 0 <= i < |c.invariants| :: |c.invariants[i]| <= 4096)
  }

  lemma TextsExactly(c: Contract)
    ensures ValidContractText(c) <==> TextsFit(c)
  {
    assert forall i | 0 <= i < |c.assumptions| :: c.assumptions[i] in c.assumptions + c.invariants;
    assert forall i | 0 <= i < |c.invariants| :: c.invariants[i] in c.assumptions + c.invariants;
  }

  // ---------------------------------------------------------------- contract

  /** The contract that a call submits fits its limits, and so do all the tests of its draft. */
  ghost predicate Submittable(env: Env, task: Request, ws: Workspace, c: Call)
    requires c.SubmitContract?
  {
    && ValidReason(c.reason) && TextsFit(Contract(c.summary, c.assumptions, c.invariants))
    && exists draft :: IsDraftOf(task, ws, c, draft) && draft.tests != []
                       && forall k | 0 <= k < |draft.tests| :: TestFits(env, task.outputFormat, ws.httpCapabilities, draft.tests[k])
  }

  /** At most one draft is the draft of a call. */
  lemma DraftIsUnique(task: Request, ws: Workspace, c: Call, d: Draft, e: Draft)
    requires c.SubmitContract? && IsDraftOf(task, ws, c, d) && IsDraftOf(task, ws, c, e)
    ensures d == e
  {
    var n := |task.examples|;
    forall i | 0 <= i < |d.tests| ensures d.tests[i] == e.tests[i] {
      if i < n {
        SameFixtures(d.tests[i].fixtures, e.tests[i].fixtures, ws.httpProbeRecords);
      } else {
        SameTitle(d.tests[i].name.title, e.tests[i].name.title, c.tests[i - n].title);
      }
    }
  }

  lemma SameFixtures(a: seq<Fixture>, b: seq<Fixture>, records: seq<ProbeRecord>)
    requires Replays(a, records) && Replays(b, records)
    ensures a == b
  {
  }

  lemma SameTitle(a: string, b: string, proposed: string)
    requires IsTitleOf(a, proposed) && IsTitleOf(b, proposed)
    ensures a == b
  {
  }

  /** All the tests that validate_contract would build. */
  function TestsOf(task: Request, ws: Workspace, c: Call): seq<TestCase>
    requires c.SubmitContract?
  {
    UserTests(task, ws.corrections, RecordsToFixtures(ws.httpProbeRecords)) + GeneratedTests(c.tests)
  }

  lemma TestsOfDraft(task: Request, ws: Workspace, c: Call)
    requires c.SubmitContract?
    ensures IsDraftOf(task, ws, c, Draft(Contract(c.summary, c.assumptions, c.invariants), TestsOf(task, ws, c), |task.examples|))
  {
    var tests, n := TestsOf(task, ws, c), |task.examples|;
    forall i | 0 <= i < n
      ensures IsTestOf(tests[i], i, if i in ws.corrections then ws.corrections[i].corrected else task.examples[i])
      ensures Replays(tests[i].fixtures, ws.httpProbeRecords)
    {
      assert tests[i] == UserTest(task, ws.corrections, RecordsToFixtures(ws.httpProbeRecords), i);
    }
    forall i | n <= i < |tests| ensures IsGeneratedOf(tests[i], i - n, c.tests[i - n]) {
      assert tests[i] == GeneratedTests(c.tests)[i - n];
    }
  }

  lemma SubmittableExactly(env: Env, task: Request, ws: Workspace, c: Call)
    requires c.SubmitContract?
    ensures var built := BuildDraft(env, task, ws, Contract(c.summary, c.assumptions, c.invariants), c.tests);
            && (Submittable(env, task, ws, c) <==> ValidReason(c.reason) && built.Some?)
            && (built.Some? ==> IsDraftOf(task, ws, c, built.value))
  {
    var contract, tests := Contract(c.summary, c.assumptions, c.invariants), TestsOf(task, ws, c);
    var d := Draft(contract, tests, |task.examples|);
    TestsOfDraft(task, ws, c);
    TextsExactly(contract);
    forall t | t in tests ensures ValidTest(env, task.outputFormat, ws.httpCapabilities, t) <==> TestFits(env, task.outputFormat, ws.httpCapabilities, t) {
      TestExactly(env, task.outputFormat, ws.httpCapabilities, t);
    }
    assert forall k | 0 <= k < |tests| :: tests[k] in tests;
    if draft :| IsDraftOf(task, ws, c, draft) && draft.tests != []
                && forall k | 0 <= k < |draft.tests| :: TestFits(env, task.outputFormat, ws.httpCapabilities, draft.tests[k]) {
      DraftIsUnique(task, ws, c, draft, d);
    }
  }

  /** The draft says what the call says: its texts, a test for each example as the user wants it
      now, and the first twelve tests of the call. */
  predicate IsDraftOf(task: Request, ws: Workspace, c: Call, draft: Draft)
    requires c.SubmitContract?
  {
    var n := |task.examples|;
    && draft.contract.summary == c.summary && draft.contract.assumptions == c.assumptions && draft.contract.invariants == c.invariants
    && draft.userTestCount == n && |draft.tests| == n + (if |c.tests| <= 12 then |c.tests| else 12)
    && (forall i | 0 <= i < n :: IsTestOf(draft.tests[i], i, if i in ws.corrections then ws.corrections[i].corrected else task.examples[i])
                                 && Replays(draft.tests[i].fixtures, ws.httpProbeRecords))
    && (forall i | n <= i < |draft.tests| :: IsGeneratedOf(draft.tests[i], i - n, c.tests[i - n]))
  }

  predicate IsGeneratedOf(t: TestCase, i: nat, p: ProposedTest) {
    IsProposal(t, p) && t.name.Generated? && t.name.index == i + 1 && IsTitleOf(t.name.title, p.title)
  }

  predicate IsTestOf(t: TestCase, i: nat, e: Example) {
    t.name == UserExample(i + 1) && t.args == [] && t.stdin == e.input && t.expectedStdout == e.output && t.expectedExitCode == 0
  }

  /** A submitted contract is reviewed, and accepted, sent back or refused as the reviewer says;
      only an accepted one that was also saved becomes the draft. */
  lemma ContractOutcome(env: Env, task: Request, ws: Workspace, audit: Audit, c: Call, o: Oracle)
    requires c.SubmitContract?
    ensures var r := Execute(env, task, ws, audit, c, o);
            if !Submittable(env, task, ws, c) || o.review.None? then Untouched(r, ws, audit) && r.execution == Continue
            else exists draft :: IsDraftOf(task, ws, c, draft) &&
                                 Judged(ws, audit, r, o.review.value, Some(draft), o.saveContractOk)
  {
    SubmittableExactly(env, task, ws, c);
    SubmissionOf(env, task, ws, audit, c, o);
  }

  lemma SubmissionOf(env: Env, task: Request, ws: Workspace, audit: Audit, c: Call, o: Oracle)
    requires c.SubmitContract?
    ensures var built := BuildDraft(env, task, ws, Contract(c.summary, c.assumptions, c.invariants), c.tests);
            var r := Execute(env, task, ws, audit, c, o);
            if !ValidReason(c.reason) || built.None? || o.review.None? then Untouched(r, ws, audit) && r.execution == Continue
            else Judged(ws, audit, r, o.review.value, built, o.saveContractOk)
  {
  }

  /** The review is kept; an accepted draft becomes the draft when it was saved; a refusal ends the
      run. */
  predicate Judged(ws: Workspace, audit: Audit, r: Outcome, review: Review, draft: Option<Draft>, saved: bool) {
    && r.ws.reviews == ws.reviews + [review]
    && (if review.decision == Accept && saved
        then r.ws == ws.(reviews := r.ws.reviews, draft := draft, latestFailure := None)
             && r.audit == audit.(accepted := draft, acceptedReview := Some(review), changes := [])
        else r.ws == ws.(reviews := r.ws.reviews) && r.audit == audit)
    && r.execution == match review.decision
                      case Accept => if saved then Continue else Failed(StorageError)
                      case Revise => Continue
                      case Refuse => Failed(AgentAborted)
  }

  // ---------------------------------------------------------------- source

  function Spliced(s: string, at: nat, length: nat, insert: string): string
    requires at + length <= |s|
  {
    s[..at] + insert + s[at + length..]
  }

  /** The edit has one place to happen, and gives another valid source. */
  ghost predicate EditsAt(ws: Workspace, c: Call, at: nat)
    requires c.EditSource?
  {
    && ws.source.Some? && OnlyMatch(ws.source.value, c.oldText, at)
    && ValidSource(Spliced(ws.source.value, at, |c.oldText|, c.newText))
    && Spliced(ws.source.value, at, |c.oldText|, c.newText) != ws.source.value
  }

  /** The workspace with this source and one more revision. */
  predicate Revises(r: Outcome, ws: Workspace, source: string) {
    && r.ws.source == Some(source)
    && r.ws.metrics == ws.metrics.(sourceRevisions := ws.metrics.sourceRevisions + 1)
    && r.ws.draft == ws.draft && r.ws.corrections == ws.corrections && KeepsRest(r.ws, ws)
  }

  /** Capabilities, recorded responses, decisions, probe results and reviews are the same. */
  predicate KeepsRest(now: Workspace, was: Workspace) {
    && now.httpCapabilities == was.httpCapabilities && now.httpProbeRecords == was.httpProbeRecords
    && now.decisions == was.decisions && now.probeResults == was.probeResults && now.reviews == was.reviews
  }

  /** A digest that changed, and a published bundle, are of the current source. */
  predicate OfItsSource(r: Outcome, ws: Workspace) {
    && (r.ws.currentDigest != ws.currentDigest ==>
          r.ws.source.Some? && r.ws.currentDigest.Some? && r.ws.currentDigest.value.payload.source == r.ws.source.value)
    && (r.execution.Published? ==> r.ws.source == Some(r.execution.bundle.source))
  }

  lemma EvaluatedSource(env: Env, task: Request, ws: Workspace, audit: Audit, o: Oracle, was: Workspace)
    requires was.currentDigest == ws.currentDigest
    ensures var r := Evaluate(env, task, ws, audit, o);
            OfItsSource(r, was) && r.ws.source == ws.source && r.ws.metrics == ws.metrics && r.ws.draft == ws.draft
            && r.ws.corrections == ws.corrections && KeepsRest(r.ws, ws)
            && (Ready(ws) && (r.execution == Continue || r.execution.Published?) ==>
                  r.ws.currentDigest.Some? && r.ws.currentDigest.value.payload.source == ws.source.value)
  {
    EvaluationLeaves(env, task, ws, audit, o);
    EvaluationEnds(env, task, ws, audit, o);
  }

  /** An edit acts exactly when the reason is given, a revision is left, and the fragment has one
      place: then that one occurrence is replaced, and what is stored or published is the edited
      source.  Otherwise nothing changes. */
  lemma EditOutcome(env: Env, task: Request, ws: Workspace, audit: Audit, c: Call, o: Oracle)
    requires c.EditSource?
    ensures var r := Execute(env, task, ws, audit, c, o);
            var acts := ValidReason(c.reason) && c.oldText != "" && ws.metrics.sourceRevisions < MAX_SOURCE_REVISIONS &&
                        exists at: nat :: EditsAt(ws, c, at);
            && OfItsSource(r, ws)
            && (acts ==> (exists at: nat :: EditsAt(ws, c, at) &&
                                       Revises(r, ws, Spliced(ws.source.value, at, |c.oldText|, c.newText))))
            && (acts && ws.draft.Some? && (r.execution == Continue || r.execution.Published?) ==>
                  r.ws.currentDigest.Some? && r.ws.currentDigest.value.payload.source == r.ws.source.value)
            && (!acts ==> Untouched(r, ws, audit) && r.execution in {Continue, Failed(AgentLimit)})
            && (r.execution == Failed(AgentLimit) <==>
                  ValidReason(c.reason) && c.oldText != "" && ws.metrics.sourceRevisions >= MAX_SOURCE_REVISIONS)
  {
    if ValidReason(c.reason) && c.oldText != "" && ws.metrics.sourceRevisions < MAX_SOURCE_REVISIONS {
      if at: nat :| EditsAt(ws, c, at) {
        var source := Spliced(ws.source.value, at, |c.oldText|, c.newText);
        EditActs(env, task, ws, audit, c, o, at);
        EvaluatedSource(env, task, WithSource(ws, source), audit, o, ws);
        EvaluationNeverLimits(env, task);
        assert Revises(Execute(env, task, ws, audit, c, o), ws, source);
      } else {
        EditRefused(env, task, ws, audit, c, o);
      }
    }
  }

  lemma EditActs(env: Env, task: Request, ws: Workspace, audit: Audit, c: Call, o: Oracle, at: nat)
    requires c.EditSource? && ValidReason(c.reason) && c.oldText != "" && ws.metrics.sourceRevisions < MAX_SOURCE_REVISIONS
    requires EditsAt(ws, c, at)
    ensures Execute(env, task, ws, audit, c, o) ==
            Evaluate(env, task, WithSource(ws, Spliced(ws.source.value, at, |c.oldText|, c.newText)), audit, o)
  {
    EditedAt(ws, c);
  }

  lemma EditRefused(env: Env, task: Request, ws: Workspace, audit: Audit, c: Call, o: Oracle)
    requires c.EditSource? && ws.metrics.sourceRevisions < MAX_SOURCE_REVISIONS
    requires c.oldText != "" && !exists at: nat :: EditsAt(ws, c, at)
    ensures Execute(env, task, ws, audit, c, o) == Outcome(ws, audit, Continue)
  {
    if ws.source.Some? {
      EditedAt(ws, c);
      if at: nat :| OnlyMatch(ws.source.value, c.oldText, at) { assert !EditsAt(ws, c, at); }
    }
  }

  lemma EvaluationNeverLimits(env: Env, task: Request)
    ensures forall x: Workspace, a: Audit, o: Oracle :: Evaluate(env, task, x, a, o).execution != Failed(AgentLimit)
  {
  }

  lemma EditedAt(ws: Workspace, c: Call)
    requires c.EditSource? && c.oldText != "" && ws.source.Some?
    ensures var edited := EditedSource(ws.source.value, c.oldText, c.newText);
            && (forall at: nat | OnlyMatch(ws.source.value, c.oldText, at) ::
                  edited == Some(Spliced(ws.source.value, at, |c.oldText|, c.newText)))
            && (edited.Some? ==> exists at: nat :: OnlyMatch(ws.source.value, c.oldText, at))
  {
    forall at: nat | OnlyMatch(ws.source.value, c.oldText, at)
      ensures EditedSource(ws.source.value, c.oldText, c.newText) == Some(Spliced(ws.source.value, at, |c.oldText|, c.newText))
    {
      EditedExactly(ws.source.value, c.oldText, c.newText, at);
    }
    EditedExactly(ws.source.value, c.oldText, c.newText, 0);
  }

  /** A source is written exactly when there is a contract and none yet, and then it is the
      written text that is stored or published. */
  lemma WriteOutcome(env: Env, task: Request, ws: Workspace, audit: Audit, c: Call, o: Oracle)
    requires c.WriteSource?
    ensures var r := Execute(env, task, ws, audit, c, o);
            var fits := ValidReason(c.reason) && ValidSource(c.source) && ws.draft.Some? && ws.source.None?;
            var acts := fits && ws.metrics.sourceRevisions < MAX_SOURCE_REVISIONS;
            && OfItsSource(r, ws)
            && (acts ==> Revises(r, ws, c.source))
            && (acts && (r.execution == Continue || r.execution.Published?) ==>
                  r.ws.currentDigest.Some? && r.ws.currentDigest.value.payload.source == c.source)
            && (!acts ==> Untouched(r, ws, audit) && r.execution == if fits then Failed(AgentLimit) else Continue)
  {
    EvaluatedSource(env, task, WithSource(ws, c.source), audit, o, ws);
  }

  /** No other call changes the source, and none stores or publishes another one. */
  lemma SourceStays(env: Env, task: Request, ws: Workspace, audit: Audit, c: Call, o: Oracle)
    requires !c.EditSource? && !c.WriteSource?
    ensures var r := Execute(env, task, ws, audit, c, o); r.ws.source == ws.source && OfItsSource(r, ws)
  {
    match c
    case SubmitContract(_, _, _, _, _) =>
    case ReviewGeneratedTest(_, _) => ReviewSourceStays(env, task, ws, audit, c, o);
    case RequestExampleCorrection(_, _, _, _) => CorrectionSourceStays(env, task, ws, audit, c, o);
    case _ => QuerySourceStays(env, ws, audit, c, o);
  }

  lemma QuerySourceStays(env: Env, ws: Workspace, audit: Audit, c: Call, o: Oracle)
    requires !Mutates(c)
    ensures var r := ExecuteQuery(env, ws, audit, c, o);
            r.ws.source == ws.source && r.ws.currentDigest == ws.currentDigest && !r.execution.Published?
  {
  }

  lemma ReviewSourceStays(env: Env, task: Request, ws: Workspace, audit: Audit, c: Call, o: Oracle)
    requires c.ReviewGeneratedTest?
    ensures var r := DoReviewGeneratedTest(env, task, ws, audit, c, o); r.ws.source == ws.source && OfItsSource(r, ws)
  {
    forall x: Workspace, a: Audit | x.currentDigest == ws.currentDigest
      ensures var r := Evaluate(env, task, x, a, o); r.ws.source == x.source && OfItsSource(r, ws)
    {
      EvaluatedSource(env, task, x, a, o, ws);
    }
  }

  lemma CorrectionSourceStays(env: Env, task: Request, ws: Workspace, audit: Audit, c: Call, o: Oracle)
    requires c.RequestExampleCorrection?
    ensures var r := DoRequestExampleCorrection(env, task, ws, audit, c, o); r.ws.source == ws.source && OfItsSource(r, ws)
  {
    var correction := ValidCorrection(env, task, c);
    if correction.Some? && ApplyCorrection(ws, correction.value).Some? {
      EvaluatedSource(env, task, ApplyCorrection(ws, correction.value).value,
                      audit.(approved := audit.approved[c.exampleIndex - 1 := correction.value]), o, ws);
    }
  }

  // ---------------------------------------------------------------- probes

  /** A probe runs exactly when it is valid, new for the candidate, within the budget, and the
      registry takes the stage; then its own result is kept under its own arguments. */
  lemma ProbeOutcome(env: Env, task: Request, ws: Workspace, audit: Audit, c: Call, o: Oracle)
    requires c.Probe?
    ensures var r := Execute(env, task, ws, audit, c, o);
            var valid := ValidReason(c.reason) && |c.args| <= 32 && (forall a | a in c.args :: |a| <= 4096) && |c.stdin| <= 1024 * 1024;
            if !valid || ws.currentDigest.None? then Untouched(r, ws, audit) && r.execution == Continue
            else
              var key := Fingerprint(ws.currentDigest.value, c.args, c.stdin);
              if key in ws.probeResults then Untouched(r, ws, audit) && r.execution == Continue
              else if ws.metrics.probesRun >= 3 then Untouched(r, ws, audit) && r.execution == Failed(AgentLimit)
              else if !o.stageValidatingOk then Untouched(r, ws, audit) && r.execution == Failed(StorageError)
              else
                && r.execution == Continue && r.audit == audit
                && r.ws.probeResults.Keys == ws.probeResults.Keys + {key} && r.ws.probeResults[key] == o.probeRun
                && (forall f | f in ws.probeResults :: r.ws.probeResults[f] == ws.probeResults[f])
                && r.ws == ws.(probeResults := r.ws.probeResults, metrics := r.ws.metrics)
                && r.ws.metrics == ws.metrics.(probesRun := ws.metrics.probesRun + 1)
  {
  }

  /** A probe that was run before for the same candidate and arguments is never run again. */
  lemma ProbeOnce(env: Env, task: Request, ws: Workspace, audit: Audit, c: Call, o: Oracle, o2: Oracle)
    requires c.Probe?
    requires Execute(env, task, ws, audit, c, o).ws.metrics.probesRun > ws.metrics.probesRun
    ensures var r := Execute(env, task, ws, audit, c, o); Untouched(Execute(env, task, r.ws, r.audit, c, o2), r.ws, r.audit)
  {
    ProbeOutcome(env, task, ws, audit, c, o);
    ProbeOutcome(env, task, Execute(env, task, ws, audit, c, o).ws, audit, c, o2);
  }

  // ---------------------------------------------------------------- reviews of generated tests

  /** A review changes an expectation exactly when the verifier finds that of the test that failed
      last wrong and gives another one that fits; then that test alone changes. */
  lemma ReviewOutcome(env: Env, task: Request, ws: Workspace, audit: Audit, c: Call, o: Oracle)
    requires c.ReviewGeneratedTest? && AgentOk(task, ws, audit)
    ensures var r := Execute(env, task, ws, audit, c, o);
            var acts := ValidReason(c.reason) && ws.metrics.generatedTestCorrections < 3 &&
                        exists at: nat :: FailedLast(ws, c.testName, at) && Replaces(env, task, ws, at, o);
            && (r.execution == Failed(AgentLimit) <==> ValidReason(c.reason) && ws.metrics.generatedTestCorrections >= 3)
            && (!acts ==> Untouched(r, ws, audit) && r.execution in {Continue, Failed(AgentLimit)})
            && (acts ==> exists at: nat :: FailedLast(ws, c.testName, at) && Replaces(env, task, ws, at, o) && Rechecked(ws, r, at, o))
  {
    ReviewedExactly(task, ws, audit, c.testName);
    ReviewExecuted(env, task, ws, audit, c, o);
    if at: nat :| FailedLast(ws, c.testName, at) && Replaces(env, task, ws, at, o) {
      var v := o.verdict.value;
      ReplacementRechecked(env, task, ws, audit.(changes := audit.changes + [OracleChange(at, v.stdout.value, v.exitCode.value)]), at, o);
    }
  }

  /** Test `at` expects what the verifier said; one more change is counted; the rest stays. */
  predicate Rechecked(ws: Workspace, r: Outcome, at: nat, o: Oracle)
    requires ws.draft.Some? && o.verdict.Some? && o.verdict.value.OracleWrong?
    requires o.verdict.value.stdout.Some? && o.verdict.value.exitCode.Some?
  {
    && r.ws.metrics == ws.metrics.(generatedTestCorrections := ws.metrics.generatedTestCorrections + 1)
    && r.ws.draft.Some? && r.ws.draft.value.contract == ws.draft.value.contract
    && r.ws.draft.value.userTestCount == ws.draft.value.userTestCount
    && OnlyExpectation(ws.draft.value.tests, r.ws.draft.value.tests, at, o.verdict.value.stdout.value, o.verdict.value.exitCode.value)
    && r.ws.corrections == ws.corrections && KeepsRest(r.ws, ws)
  }

  lemma ReplacementRechecked(env: Env, task: Request, ws: Workspace, audit: Audit, at: nat, o: Oracle)
    requires Replaces(env, task, ws, at, o)
    ensures var v := o.verdict.value;
            var r := Evaluate(env, task, ReplaceOracle(ws, at, v.stdout.value, v.exitCode.value), audit, o);
            Rechecked(ws, r, at, o) && r.execution != Failed(AgentLimit)
  {
    var ws1 := ReplaceOracle(ws, at, o.verdict.value.stdout.value, o.verdict.value.exitCode.value);
    EvaluationKeepsPlan(env, task, ws1, audit, o);
    EvaluationNeverLimits(env, task);
  }

  /** A replacement is applied and evaluated. */
  lemma ReviewExecuted(env: Env, task: Request, ws: Workspace, audit: Audit, c: Call, o: Oracle)
    requires c.ReviewGeneratedTest?
    ensures var r := Execute(env, task, ws, audit, c, o); var at := ReviewedTest(ws, c.testName);
            if ValidReason(c.reason) && ws.metrics.generatedTestCorrections >= 3 then r == Outcome(ws, audit, Failed(AgentLimit))
            else if !ValidReason(c.reason) || at.None? || !Replaces(env, task, ws, at.value, o) then r == Outcome(ws, audit, Continue)
            else
              var v := o.verdict.value;
              r == Evaluate(env, task, ReplaceOracle(ws, at.value, v.stdout.value, v.exitCode.value),
                            audit.(changes := audit.changes + [OracleChange(at.value, v.stdout.value, v.exitCode.value)]), o)
  {
  }

  /** The latest failure is of this generated test, at this index. */
  predicate FailedLast(ws: Workspace, name: TestName, at: nat) {
    && ws.latestFailure.Some? && ws.latestFailure.value.origin == GeneratedOrigin && ws.latestFailure.value.name == TestNamed(name)
    && ws.draft.Some? && ws.draft.value.userTestCount <= at < |ws.draft.value.tests| && ws.draft.value.tests[at].name == name
  }

  lemma ReviewedExactly(task: Request, ws: Workspace, audit: Audit, name: TestName)
    requires AgentOk(task, ws, audit)
    ensures forall at: nat :: FailedLast(ws, name, at) <==> ReviewedTest(ws, name) == Some(at)
  {
    if ws.draft.Some? {
      UserTestsOf(task, ws, audit);
      FindTestFinds(ws.draft.value.tests, name, ws.draft.value.userTestCount);
      if ReviewedTest(ws, name).Some? { ReviewedTestIsUnique(task, ws, audit, name); }
    }
  }

  /** The verifier's expectation is complete, valid for the format, and not the one there is. */
  predicate Replaces(env: Env, task: Request, ws: Workspace, at: nat, o: Oracle) {
    && ws.draft.Some? && at < |ws.draft.value.tests|
    && o.verdict.Some? && o.verdict.value.OracleWrong? && o.verdict.value.stdout.Some? && o.verdict.value.exitCode.Some?
    && (o.verdict.value.exitCode.value == 0 && task.outputFormat == JsonFormat ==> env.parse(o.verdict.value.stdout.value).Some?)
    && (ws.draft.value.tests[at].expectedStdout != o.verdict.value.stdout.value ||
        ws.draft.value.tests[at].expectedExitCode != o.verdict.value.exitCode.value)
  }

  /** Test i expects this now; the rest of it and every other test is the same. */
  predicate OnlyExpectation(was: seq<TestCase>, now: seq<TestCase>, i: nat, stdout: string, exitCode: int) {
    && |now| == |was| && i < |was| && (forall k | 0 <= k < |was| && k != i :: now[k] == was[k])
    && now[i].expectedStdout == stdout && now[i].expectedExitCode == exitCode
    && now[i].name == was[i].name && now[i].args == was[i].args && now[i].stdin == was[i].stdin && now[i].fixtures == was[i].fixtures
  }

  // ---------------------------------------------------------------- questions to the user

  /** A clarification is decided once, by the user's own text; until then it is asked, and another
      answer decides nothing. */
  lemma ClarificationOutcome(env: Env, task: Request, ws: Workspace, audit: Audit, c: Call, o: Oracle)
    requires c.RequestClarification?
    ensures var r := Execute(env, task, ws, audit, c, o);
            var fits := ValidReason(c.reason) && ValidClarification(c.key, c.question) && c.key !in ws.decisions;
            && r.audit == audit
            && (fits && o.answer.Some? && o.answer.value.Text? ==>
                  && r.execution == Continue && r.ws == ws.(decisions := r.ws.decisions)
                  && r.ws.decisions.Keys == ws.decisions.Keys + {c.key}
                  && (forall k | k in ws.decisions :: r.ws.decisions[k] == ws.decisions[k])
                  && r.ws.decisions[c.key].key == c.key && r.ws.decisions[c.key].question == c.question
                  && r.ws.decisions[c.key].answer == o.answer.value.text)
            && (!(fits && o.answer.Some? && o.answer.value.Text?) ==> r.ws == ws)
            && (r.execution.Suspended? <==> fits && o.answer.None? && o.suspendOk)
            && (r.execution.Suspended? ==> r.execution.kind == Clarification && r.execution.context == AboutDecision(c.key))
            && (r.execution == Failed(StorageError) <==> fits && o.answer.None? && !o.suspendOk)
            && (r.execution == Continue <==> !fits || o.answer.Some?)
  {
  }

  /** The call proposes another value of a registered example, within the limits and readable in
      the requested formats. */
  predicate Proposes(env: Env, task: Request, c: Call)
    requires c.RequestExampleCorrection?
  {
    && 1 <= c.exampleIndex <= |task.examples|
    && |c.correctedInput| <= 1024 * 1024 && |c.correctedOutput| <= 1024 * 1024
    && '\0' !in c.correctedInput && '\0' !in c.correctedOutput
    && (task.inputFormat == JsonFormat ==> env.parse(c.correctedInput).Some?)
    && (task.outputFormat == JsonFormat ==> env.parse(c.correctedOutput).Some?)
    && !(task.examples[c.exampleIndex - 1].input == c.correctedInput && task.examples[c.exampleIndex - 1].output == c.correctedOutput)
  }

  /** A correction is proposed of an example that has none yet; it is applied when the user has
      approved it, asked about when there is no answer, and otherwise nothing happens. */
  lemma CorrectionOutcome(env: Env, task: Request, ws: Workspace, audit: Audit, c: Call, o: Oracle)
    requires c.RequestExampleCorrection? && AgentOk(task, ws, audit)
    ensures var r := Execute(env, task, ws, audit, c, o); var i := c.exampleIndex - 1;
            var fits := ValidReason(c.reason) && Proposes(env, task, c) && i !in ws.corrections;
            && (r.execution.Suspended? <==> fits && o.answer.None? && o.suspendOk)
            && (r.execution.Suspended? ==> r.execution.kind == ExampleCorrection && r.execution.context.AboutExample?
                                           && IsProposed(task, c, r.execution.context.correction))
            && (fits && o.answer.None? && !o.suspendOk ==> r.execution == Failed(StorageError))
            && (!(fits && o.answer == Some(Approve)) ==> Untouched(r, ws, audit))
            && (!fits || (o.answer.Some? && o.answer != Some(Approve)) ==> r.execution == Continue)
            && (fits && o.answer == Some(Approve) ==> Corrects(task, ws, audit, c, r))
  {
    ProposedExactly(env, task, c);
    if ValidReason(c.reason) && Proposes(env, task, c) && c.exampleIndex - 1 !in ws.corrections && o.answer == Some(Approve) {
      CorrectionApplied(env, task, ws, audit, c, o);
    }
  }

  /** What an approved correction does: it is recorded, and the test of its example gets the new
      values. */
  predicate Corrects(task: Request, ws: Workspace, audit: Audit, c: Call, r: Outcome)
    requires c.RequestExampleCorrection? && 1 <= c.exampleIndex <= |task.examples|
  {
    && CorrectionKept(task, ws, c, r.ws) && r.audit == audit.(approved := r.ws.corrections)
    && DraftCorrected(ws, c, r.ws)
    && (!Ready(ws) ==> r.execution == Continue && r.ws.latestFailure.None?)
    && !r.execution.Suspended? && r.ws.metrics == ws.metrics && r.ws.source == ws.source && KeepsRest(r.ws, ws)
  }

  /** The correction is recorded for its example; the others stay. */
  predicate CorrectionKept(task: Request, ws: Workspace, c: Call, now: Workspace)
    requires c.RequestExampleCorrection? && 1 <= c.exampleIndex <= |task.examples|
  {
    var i := c.exampleIndex - 1;
    && now.corrections.Keys == ws.corrections.Keys + {i} && IsProposed(task, c, now.corrections[i])
    && (forall k | k in ws.corrections :: k in now.corrections && (k != i ==> now.corrections[k] == ws.corrections[k]))
  }

  /** Where there is a draft, its test of the example has the new values, and nothing else of it
      changed. */
  predicate DraftCorrected(ws: Workspace, c: Call, now: Workspace)
    requires c.RequestExampleCorrection? && 1 <= c.exampleIndex
  {
    if ws.draft.None? then now.draft.None?
    else
      && now.draft.Some? && now.draft.value.contract == ws.draft.value.contract
      && now.draft.value.userTestCount == ws.draft.value.userTestCount
      && OnlyValues(ws.draft.value.tests, now.draft.value.tests, c.exampleIndex - 1, c.correctedInput, c.correctedOutput)
  }

  lemma ProposedExactly(env: Env, task: Request, c: Call)
    requires c.RequestExampleCorrection?
    ensures ValidCorrection(env, task, c).Some? <==> Proposes(env, task, c)
    ensures Proposes(env, task, c) ==> IsProposed(task, c, ValidCorrection(env, task, c).value)
  {
  }

  lemma CorrectionApplied(env: Env, task: Request, ws: Workspace, audit: Audit, c: Call, o: Oracle)
    requires c.RequestExampleCorrection? && AgentOk(task, ws, audit) && ValidReason(c.reason) && Proposes(env, task, c)
    requires c.exampleIndex - 1 !in ws.corrections && o.answer == Some(Approve)
    ensures Corrects(task, ws, audit, c, Execute(env, task, ws, audit, c, o))
  {
    ProposedExactly(env, task, c);
    var correction := ValidCorrection(env, task, c).value;
    var audit1 := audit.(approved := audit.approved[c.exampleIndex - 1 := correction]);
    UserTestsOf(task, ws, audit);
    AppliedCorrects(task, ws, audit, c, correction);
    var applied := ApplyCorrection(ws, correction).value;
    CorrectionExecuted(env, task, ws, audit, c, o, correction);
    if Ready(ws) { EvaluatedCorrects(env, task, ws, audit, c, applied, audit1, o); }
  }

  /** Whatever is proposed and approved is recorded. */
  lemma CorrectionRecorded(env: Env, task: Request, ws: Workspace, audit: Audit, c: Call, o: Oracle)
    requires c.RequestExampleCorrection? && AgentOk(task, ws, audit) && ValidReason(c.reason)
    requires ValidCorrection(env, task, c).Some? && c.exampleIndex - 1 !in ws.corrections && o.answer == Some(Approve)
    ensures Execute(env, task, ws, audit, c, o).ws.corrections == ws.corrections[c.exampleIndex - 1 := ValidCorrection(env, task, c).value]
  {
    ProposedExactly(env, task, c);
    UserTestsOf(task, ws, audit);
    var correction := ValidCorrection(env, task, c).value;
    var applied := ApplyCorrection(ws, correction);
    AppliedValues(ws, c, correction);
    CorrectionExecuted(env, task, ws, audit, c, o, correction);
    if Ready(ws) {
      EvaluationKeepsPlan(env, task, applied.value, audit.(approved := audit.approved[c.exampleIndex - 1 := correction]), o);
    }
  }

  /** An approved correction is applied, and evaluated where there is something to evaluate. */
  lemma CorrectionExecuted(env: Env, task: Request, ws: Workspace, audit: Audit, c: Call, o: Oracle, correction: Correction)
    requires c.RequestExampleCorrection? && ValidReason(c.reason) && ValidCorrection(env, task, c) == Some(correction)
    requires c.exampleIndex - 1 !in ws.corrections && o.answer == Some(Approve) && ApplyCorrection(ws, correction).Some?
    requires Ready(ws) <==> Ready(ApplyCorrection(ws, correction).value)
    ensures var applied := ApplyCorrection(ws, correction).value;
            var audit1 := audit.(approved := audit.approved[c.exampleIndex - 1 := correction]);
            Execute(env, task, ws, audit, c, o) ==
            if Ready(ws) then Evaluate(env, task, applied, audit1, o) else Outcome(applied, audit1, Continue)
  {
  }

  lemma AppliedCorrects(task: Request, ws: Workspace, audit: Audit, c: Call, correction: Correction)
    requires c.RequestExampleCorrection? && 1 <= c.exampleIndex <= |task.examples| && audit.approved == ws.corrections
    requires IsProposed(task, c, correction)
    requires ws.draft.Some? ==> c.exampleIndex <= ws.draft.value.userTestCount <= |ws.draft.value.tests|
    ensures var applied := ApplyCorrection(ws, correction);
            && applied.Some? && (Ready(ws) <==> Ready(applied.value))
            && Corrects(task, ws, audit, c, Outcome(applied.value, audit.(approved := audit.approved[c.exampleIndex - 1 := correction]), Continue))
  {
    AppliedValues(ws, c, correction);
  }

  lemma UserTestsOf(task: Request, ws: Workspace, audit: Audit)
    requires AgentOk(task, ws, audit)
    ensures audit.approved == ws.corrections
    ensures ws.draft.Some? ==> |task.examples| == ws.draft.value.userTestCount <= |ws.draft.value.tests|
  {
  }

  lemma AppliedValues(ws: Workspace, c: Call, correction: Correction)
    requires c.RequestExampleCorrection? && 1 <= c.exampleIndex == correction.exampleIndex
    requires correction.corrected.input == c.correctedInput && correction.corrected.output == c.correctedOutput
    requires ws.draft.Some? ==> c.exampleIndex <= ws.draft.value.userTestCount <= |ws.draft.value.tests|
    ensures ApplyCorrection(ws, correction).Some?
    ensures var now := ApplyCorrection(ws, correction).value;
            && DraftCorrected(ws, c, now) && now.corrections == ws.corrections[c.exampleIndex - 1 := correction]
            && now.latestFailure.None? && now.metrics == ws.metrics && now.source == ws.source && KeepsRest(now, ws)
  {
  }

  lemma EvaluatedCorrects(env: Env, task: Request, ws: Workspace, audit: Audit, c: Call, applied: Workspace, audit1: Audit, o: Oracle)
    requires c.RequestExampleCorrection? && 1 <= c.exampleIndex <= |task.examples| && Ready(ws)
    requires Corrects(task, ws, audit, c, Outcome(applied, audit1, Continue))
    ensures Corrects(task, ws, audit, c, Evaluate(env, task, applied, audit1, o))
  {
    EvaluationKeepsPlan(env, task, applied, audit1, o);
  }

  lemma EvaluationKeepsPlan(env: Env, task: Request, ws: Workspace, audit: Audit, o: Oracle)
    ensures var r := Evaluate(env, task, ws, audit, o);
            && r.audit == audit && r.ws.corrections == ws.corrections && r.ws.draft == ws.draft && r.ws.metrics == ws.metrics
            && r.ws.source == ws.source && KeepsRest(r.ws, ws) && !r.execution.Suspended?
  {
    EvaluationAdds(env, task, ws, audit, o);
  }

  /** An evaluation writes the digest, the candidates and the failure. */
  lemma EvaluationAdds(env: Env, task: Request, ws: Workspace, audit: Audit, o: Oracle)
    ensures var r := Evaluate(env, task, ws, audit, o);
            && r.audit == audit && !r.execution.Suspended?
            && r.ws == ws.(currentDigest := r.ws.currentDigest, candidateDigests := r.ws.candidateDigests,
                           candidateSources := r.ws.candidateSources, latestFailure := r.ws.latestFailure)
  {
  }

  predicate IsProposed(task: Request, c: Call, correction: Correction)
    requires c.RequestExampleCorrection? && 1 <= c.exampleIndex <= |task.examples|
  {
    && correction.exampleIndex == c.exampleIndex && correction.original == task.examples[c.exampleIndex - 1]
    && correction.corrected.input == c.correctedInput && correction.corrected.output == c.correctedOutput
    && correction.reason == c.reason
  }

  /** Test i has this input and this expected output now; all else is the same. */
  predicate OnlyValues(was: seq<TestCase>, now: seq<TestCase>, i: int, input: string, output: string) {
    && |now| == |was| && 0 <= i < |was| && (forall k | 0 <= k < |was| && k != i :: now[k] == was[k])
    && now[i].stdin == input && now[i].expectedStdout == output && now[i].expectedExitCode == was[i].expectedExitCode
    && now[i].name == was[i].name && now[i].args == was[i].args && now[i].fixtures == was[i].fixtures
  }

  // ---------------------------------------------------------------- the web

  lemma SearchOutcome(env: Env, task: Request, ws: Workspace, audit: Audit, c: Call, o: Oracle)
    requires c.SearchWeb?
    ensures var r := Execute(env, task, ws, audit, c, o); var acts := ValidReason(c.reason) && ws.metrics.webSearches < 4;
            && r.audit == audit && r.ws == ws.(metrics := r.ws.metrics)
            && r.ws.metrics == ws.metrics.(webSearches := ws.metrics.webSearches + if acts then 1 else 0)
            && r.execution == if ValidReason(c.reason) && ws.metrics.webSearches >= 4 then Failed(AgentLimit) else Continue
  {
  }

  lemma FetchOutcome(env: Env, task: Request, ws: Workspace, audit: Audit, c: Call, o: Oracle)
    requires c.FetchDocument?
    ensures var r := Execute(env, task, ws, audit, c, o); var acts := ValidReason(c.reason) && ws.metrics.documentsFetched < 6;
            && r.audit == audit && r.ws == ws.(metrics := r.ws.metrics)
            && r.ws.metrics == ws.metrics.(documentsFetched := ws.metrics.documentsFetched + if acts then 1 else 0)
            && r.execution == if ValidReason(c.reason) && ws.metrics.documentsFetched >= 6 then Failed(AgentLimit) else Continue
  {
  }

  /** A capability not yet held is taken exactly when it is active already, or the user approved it
      and the approval was written; without an answer it is asked about. */
  lemma CapabilityOutcome(env: Env, task: Request, ws: Workspace, audit: Audit, c: Call, o: Oracle)
    requires c.RequestHttpCapability?
    ensures var r := Execute(env, task, ws, audit, c, o);
            var named := && ValidReason(c.reason) && c.capability.Some?
                         && forall g | g in ws.httpCapabilities :: g.approvalHash != HashCapability(c.capability.value);
            var open := named && |ws.httpCapabilities| < 8 && !o.alreadyApproved;
            var taken := named && |ws.httpCapabilities| < 8 && (o.alreadyApproved || (o.answer == Some(Approve) && o.approveOk));
            && r.audit == audit
            && (if taken then r.ws == ws.(httpCapabilities := r.ws.httpCapabilities) && r.execution == Continue
                              && r.ws.httpCapabilities == ws.httpCapabilities + [Grant(HashCapability(c.capability.value), c.capability.value)]
                else r.ws == ws)
            && (r.execution == Failed(AgentLimit) <==> named && |ws.httpCapabilities| >= 8)
            && (r.execution.Suspended? <==> open && o.answer.None? && o.suspendOk)
            && (r.execution.Suspended? ==>
                  r.execution.kind == SourceApproval &&
                  r.execution.context == AboutSource(HashCapability(c.capability.value), c.capability.value))
            && (r.execution == Failed(StorageError) <==>
                  open && ((o.answer.None? && !o.suspendOk) || (o.answer == Some(Approve) && !o.approveOk)))
  {
    if c.capability.Some? { HeldExactly(ws.httpCapabilities, HashCapability(c.capability.value)); }
  }

  lemma HeldExactly(caps: seq<Grant>, hash: CapabilityHash)
    ensures HoldsHash(caps, hash) <==> exists g :: g in caps && g.approvalHash == hash
  {
    assert forall k | 0 <= k < |caps| :: caps[k] in caps;
  }

  /** A call writes the approval of its own capability exactly when it takes it on the word of the
      user, and not when it was active already. */
  lemma ApprovalExactly(env: Env, task: Request, ws: Workspace, audit: Audit, c: Call, o: Oracle)
    ensures ApprovalWritten(ws, c, o).Some? <==>
              c.RequestHttpCapability? && !o.alreadyApproved && Execute(env, task, ws, audit, c, o).ws != ws
    ensures ApprovalWritten(ws, c, o).Some? ==>
              c.capability.Some? && ApprovalWritten(ws, c, o).value == HashCapability(c.capability.value) && o.answer == Some(Approve)
  {
  }

  /** Two capabilities have one hash exactly when host, path and query keys are the same, whatever
      their purpose. */
  lemma HashExactly(a: Capability, b: Capability)
    ensures HashCapability(a) == HashCapability(b) <==> a.host == b.host && a.pathPrefix == b.pathPrefix && a.queryKeys == b.queryKeys
  {
  }

  /** A release drops the grant of that hash and the records of its source, and keeps the others in
      their order. */
  lemma ReleaseOutcome(env: Env, task: Request, ws: Workspace, audit: Audit, c: Call, o: Oracle)
    requires c.ReleaseHttpCapability? && AgentOk(task, ws, audit)
    ensures var r := Execute(env, task, ws, audit, c, o);
            && r.execution == Continue && r.audit == audit
            && (if ValidReason(c.reason) && exists g :: g in ws.httpCapabilities && g.approvalHash == c.hash
                then
                  && r.ws == ws.(httpCapabilities := r.ws.httpCapabilities, httpProbeRecords := r.ws.httpProbeRecords)
                  && Without(ws.httpCapabilities, r.ws.httpCapabilities, c.hash)
                  && (forall x | x in ws.httpProbeRecords :: x in r.ws.httpProbeRecords <==> x.capabilityHash != c.hash)
                else r.ws == ws)
  {
    HeldExactly(ws.httpCapabilities, c.hash);
    if HoldsHash(ws.httpCapabilities, c.hash) {
      WithoutFirstDrops(ws.httpCapabilities, c.hash);
      RecordsOfOthers(ws.httpProbeRecords, c.hash);
    }
  }

  /** The grants but the one of this hash, in their order. */
  ghost predicate Without(caps: seq<Grant>, rest: seq<Grant>, hash: CapabilityHash) {
    exists k | 0 <= k < |caps| :: caps[k].approvalHash == hash && rest == caps[..k] + caps[k + 1..]
  }

  lemma {:induction false} WithoutFirstDrops(caps: seq<Grant>, hash: CapabilityHash)
    requires HoldsHash(caps, hash)
    ensures Without(caps, WithoutFirst(caps, hash), hash)
  {
    var rest := caps[1..];
    if caps[0].approvalHash == hash {
      assert caps[..0] + caps[1..] == rest;
    } else {
      var i :| 0 <= i < |caps| && caps[i].approvalHash == hash;
      assert rest[i - 1] == caps[i];
      WithoutFirstDrops(rest, hash);
      var k :| 0 <= k < |rest| && rest[k].approvalHash == hash && WithoutFirst(rest, hash) == rest[..k] + rest[k + 1..];
      GapMoves(caps, k);
      assert caps[k + 1].approvalHash == hash;
    }
  }

  lemma GapMoves(caps: seq<Grant>, k: nat)
    requires k + 1 < |caps|
    ensures [caps[0]] + (caps[1..][..k] + caps[1..][k + 1..]) == caps[..k + 1] + caps[k + 2..]
    ensures caps[1..][k] == caps[k + 1]
  {
  }

  /** The records that remain are in their order: those of a part, then those of the rest. */
  lemma {:induction false} RecordsInOrder(a: seq<ProbeRecord>, b: seq<ProbeRecord>, hash: CapabilityHash)
    ensures RecordsWithout(a + b, hash) == RecordsWithout(a, hash) + RecordsWithout(b, hash)
  {
    if a == [] {
      assert a + b == b;
    } else {
      RecordsInOrder(a[1..], b, hash);
      assert (a + b)[1..] == a[1..] + b && (a + b)[0] == a[0];
      var first := if a[0].capabilityHash == hash then [] else [a[0]];
      assert first + (RecordsWithout(a[1..], hash) + RecordsWithout(b, hash)) == (first + RecordsWithout(a[1..], hash)) + RecordsWithout(b, hash);
    }
  }

  /** The first held capability that covers this safe URL. */
  predicate CoversFirst(env: Env, caps: seq<Grant>, url: string, k: nat) {
    && env.safeUrl(url) && k < |caps| && env.covers(caps[k].capability, url)
    && forall i | 0 <= i < k :: !env.covers(caps[i].capability, url)
  }

  lemma {:induction false} CoveringExactly(env: Env, caps: seq<Grant>, url: string, k: nat)
    ensures CoversFirst(env, caps, url, k) ==> CoveringCapability(env, caps, url) == Some(caps[k])
    decreases k
  {
    if CoversFirst(env, caps, url, k) && k > 0 {
      assert caps[1..][k - 1] == caps[k];
      assert forall i | 0 <= i < k - 1 :: caps[1..][i] == caps[i + 1];
      CoveringExactly(env, caps[1..], url, k - 1);
    }
  }

  lemma {:induction false} CoveringIsFirst(env: Env, caps: seq<Grant>, url: string)
    requires CoveringCapability(env, caps, url).Some?
    ensures exists k: nat :: CoversFirst(env, caps, url, k) && CoveringCapability(env, caps, url).value == caps[k]
  {
    if env.covers(caps[0].capability, url) {
      assert CoversFirst(env, caps, url, 0);
    } else {
      CoveringIsFirst(env, caps[1..], url);
      var k: nat :| CoversFirst(env, caps[1..], url, k) && CoveringCapability(env, caps[1..], url).value == caps[1..][k];
      forall i | 0 <= i < k + 1 ensures !env.covers(caps[i].capability, url) { if i > 0 { assert caps[1..][i - 1] == caps[i]; } }
      assert CoversFirst(env, caps, url, k + 1) && caps[k + 1] == caps[1..][k];
    }
  }

  /** The response of a probe, recorded under the first capability that covers its URL. */
  ghost predicate RecordedUnder(env: Env, ws: Workspace, url: string, o: Oracle, record: ProbeRecord) {
    && (exists k: nat :: CoversFirst(env, ws.httpCapabilities, url, k) && record.capabilityHash == ws.httpCapabilities[k].approvalHash)
    && record.requestUrl == url && record.finalUrl == o.probed.finalUrl && record.status == o.probed.status
    && record.contentType == o.probed.contentType && record.body == o.probed.body
  }

  /** An HTTP probe is charged when a held capability covers its URL, and records what came back
      under the first such capability and that URL. */
  lemma ProbeHttpOutcome(env: Env, task: Request, ws: Workspace, audit: Audit, c: Call, o: Oracle)
    requires c.ProbeHttp?
    ensures var r := Execute(env, task, ws, audit, c, o);
            var acts := ValidReason(c.reason) && ws.metrics.httpProbes < 6 && exists k: nat :: CoversFirst(env, ws.httpCapabilities, c.url, k);
            && r.audit == audit && r.ws == ws.(metrics := r.ws.metrics, httpProbeRecords := r.ws.httpProbeRecords)
            && r.ws.metrics == ws.metrics.(httpProbes := ws.metrics.httpProbes + if acts then 1 else 0)
            && r.execution == (if ValidReason(c.reason) && ws.metrics.httpProbes >= 6 then Failed(AgentLimit) else Continue)
            && (!(acts && o.webOk) ==> r.ws.httpProbeRecords == ws.httpProbeRecords)
            && (acts && o.webOk ==>
                  && |r.ws.httpProbeRecords| == |ws.httpProbeRecords| + 1 && ws.httpProbeRecords < r.ws.httpProbeRecords
                  && RecordedUnder(env, ws, c.url, o, r.ws.httpProbeRecords[|ws.httpProbeRecords|]))
  {
    if k: nat :| CoversFirst(env, ws.httpCapabilities, c.url, k) {
      CoveringExactly(env, ws.httpCapabilities, c.url, k);
    } else if CoveringCapability(env, ws.httpCapabilities, c.url).Some? {
      CoveringIsFirst(env, ws.httpCapabilities, c.url);
    }
  }

  /** A refusal of the model ends the run; what cannot be read changes nothing. */
  lemma AbortOutcome(env: Env, task: Request, ws: Workspace, audit: Audit, c: Call, o: Oracle)
    requires c.Abort? || c.Malformed?
    ensures var r := Execute(env, task, ws, audit, c, o);
            Untouched(r, ws, audit) && r.execution == if c.Abort? && ValidReason(c.reason) then Failed(AgentAborted) else Continue
  {
  }
}
