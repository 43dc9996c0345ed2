/** One tool call of the synthesis agent, as a function of its workspace
    (jobs.rs, execute_tool_inner and evaluate_after_mutation).

    The model, the reviewer, the verifier, the sandbox, the registry and the user are an
    arbitrary Oracle, chosen afresh for each call. */
module ToolCalls {
  import opened Wrappers
  import opened ArtifactTypes
  import opened AgentTypes
  import opened JsonValues
  import opened Text
  import Truncation

  const MAX_SOURCE_REVISIONS: nat := 4
  const MAX_GENERATED_TEST_CORRECTIONS: nat := 3
  const MAX_PROBES: nat := 3
  const MAX_WEB_SEARCHES: nat := 4
  const MAX_DOCUMENT_FETCHES: nat := 6
  const MAX_HTTP_PROBES: nat := 6
  const MAX_HTTP_CAPABILITIES: nat := 8
  const MAX_GENERATED_TESTS: nat := 12
  const MIB: nat := 1024 * 1024

  /** Library behaviour the agent relies on. */
  datatype Env = Env(
    parse: JsonReader,
    isUtf8: string -> bool,
    fixturesEncode: seq<Fixture> -> bool,   // the encoded fixtures fit in 96 KiB
    covers: (Capability, string) -> bool,   // the URL is one the capability allows
    safeUrl: string -> bool)

  /** The answers of the outside world to one call; false means a lost lease. */
  datatype Oracle = Oracle(
    saveContractOk: bool,
    stageBuildingOk: bool,
    stageValidatingOk: bool,
    publishOk: bool,
    suspendOk: bool,
    approveOk: bool,
    putOk: bool,
    buildOk: bool,
    webOk: bool,
    review: Option<Review>,
    verdict: Option<Verdict>,
    sampleRuns: nat -> RunResult,
    testRuns: nat -> RunResult,
    probeRun: RunResult,
    probed: ProbeRecord,
    answer: Option<Answer>,
    alreadyApproved: bool,
    now: int)

  datatype Outcome = Outcome(ws: Workspace, audit: Audit, execution: Execution)

  // ---------------------------------------------------------------- checks on arguments

  predicate ValidReason(reason: string) {
    !Blank(reason) && |reason| <= 2048
  }

  predicate ValidSource(source: string) {
    0 < |source| <= 64 * 1024 && '\0' !in source
  }

  predicate ValidProbe(args: seq<string>, stdin: string) {
    |args| <= 32 && (forall a | a in args :: |a| <= 4096) && |stdin| <= MIB
  }

  predicate IsKeyChar(c: char) {
    'a' <= c <= 'z' || '0' <= c <= '9' || c == '.' || c == '_' || c == '-'
  }

  predicate IsAlphanumeric(c: char) {
    'a' <= c <= 'z' || 'A' <= c <= 'Z' || '0' <= c <= '9'
  }

  predicate ValidDecisionKey(key: string) {
    && 0 < |key| <= 128
    && (forall i | 0 <= i < |key| :: IsKeyChar(key[i]))
    && IsAlphanumeric(key[0]) && IsAlphanumeric(key[|key| - 1])
    && (forall i | 0 < i < |key| :: !(key[i - 1] == '.' && key[i] == '.'))
  }

  predicate ValidClarification(key: string, question: string) {
    ValidDecisionKey(key) && !Blank(question) && |question| <= 4096
  }

  // ---------------------------------------------------------------- the test plan

  /** approved_capability_for_url: the first approved capability that covers the URL. */
  function CoveringCapability(env: Env, caps: seq<Grant>, url: string): Option<Grant>
  {
    if caps == [] || !env.safeUrl(url) then None
    else if env.covers(caps[0].capability, url) then Some(caps[0])
    else CoveringCapability(env, caps[1..], url)
  }

  predicate ValidFixtures(env: Env, caps: seq<Grant>, fixtures: seq<Fixture>) {
    && |fixtures| <= 8
    && env.fixturesEncode(fixtures)
    && (forall f | f in fixtures ::
          && |f.requestUrl| <= 4096 && |f.responseUrl| <= 4096 && 100 <= f.status <= 599
          && 0 < |f.contentType| <= 256 && |f.body| <= 64 * 1024)
    && (forall i, j | 0 <= i < j < |fixtures| :: fixtures[i].requestUrl != fixtures[j].requestUrl)
    && (forall f | f in fixtures ::
          CoveringCapability(env, caps, f.requestUrl).Some? && CoveringCapability(env, caps, f.responseUrl).Some?)
  }

  /** A test name is at most 128 bytes.  One of a user example always fits; that of a generated
      test is its title, a text of characters, after "generated-", the index and a dash. */
  predicate NameFits(name: TestName) {
    name.Generated? ==> 11 + (if name.index < 10 then 1 else 2) + Truncation.Bytes(name.title) <= 128
  }

  predicate ValidTest(env: Env, format: IoFormat, caps: seq<Grant>, test: TestCase) {
    && NameFits(test.name)
    && |test.stdin| <= MIB && |test.expectedStdout| <= MIB
    && |test.args| <= 32 && (forall a | a in test.args :: |a| <= 4096)
    && (format == JsonFormat && test.expectedExitCode == 0 ==> env.parse(test.expectedStdout).Some?)
    && ValidFixtures(env, caps, test.fixtures)
  }

  /** The registered example, or the correction the user approved for it. */
  function EffectiveExample(task: Request, corrections: map<nat, Correction>, i: nat): Example
    requires i < |task.examples|
  {
    if i in corrections then corrections[i].corrected else task.examples[i]
  }

  function RecordsToFixtures(records: seq<ProbeRecord>): seq<Fixture> {
    seq(|records|, i requires 0 <= i < |records| =>
      Fixture(records[i].requestUrl, records[i].finalUrl, records[i].status, records[i].contentType, records[i].body))
  }

  function UserTest(task: Request, corrections: map<nat, Correction>, fixtures: seq<Fixture>, i: nat): TestCase
    requires i < |task.examples|
  {
    var e := EffectiveExample(task, corrections, i);
    TestCase(UserExample(i + 1), [], e.input, e.output, 0, fixtures)
  }

  function UserTests(task: Request, corrections: map<nat, Correction>, fixtures: seq<Fixture>): seq<TestCase> {
    seq(|task.examples|, i requires 0 <= i < |task.examples| => UserTest(task, corrections, fixtures, i))
  }

  /** The first 96 characters of the trimmed title, which may still be too many bytes. */
  function CleanTitle(title: string): string {
    var t := Trim(title);
    if t == "" then "test" else if |t| > 96 then t[..96] else t
  }

  function GeneratedTests(tests: seq<ProposedTest>): seq<TestCase> {
    var n := if |tests| <= MAX_GENERATED_TESTS then |tests| else MAX_GENERATED_TESTS;
    seq(n, i requires 0 <= i < n =>
      var t := tests[i];
      TestCase(Generated(i + 1, CleanTitle(t.title)), t.args, t.stdin, t.expectedStdout, t.expectedExitCode, t.fixtures))
  }

  predicate ValidContractText(c: Contract) {
    && !Blank(c.summary) && |c.summary| <= 4096
    && |c.assumptions| <= 32 && |c.invariants| <= 32
    && (forall a | a in c.assumptions + c.invariants :: |a| <= 4096)
  }

  /** validate_contract. */
  function BuildDraft(env: Env, task: Request, ws: Workspace, contract: Contract, proposed: seq<ProposedTest>): Option<Draft>
  {
    var tests := UserTests(task, ws.corrections, RecordsToFixtures(ws.httpProbeRecords)) + GeneratedTests(proposed);
    if !ValidContractText(contract) || tests == [] then None
    else if exists t | t in tests :: !ValidTest(env, task.outputFormat, ws.httpCapabilities, t) then None
    else Some(Draft(contract, tests, |task.examples|))
  }

  // ---------------------------------------------------------------- validation

  predicate SamplePasses(env: Env, format: IoFormat, r: RunResult) {
    && r.Ran? && r.exitCode == 0
    && (if format == JsonFormat then env.parse(r.stdout).Some? else env.isUtf8(r.stdout))
  }

  predicate TestPasses(env: Env, format: IoFormat, test: TestCase, r: RunResult) {
    && r.Ran? && r.exitCode == test.expectedExitCode
    && ValidateStdout(env.parse, format, test.expectedExitCode, test.expectedStdout, r.stdout).None?
  }

  function ExitOf(r: RunResult): Option<int> {
    if r.Ran? then Some(r.exitCode) else None
  }

  /** validate_input_samples from sample i on. */
  function SampleFailure(env: Env, format: IoFormat, count: nat, runs: nat -> RunResult, i: nat): Option<Snapshot>
    requires i <= count
    decreases count - i
  {
    if i == count then None
    else if !SamplePasses(env, format, runs(i)) then Some(Snapshot(SampleNamed(i + 1), SampleOrigin, ExitOf(runs(i))))
    else SampleFailure(env, format, count, runs, i + 1)
  }

  /** validate_tests from test i on. */
  function TestFailure(env: Env, format: IoFormat, draft: Draft, runs: nat -> RunResult, i: nat): Option<Snapshot>
    requires i <= |draft.tests|
    decreases |draft.tests| - i
  {
    if i == |draft.tests| then None
    else if !TestPasses(env, format, draft.tests[i], runs(i)) then
      Some(Snapshot(TestNamed(draft.tests[i].name),
                    if i < draft.userTestCount then UserOrigin else GeneratedOrigin, ExitOf(runs(i))))
    else TestFailure(env, format, draft, runs, i + 1)
  }

  function ValidationFailure(env: Env, task: Request, draft: Draft, o: Oracle): Option<Snapshot> {
    var s := SampleFailure(env, task.outputFormat, |task.inputSamples|, o.sampleRuns, 0);
    if s.Some? then s else TestFailure(env, task.outputFormat, draft, o.testRuns, 0)
  }

  /** store_candidate: every test and sample is written down as passed before it is run. */
  function CandidateBundle(task: Request, ws: Workspace, draft: Draft, source: string, now: int): Bundle {
    var n, m := |draft.tests|, |task.inputSamples|;
    Bundle(
      Manifest(task.inputFormat, task.outputFormat, SourceHash(source), ws.httpCapabilities),
      draft.contract,
      source,
      draft.tests,
      Validation(n, n, m, m,
                 if ws.metrics.sourceRevisions == 0 then 0 else ws.metrics.sourceRevisions - 1,
                 ws.metrics.turns, ws.metrics.generatedTestCorrections, ws.metrics.probesRun, now))
  }

  function WithCandidate(ws: Workspace, b: Bundle): Workspace {
    ws.(candidateDigests := ws.candidateDigests + {SemanticDigest(b)},
        candidateSources := ws.candidateSources + {b.manifest.sourceHash},
        currentDigest := Some(SemanticDigest(b)))
  }

  /** evaluate_after_mutation. */
  function Evaluate(env: Env, task: Request, ws: Workspace, audit: Audit, o: Oracle): Outcome
  {
    if ws.draft.None? || ws.source.None? then Outcome(ws, audit, Continue)
    else if !o.stageBuildingOk then Outcome(ws, audit, Failed(StorageError))
    else if !o.putOk then Outcome(ws, audit, Failed(ArtifactError))
    else
      var bundle := CandidateBundle(task, ws, ws.draft.value, ws.source.value, o.now);
      var ws1 := WithCandidate(ws, bundle);
      var failure := ValidationFailure(env, task, ws.draft.value, o);
      if !o.buildOk then Outcome(ws1, audit, Failed(RunnerError))
      else if !o.stageValidatingOk then Outcome(ws1, audit, Failed(StorageError))
      else if failure.Some? then Outcome(ws1.(latestFailure := failure), audit, Continue)
      else Outcome(ws1.(latestFailure := None), audit, if o.publishOk then Published(bundle) else Failed(StorageError))
  }

  // ---------------------------------------------------------------- contract and source

  function DoSubmitContract(env: Env, task: Request, ws: Workspace, audit: Audit, c: Call, o: Oracle): Outcome
    requires c.SubmitContract?
  {
    var draft := BuildDraft(env, task, ws, Contract(c.summary, c.assumptions, c.invariants), c.tests);
    if !ValidReason(c.reason) || draft.None? || o.review.None? then Outcome(ws, audit, Continue)
    else
      var review := o.review.value;
      var ws1 := ws.(reviews := ws.reviews + [review]);
      match review.decision
      case Revise => Outcome(ws1, audit, Continue)
      case Refuse => Outcome(ws1, audit, Failed(AgentAborted))
      case Accept =>
        if !o.saveContractOk then Outcome(ws1, audit, Failed(StorageError))
        else Outcome(ws1.(draft := draft, latestFailure := None),
                     audit.(accepted := draft, acceptedReview := Some(review), changes := []), Continue)
  }

  function WithSource(ws: Workspace, source: string): Workspace {
    ws.(source := Some(source), metrics := ws.metrics.(sourceRevisions := ws.metrics.sourceRevisions + 1))
  }

  function DoWriteSource(env: Env, task: Request, ws: Workspace, audit: Audit, c: Call, o: Oracle): Outcome
    requires c.WriteSource?
  {
    if !ValidReason(c.reason) || !ValidSource(c.source) || ws.draft.None? || ws.source.Some? then Outcome(ws, audit, Continue)
    else if ws.metrics.sourceRevisions >= MAX_SOURCE_REVISIONS then Outcome(ws, audit, Failed(AgentLimit))
    else Evaluate(env, task, WithSource(ws, c.source), audit, o)
  }

  /** The least position at or after i where p occurs in s. */
  function FindFrom(s: string, p: string, i: nat): Option<nat>
    requires p != "" && i <= |s|
    decreases |s| - i
  {
    if i + |p| > |s| then None
    else if s[i..i + |p|] == p then Some(i)
    else FindFrom(s, p, i + 1)
  }

  /** match_indices: occurrences that do not overlap, left to right. */
  function CountMatches(s: string, p: string, i: nat): nat
    requires p != "" && i <= |s|
    decreases |s| - i
  {
    var at := FindFrom(s, p, i);
    if at.None? then 0 else if i <= at.value && at.value + |p| <= |s| then 1 + CountMatches(s, p, at.value + |p|) else 0
  }

  /** The source after the edit, when the fragment occurs exactly once. */
  function EditedSource(source: string, oldText: string, newText: string): Option<string>
    requires oldText != ""
  {
    var at := FindFrom(source, oldText, 0);
    if CountMatches(source, oldText, 0) != 1 then None
    else if at.Some? && at.value + |oldText| <= |source|
    then Some(source[..at.value] + newText + source[at.value + |oldText|..])
    else None
  }

  function DoEditSource(env: Env, task: Request, ws: Workspace, audit: Audit, c: Call, o: Oracle): Outcome
    requires c.EditSource?
  {
    if !ValidReason(c.reason) || c.oldText == "" then Outcome(ws, audit, Continue)
    else if ws.metrics.sourceRevisions >= MAX_SOURCE_REVISIONS then Outcome(ws, audit, Failed(AgentLimit))
    else if ws.source.None? then Outcome(ws, audit, Continue)
    else
      var edited := EditedSource(ws.source.value, c.oldText, c.newText);
      if edited.None? || !ValidSource(edited.value) || edited == ws.source then Outcome(ws, audit, Continue)
      else Evaluate(env, task, WithSource(ws, edited.value), audit, o)
  }

  // ---------------------------------------------------------------- probes and reviews

  function DoProbe(ws: Workspace, audit: Audit, c: Call, o: Oracle): Outcome
    requires c.Probe?
  {
    if !ValidReason(c.reason) || !ValidProbe(c.args, c.stdin) || ws.currentDigest.None? then Outcome(ws, audit, Continue)
    else
      var fingerprint := Fingerprint(ws.currentDigest.value, c.args, c.stdin);
      if fingerprint in ws.probeResults then Outcome(ws, audit, Continue)
      else if ws.metrics.probesRun >= MAX_PROBES then Outcome(ws, audit, Failed(AgentLimit))
      else if !o.stageValidatingOk then Outcome(ws, audit, Failed(StorageError))
      else Outcome(ws.(metrics := ws.metrics.(probesRun := ws.metrics.probesRun + 1),
                       probeResults := ws.probeResults[fingerprint := o.probeRun]), audit, Continue)
  }

  /** The first generated test of that name, from index i on. */
  function FindTest(tests: seq<TestCase>, name: TestName, i: nat): Option<nat>
    requires i <= |tests|
    decreases |tests| - i
  {
    if i == |tests| then None else if tests[i].name == name then Some(i) else FindTest(tests, name, i + 1)
  }

  function WithOracle(t: TestCase, stdout: string, exitCode: int): TestCase {
    t.(expectedStdout := stdout, expectedExitCode := exitCode)
  }

  /** The workspace after the verifier replaced the expectation of test i. */
  function ReplaceOracle(ws: Workspace, i: nat, stdout: string, exitCode: int): Workspace
    requires ws.draft.Some? && i < |ws.draft.value.tests|
  {
    var draft := ws.draft.value;
    ws.(draft := Some(draft.(tests := draft.tests[i := WithOracle(draft.tests[i], stdout, exitCode)])),
        metrics := ws.metrics.(generatedTestCorrections := ws.metrics.generatedTestCorrections + 1))
  }

  /** The generated test a review may look at: the one that failed last. */
  function ReviewedTest(ws: Workspace, name: TestName): Option<nat> {
    if ws.draft.None? || ws.draft.value.userTestCount > |ws.draft.value.tests| then None
    else if ws.latestFailure.None? || ws.latestFailure.value.origin != GeneratedOrigin then None
    else if ws.latestFailure.value.name != TestNamed(name) then None
    else FindTest(ws.draft.value.tests, name, ws.draft.value.userTestCount)
  }

  function DoReviewGeneratedTest(env: Env, task: Request, ws: Workspace, audit: Audit, c: Call, o: Oracle): Outcome
    requires c.ReviewGeneratedTest?
  {
    var at := ReviewedTest(ws, c.testName);
    if !ValidReason(c.reason) then Outcome(ws, audit, Continue)
    else if ws.metrics.generatedTestCorrections >= MAX_GENERATED_TEST_CORRECTIONS then Outcome(ws, audit, Failed(AgentLimit))
    else if at.None? || o.verdict.None? || !o.verdict.value.OracleWrong? then Outcome(ws, audit, Continue)
    else if o.verdict.value.stdout.None? || o.verdict.value.exitCode.None? then Outcome(ws, audit, Continue)
    else
      var stdout, exitCode := o.verdict.value.stdout.value, o.verdict.value.exitCode.value;
      if exitCode == 0 && task.outputFormat == JsonFormat && env.parse(stdout).None? then Outcome(ws, audit, Continue)
      else if at.value >= |ws.draft.value.tests| then Outcome(ws, audit, Continue)
      else
        var test := ws.draft.value.tests[at.value];
        if test.expectedStdout == stdout && test.expectedExitCode == exitCode then Outcome(ws, audit, Continue)
        else Evaluate(env, task, ReplaceOracle(ws, at.value, stdout, exitCode),
                      audit.(changes := audit.changes + [OracleChange(at.value, stdout, exitCode)]), o)
  }

  // ---------------------------------------------------------------- questions to the user

  function DoRequestClarification(ws: Workspace, audit: Audit, c: Call, o: Oracle): Outcome
    requires c.RequestClarification?
  {
    if !ValidReason(c.reason) || !ValidClarification(c.key, c.question) || c.key in ws.decisions then Outcome(ws, audit, Continue)
    else if o.answer.Some? then
      if o.answer.value.Text?
      then Outcome(ws.(decisions := ws.decisions[c.key := Decision(c.key, c.question, o.answer.value.text)]), audit, Continue)
      else Outcome(ws, audit, Continue)
    else Outcome(ws, audit, if o.suspendOk then Suspended(Clarification, AboutDecision(c.key)) else Failed(StorageError))
  }

  /** validate_example_correction. */
  function ValidCorrection(env: Env, task: Request, c: Call): Option<Correction>
    requires c.RequestExampleCorrection?
  {
    var corrected := Example(c.correctedInput, c.correctedOutput);
    if !(1 <= c.exampleIndex <= |task.examples|) then None
    else if |c.correctedInput| > MIB || |c.correctedOutput| > MIB || '\0' in c.correctedInput || '\0' in c.correctedOutput then None
    else if task.inputFormat == JsonFormat && env.parse(c.correctedInput).None? then None
    else if task.outputFormat == JsonFormat && env.parse(c.correctedOutput).None? then None
    else if task.examples[c.exampleIndex - 1] == corrected then None
    else Some(Correction(c.exampleIndex, task.examples[c.exampleIndex - 1], corrected, c.reason))
  }

  /** apply_example_correction; None is its refusal. */
  function ApplyCorrection(ws: Workspace, correction: Correction): Option<Workspace>
    requires correction.exampleIndex >= 1
  {
    var i := correction.exampleIndex - 1;
    var recorded := ws.(corrections := ws.corrections[i := correction], latestFailure := None);
    if ws.draft.None? then Some(recorded)
    else if i >= ws.draft.value.userTestCount || i >= |ws.draft.value.tests| then None
    else
      var t := ws.draft.value.tests[i];
      var t' := t.(stdin := correction.corrected.input, expectedStdout := correction.corrected.output);
      Some(recorded.(draft := Some(ws.draft.value.(tests := ws.draft.value.tests[i := t']))))
  }

  function DoRequestExampleCorrection(env: Env, task: Request, ws: Workspace, audit: Audit, c: Call, o: Oracle): Outcome
    requires c.RequestExampleCorrection?
  {
    var correction := ValidCorrection(env, task, c);
    if !ValidReason(c.reason) || correction.None? then Outcome(ws, audit, Continue)
    else if c.exampleIndex - 1 in ws.corrections then Outcome(ws, audit, Continue)
    else if o.answer.Some? then
      if !o.answer.value.Approve? then Outcome(ws, audit, Continue)
      else
        var applied := ApplyCorrection(ws, correction.value);
        if applied.None? then Outcome(ws, audit, Continue)
        else
          var audit1 := audit.(approved := audit.approved[c.exampleIndex - 1 := correction.value]);
          if applied.value.source.Some? && applied.value.draft.Some?
          then Evaluate(env, task, applied.value, audit1, o)
          else Outcome(applied.value, audit1, Continue)
    else Outcome(ws, audit, if o.suspendOk then Suspended(ExampleCorrection, AboutExample(correction.value)) else Failed(StorageError))
  }

  // ---------------------------------------------------------------- the web

  function DoSearchWeb(ws: Workspace, audit: Audit, c: Call): Outcome
    requires c.SearchWeb?
  {
    if !ValidReason(c.reason) then Outcome(ws, audit, Continue)
    else if ws.metrics.webSearches >= MAX_WEB_SEARCHES then Outcome(ws, audit, Failed(AgentLimit))
    else Outcome(ws.(metrics := ws.metrics.(webSearches := ws.metrics.webSearches + 1)), audit, Continue)
  }

  function DoFetchDocument(ws: Workspace, audit: Audit, c: Call): Outcome
    requires c.FetchDocument?
  {
    if !ValidReason(c.reason) then Outcome(ws, audit, Continue)
    else if ws.metrics.documentsFetched >= MAX_DOCUMENT_FETCHES then Outcome(ws, audit, Failed(AgentLimit))
    else Outcome(ws.(metrics := ws.metrics.(documentsFetched := ws.metrics.documentsFetched + 1)), audit, Continue)
  }

  predicate HoldsHash(caps: seq<Grant>, hash: CapabilityHash) {
    exists i | 0 <= i < |caps| :: caps[i].approvalHash == hash
  }

  function DoRequestHttpCapability(ws: Workspace, audit: Audit, c: Call, o: Oracle): Outcome
    requires c.RequestHttpCapability?
  {
    if !ValidReason(c.reason) || c.capability.None? then Outcome(ws, audit, Continue)
    else
      var hash := HashCapability(c.capability.value);
      var approved := ws.(httpCapabilities := ws.httpCapabilities + [Grant(hash, c.capability.value)]);
      if HoldsHash(ws.httpCapabilities, hash) then Outcome(ws, audit, Continue)
      else if |ws.httpCapabilities| >= MAX_HTTP_CAPABILITIES then Outcome(ws, audit, Failed(AgentLimit))
      else if o.alreadyApproved then Outcome(approved, audit, Continue)
      else if o.answer.None? then
        Outcome(ws, audit, if o.suspendOk then Suspended(SourceApproval, AboutSource(hash, c.capability.value)) else Failed(StorageError))
      else if !o.answer.value.Approve? then Outcome(ws, audit, Continue)
      else if !o.approveOk then Outcome(ws, audit, Failed(StorageError))
      else Outcome(approved, audit, Continue)
  }

  /** The approval that a call writes to the registry: its own capability, when the user has
      approved the question under its id. */
  function ApprovalWritten(ws: Workspace, c: Call, o: Oracle): Option<CapabilityHash> {
    if !c.RequestHttpCapability? || !ValidReason(c.reason) || c.capability.None? then None
    else
      var hash := HashCapability(c.capability.value);
      if HoldsHash(ws.httpCapabilities, hash) || |ws.httpCapabilities| >= MAX_HTTP_CAPABILITIES then None
      else if o.alreadyApproved || o.answer != Some(Approve) || !o.approveOk then None
      else Some(hash)
  }

  function WithoutFirst(caps: seq<Grant>, hash: CapabilityHash): seq<Grant> {
    if caps == [] then [] else if caps[0].approvalHash == hash then caps[1..] else [caps[0]] + WithoutFirst(caps[1..], hash)
  }

  function RecordsWithout(records: seq<ProbeRecord>, hash: CapabilityHash): seq<ProbeRecord> {
    if records == [] then []
    else (if records[0].capabilityHash == hash then [] else [records[0]]) + RecordsWithout(records[1..], hash)
  }

  function DoReleaseHttpCapability(ws: Workspace, audit: Audit, c: Call): Outcome
    requires c.ReleaseHttpCapability?
  {
    if !ValidReason(c.reason) || !HoldsHash(ws.httpCapabilities, c.hash) then Outcome(ws, audit, Continue)
    else Outcome(ws.(httpCapabilities := WithoutFirst(ws.httpCapabilities, c.hash),
                     httpProbeRecords := RecordsWithout(ws.httpProbeRecords, c.hash)), audit, Continue)
  }

  function DoProbeHttp(env: Env, ws: Workspace, audit: Audit, c: Call, o: Oracle): Outcome
    requires c.ProbeHttp?
  {
    var covering := CoveringCapability(env, ws.httpCapabilities, c.url);
    if !ValidReason(c.reason) then Outcome(ws, audit, Continue)
    else if ws.metrics.httpProbes >= MAX_HTTP_PROBES then Outcome(ws, audit, Failed(AgentLimit))
    else if covering.None? then Outcome(ws, audit, Continue)
    else
      var ws1 := ws.(metrics := ws.metrics.(httpProbes := ws.metrics.httpProbes + 1));
      if !o.webOk then Outcome(ws1, audit, Continue)
      else Outcome(ws1.(httpProbeRecords := ws1.httpProbeRecords +
                          [o.probed.(capabilityHash := covering.value.approvalHash, requestUrl := c.url)]), audit, Continue)
  }

  // ---------------------------------------------------------------- the call, and which calls are offered

  /** The calls that change the contract, the source, the tests or the corrections. */
  predicate Mutates(c: Call) {
    c.SubmitContract? || c.WriteSource? || c.EditSource? || c.ReviewGeneratedTest? || c.RequestExampleCorrection?
  }

  function ExecuteMutation(env: Env, task: Request, ws: Workspace, audit: Audit, c: Call, o: Oracle): Outcome
    requires Mutates(c)
  {
    match c
    case SubmitContract(_, _, _, _, _) => DoSubmitContract(env, task, ws, audit, c, o)
    case WriteSource(_, _) => DoWriteSource(env, task, ws, audit, c, o)
    case EditSource(_, _, _) => DoEditSource(env, task, ws, audit, c, o)
    case ReviewGeneratedTest(_, _) => DoReviewGeneratedTest(env, task, ws, audit, c, o)
    case RequestExampleCorrection(_, _, _, _) => DoRequestExampleCorrection(env, task, ws, audit, c, o)
  }

  function ExecuteQuery(env: Env, ws: Workspace, audit: Audit, c: Call, o: Oracle): Outcome
    requires !Mutates(c)
  {
    match c
    case Probe(_, _, _) => DoProbe(ws, audit, c, o)
    case Abort(reason) => Outcome(ws, audit, if ValidReason(reason) then Failed(AgentAborted) else Continue)
    case RequestClarification(_, _, _) => DoRequestClarification(ws, audit, c, o)
    case SearchWeb(_, _) => DoSearchWeb(ws, audit, c)
    case FetchDocument(_, _) => DoFetchDocument(ws, audit, c)
    case RequestHttpCapability(_, _) => DoRequestHttpCapability(ws, audit, c, o)
    case ReleaseHttpCapability(_, _) => DoReleaseHttpCapability(ws, audit, c)
    case ProbeHttp(_, _) => DoProbeHttp(env, ws, audit, c, o)
    case Malformed => Outcome(ws, audit, Continue)
  }

  /** execute_tool: errors of the model's own making let the agent go on. */
  function Execute(env: Env, task: Request, ws: Workspace, audit: Audit, c: Call, o: Oracle): Outcome {
    if Mutates(c) then ExecuteMutation(env, task, ws, audit, c, o) else ExecuteQuery(env, ws, audit, c, o)
  }

  /** available_tools: the calls the model may make in this phase. */
  predicate Advertised(ws: Workspace, c: Call) {
    match c
    case SubmitContract(_, _, _, _, _) => ws.draft.None?
    case WriteSource(_, _) => ws.draft.Some? && ws.source.None?
    case EditSource(_, _, _) => ws.draft.Some? && ws.source.Some?
    case Probe(_, _, _) => ws.draft.Some? && ws.source.Some? && ws.currentDigest.Some?
    case ReviewGeneratedTest(_, _) =>
      && ws.draft.Some? && ws.source.Some?
      && ws.latestFailure.Some? && ws.latestFailure.value.origin == GeneratedOrigin
    case SearchWeb(_, _) => ws.metrics.webSearches < MAX_WEB_SEARCHES
    case FetchDocument(_, _) => ws.metrics.documentsFetched < MAX_DOCUMENT_FETCHES
    case RequestHttpCapability(_, _) => |ws.httpCapabilities| < MAX_HTTP_CAPABILITIES
    case ReleaseHttpCapability(_, _) => ws.httpCapabilities != []
    case ProbeHttp(_, _) => ws.httpCapabilities != [] && ws.metrics.httpProbes < MAX_HTTP_PROBES
    case _ => true
  }
}
