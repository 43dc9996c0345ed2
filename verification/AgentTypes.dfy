/** The synthesis agent's workspace, its tool calls, and what the outside world may answer
    (jobs.rs and synthesizer.rs). */
module AgentTypes {
  import opened Wrappers
  import opened ArtifactTypes

  datatype Example = Example(input: string, output: string)

  /** What a client registers, and what a worker is later given. */
  datatype Request = Request(
    intent: string,
    inputFormat: IoFormat,
    outputFormat: IoFormat,
    examples: seq<Example>,
    inputSamples: seq<string>)

  datatype Draft = Draft(contract: Contract, tests: seq<TestCase>, userTestCount: nat)

  datatype Origin = UserOrigin | GeneratedOrigin | SampleOrigin

  datatype FailureName = TestNamed(name: TestName) | SampleNamed(index: nat)

  /** ValidationFailureSnapshot; diagnostics are not kept. */
  datatype Snapshot = Snapshot(name: FailureName, origin: Origin, exitCode: Option<int>)

  datatype Metrics = Metrics(
    turns: nat,
    sourceRevisions: nat,
    generatedTestCorrections: nat,
    probesRun: nat,
    webSearches: nat,
    documentsFetched: nat,
    httpProbes: nat)

  /** exampleIndex counts from one. */
  datatype Correction = Correction(exampleIndex: nat, original: Example, corrected: Example, reason: string)

  datatype ProbeRecord = ProbeRecord(
    capabilityHash: CapabilityHash,
    requestUrl: string,
    finalUrl: string,
    status: nat,
    contentType: string,
    body: string)

  datatype Decision = Decision(key: string, question: string, answer: string)

  datatype ReviewDecision = Accept | Revise | Refuse

  datatype Review = Review(decision: ReviewDecision, reason: string, issues: seq<string>)

  datatype Verdict = ImplementationWrong | Ambiguous | OracleWrong(stdout: Option<string>, exitCode: Option<int>)

  /** probe_fingerprint: the stated reason is not part of it. */
  datatype Fingerprint = Fingerprint(digest: Digest, args: seq<string>, stdin: string)

  datatype RunResult = Ran(exitCode: int, stdout: string, stderr: string) | RunFailed

  datatype Workspace = Workspace(
    draft: Option<Draft>,
    source: Option<string>,
    currentDigest: Option<Digest>,
    latestFailure: Option<Snapshot>,
    metrics: Metrics,
    candidateDigests: set<Digest>,
    candidateSources: set<SourceHash>,
    httpCapabilities: seq<Grant>,
    httpProbeRecords: seq<ProbeRecord>,
    decisions: map<string, Decision>,
    corrections: map<nat, Correction>,
    probeResults: map<Fingerprint, RunResult>,
    reviews: seq<Review>)

  const NO_METRICS: Metrics := Metrics(0, 0, 0, 0, 0, 0, 0)

  const EMPTY_WORKSPACE: Workspace :=
    Workspace(None, None, None, None, NO_METRICS, {}, {}, [], [], map[], map[], map[], [])

  datatype InputKind = Clarification | SourceApproval | ExampleCorrection

  /** What a question is about, stored with it. */
  datatype Context =
    | AboutDecision(key: string)
    | AboutSource(hash: CapabilityHash, capability: Capability)
    | AboutExample(correction: Correction)

  datatype Answer = Text(text: string) | Approve | Reject(reason: Option<string>)

  datatype ProposedTest = ProposedTest(
    title: string,
    args: seq<string>,
    stdin: string,
    expectedStdout: string,
    expectedExitCode: int,
    fixtures: seq<Fixture>)

  /** One tool call of the model.  The capability of a request is None when its normalisation
      is refused; Malformed stands for arguments that do not parse and for unknown tools. */
  datatype Call =
    | SubmitContract(summary: string, assumptions: seq<string>, invariants: seq<string>,
                     tests: seq<ProposedTest>, reason: string)
    | WriteSource(source: string, reason: string)
    | EditSource(oldText: string, newText: string, reason: string)
    | Probe(args: seq<string>, stdin: string, reason: string)
    | ReviewGeneratedTest(testName: TestName, reason: string)
    | Abort(reason: string)
    | RequestClarification(key: string, question: string, reason: string)
    | RequestExampleCorrection(exampleIndex: nat, correctedInput: string, correctedOutput: string, reason: string)
    | SearchWeb(query: string, reason: string)
    | FetchDocument(url: string, reason: string)
    | RequestHttpCapability(capability: Option<Capability>, reason: string)
    | ReleaseHttpCapability(hash: CapabilityHash, reason: string)
    | ProbeHttp(url: string, reason: string)
    | Malformed

  /** A verifier-decided change of one expected output. */
  datatype OracleChange = OracleChange(index: nat, stdout: string, exitCode: int)

  /** History variables: no step reads them.  They record what the reviewer accepted, what
      the user approved and what the verifier decided. */
  datatype Audit = Audit(
    accepted: Option<Draft>,
    acceptedReview: Option<Review>,
    approved: map<nat, Correction>,
    changes: seq<OracleChange>)

  const EMPTY_AUDIT: Audit := Audit(None, None, map[], [])

  /** A tool call under the id the model gave it. */
  datatype PendingCall = PendingCall(id: string, call: Call)

  /** The agent run (its pending tool call), the workspace, and the history of the workspace. */
  datatype Agent = Agent(ws: Workspace, audit: Audit, pending: Option<PendingCall>)

  const FRESH_AGENT: Agent := Agent(EMPTY_WORKSPACE, EMPTY_AUDIT, None)

  datatype JobError = AgentAborted | AgentLimit | StorageError | RunnerError | ArtifactError

  datatype Execution =
    | Continue
    | Published(bundle: Bundle)
    | Suspended(kind: InputKind, context: Context)
    | Failed(error: JobError)
}
