/** The agent's workspace as an object whose tool calls update its fields in place (jobs.rs). */
module AgentWorkspace {
  import opened Wrappers
  import opened ArtifactTypes
  import opened AgentTypes
  import opened ToolCalls
  import opened PlanIntegrity
  import opened PublicationGate

  /** The names under which calls are offered to the model. */
  datatype ToolName =
    | AbortTool | ClarificationTool | CorrectionTool | SearchTool | DocumentTool | CapabilityTool | ReleaseTool
    | ProbeHttpTool | ContractTool | WriteTool | EditTool | ProbeTool | ReviewTool

  function ToolOf(c: Call): ToolName
    requires !c.Malformed?
  {
    match c
    case Abort(_) => AbortTool
    case RequestClarification(_, _, _) => ClarificationTool
    case RequestExampleCorrection(_, _, _, _) => CorrectionTool
    case SearchWeb(_, _) => SearchTool
    case FetchDocument(_, _) => DocumentTool
    case RequestHttpCapability(_, _) => CapabilityTool
    case ReleaseHttpCapability(_, _) => ReleaseTool
    case ProbeHttp(_, _) => ProbeHttpTool
    case SubmitContract(_, _, _, _, _) => ContractTool
    case WriteSource(_, _) => WriteTool
    case EditSource(_, _, _) => EditTool
    case Probe(_, _, _) => ProbeTool
    case ReviewGeneratedTest(_, _) => ReviewTool
  }

  predicate OfPhase(t: ToolName) {
    t in {ContractTool, WriteTool, EditTool, ProbeTool, ReviewTool}
  }

  predicate Offered(ws: Workspace, t: ToolName) {
    match t
    case SearchTool => ws.metrics.webSearches < MAX_WEB_SEARCHES
    case DocumentTool => ws.metrics.documentsFetched < MAX_DOCUMENT_FETCHES
    case CapabilityTool => |ws.httpCapabilities| < MAX_HTTP_CAPABILITIES
    case ReleaseTool => ws.httpCapabilities != []
    case ProbeHttpTool => ws.httpCapabilities != [] && ws.metrics.httpProbes < MAX_HTTP_PROBES
    case ContractTool => ws.draft.None?
    case WriteTool => ws.draft.Some? && ws.source.None?
    case EditTool => ws.draft.Some? && ws.source.Some?
    case ProbeTool => ws.draft.Some? && ws.source.Some? && ws.currentDigest.Some?
    case ReviewTool =>
      ws.draft.Some? && ws.source.Some? && ws.latestFailure.Some? && ws.latestFailure.value.origin == GeneratedOrigin
    case _ => true
  }

  /** The listed tools are exactly those of the advertised calls. */
  lemma OfferedIsAdvertised(ws: Workspace, c: Call)
    requires !c.Malformed?
    ensures Offered(ws, ToolOf(c)) <==> Advertised(ws, c)
  {
  }

  /** First the contract, then the source, then edits, with probes of a candidate and reviews of a
      generated test that failed; beside them what the budgets of searches, documents, capabilities
      and HTTP probes leave. */
  lemma OfferedExactly(ws: Workspace, t: ToolName)
    ensures Offered(ws, t) <==>
              || t in {AbortTool, ClarificationTool, CorrectionTool}
              || t in (if ws.draft.None? then {ContractTool} else if ws.source.None? then {WriteTool} else {EditTool})
              || (t == ProbeTool && ws.draft.Some? && ws.source.Some? && ws.currentDigest.Some?)
              || (t == ReviewTool && ws.draft.Some? && ws.source.Some? && ws.latestFailure.Some? && ws.latestFailure.value.origin == GeneratedOrigin)
              || (t == SearchTool && ws.metrics.webSearches < 4) || (t == DocumentTool && ws.metrics.documentsFetched < 6)
              || (t == CapabilityTool && |ws.httpCapabilities| < 8) || (t == ReleaseTool && |ws.httpCapabilities| > 0)
              || (t == ProbeHttpTool && |ws.httpCapabilities| > 0 && ws.metrics.httpProbes < 6)
  {
  }

  /** In a reachable workspace an advertised call runs into a used-up budget only for edits,
      reviews and probes; the other tools are off the list by then. */
  lemma LimitOnlyFrom(env: Env, task: Request, ws: Workspace, audit: Audit, c: Call, o: Oracle)
    requires AgentOk(task, ws, audit) && Advertised(ws, c)
    requires Execute(env, task, ws, audit, c, o).execution == Failed(AgentLimit)
    ensures || (c.EditSource? && ws.metrics.sourceRevisions == MAX_SOURCE_REVISIONS)
            || (c.ReviewGeneratedTest? && ws.metrics.generatedTestCorrections == MAX_GENERATED_TEST_CORRECTIONS)
            || (c.Probe? && ws.metrics.probesRun == MAX_PROBES)
  {
    forall w: Workspace, a: Audit ensures Evaluate(env, task, w, a, o).execution != Failed(AgentLimit) {
      EvaluateHasNoLimit(env, task, w, a, o);
    }
  }

  lemma EvaluateHasNoLimit(env: Env, task: Request, ws: Workspace, audit: Audit, o: Oracle)
    ensures Evaluate(env, task, ws, audit, o).execution != Failed(AgentLimit)
  {
  }

  class AgentWorkspace {
    var draft: Option<Draft>
    var source: Option<string>
    var currentDigest: Option<Digest>
    var latestFailure: Option<Snapshot>
    var metrics: Metrics
    var candidateDigests: set<Digest>
    var candidateSources: set<SourceHash>
    var httpCapabilities: seq<Grant>
    var httpProbeRecords: seq<ProbeRecord>
    var decisions: map<string, Decision>
    var corrections: map<nat, Correction>
    var probeResults: map<Fingerprint, RunResult>
    var reviews: seq<Review>
    ghost var audit: Audit

    /** The workspace as a value, which is also what a checkpoint saves. */
    function View(): Workspace
      reads this
    {
      Workspace(draft, source, currentDigest, latestFailure, metrics, candidateDigests, candidateSources, httpCapabilities,
                httpProbeRecords, decisions, corrections, probeResults, reviews)
    }

    ghost predicate Valid(task: Request)
      reads this
    {
      AgentOk(task, View(), audit)
    }

    constructor ()
      ensures View() == EMPTY_WORKSPACE && audit == EMPTY_AUDIT
      ensures forall task :: Valid(task)
    {
      draft, source, currentDigest, latestFailure, metrics := None, None, None, None, NO_METRICS;
      candidateDigests, candidateSources, httpCapabilities, httpProbeRecords := {}, {}, [], [];
      decisions, corrections, probeResults, reviews, audit := map[], map[], map[], [], EMPTY_AUDIT;
      new;
      forall task ensures Valid(task) { FreshAgentOk(task); }
    }

    /** Counts the turn, then lists the tools of the phase. */
    method AvailableTools()
      returns (tools: seq<ToolName>)
      modifies this
      ensures View() == old(View()).(metrics := old(metrics).(turns := old(metrics).turns + 1)) && audit == old(audit)
      ensures forall t :: t in tools <==> Offered(View(), t)
    {
      metrics := metrics.(turns := metrics.turns + 1);
      var general := GeneralTools();
      var ofPhase := PhaseTools();
      tools := general + ofPhase;
    }

    method GeneralTools()
      returns (tools: seq<ToolName>)
      ensures forall t :: t in tools <==> !OfPhase(t) && Offered(View(), t)
    {
      tools := [AbortTool, ClarificationTool, CorrectionTool];
      if metrics.webSearches < MAX_WEB_SEARCHES { tools := tools + [SearchTool]; }
      if metrics.documentsFetched < MAX_DOCUMENT_FETCHES { tools := tools + [DocumentTool]; }
      if |httpCapabilities| < MAX_HTTP_CAPABILITIES { tools := tools + [CapabilityTool]; }
      if httpCapabilities != [] {
        tools := tools + [ReleaseTool];
        if metrics.httpProbes < MAX_HTTP_PROBES { tools := tools + [ProbeHttpTool]; }
      }
    }

    method PhaseTools()
      returns (tools: seq<ToolName>)
      ensures forall t :: t in tools <==> OfPhase(t) && Offered(View(), t)
    {
      if draft.None? { return [ContractTool]; }
      if source.None? { return [WriteTool]; }
      tools := [EditTool];
      if currentDigest.Some? { tools := tools + [ProbeTool]; }
      if latestFailure.Some? && latestFailure.value.origin == GeneratedOrigin { tools := tools + [ReviewTool]; }
    }

    // -------------------------------------------------------------- evaluation

    method EvaluateAfterMutation(env: Env, task: Request, o: Oracle)
      returns (r: Execution)
      modifies this
      ensures Outcome(View(), audit, r) == Evaluate(env, task, old(View()), old(audit), o)
    {
      if draft.None? || source.None? { return Continue; }
      if !o.stageBuildingOk { return Failed(StorageError); }
      if !o.putOk { return Failed(ArtifactError); }
      var artifact := CandidateBundle(task, View(), draft.value, source.value, o.now);
      candidateDigests := candidateDigests + {SemanticDigest(artifact)};
      candidateSources := candidateSources + {artifact.manifest.sourceHash};
      currentDigest := Some(SemanticDigest(artifact));
      if !o.buildOk { return Failed(RunnerError); }
      if !o.stageValidatingOk { return Failed(StorageError); }
      var failure := ValidateInputSamples(env, task.outputFormat, |task.inputSamples|, o.sampleRuns);
      if failure.None? {
        failure := ValidateTests(env, task.outputFormat, draft.value, o.testRuns);
      }
      latestFailure := failure;
      if failure.Some? { return Continue; }
      return if o.publishOk then Published(artifact) else Failed(StorageError);
    }

    // -------------------------------------------------------------- contract and source

    method CallSubmitContract(env: Env, task: Request, c: Call, o: Oracle)
      returns (r: Execution)
      requires c.SubmitContract?
      modifies this
      ensures Outcome(View(), audit, r) == DoSubmitContract(env, task, old(View()), old(audit), c, o)
    {
      if !ValidReason(c.reason) { return Continue; }
      var built := BuildDraft(env, task, View(), Contract(c.summary, c.assumptions, c.invariants), c.tests);
      if built.None? || o.review.None? { return Continue; }
      reviews := reviews + [o.review.value];
      match o.review.value.decision {
        case Revise => return Continue;
        case Refuse => return Failed(AgentAborted);
        case Accept =>
      }
      if !o.saveContractOk { return Failed(StorageError); }
      draft := built;
      latestFailure := None;
      audit := audit.(accepted := built, acceptedReview := o.review, changes := []);
      return Continue;
    }

    method CallWriteSource(env: Env, task: Request, c: Call, o: Oracle)
      returns (r: Execution)
      requires c.WriteSource?
      modifies this
      ensures Outcome(View(), audit, r) == DoWriteSource(env, task, old(View()), old(audit), c, o)
    {
      if !ValidReason(c.reason) || !ValidSource(c.source) { return Continue; }
      if draft.None? || source.Some? { return Continue; }
      if metrics.sourceRevisions >= MAX_SOURCE_REVISIONS { return Failed(AgentLimit); }
      source := Some(c.source);
      metrics := metrics.(sourceRevisions := metrics.sourceRevisions + 1);
      r := EvaluateAfterMutation(env, task, o);
    }

    method CallEditSource(env: Env, task: Request, c: Call, o: Oracle)
      returns (r: Execution)
      requires c.EditSource?
      modifies this
      ensures Outcome(View(), audit, r) == DoEditSource(env, task, old(View()), old(audit), c, o)
    {
      if !ValidReason(c.reason) || c.oldText == "" { return Continue; }
      if metrics.sourceRevisions >= MAX_SOURCE_REVISIONS { return Failed(AgentLimit); }
      if source.None? { return Continue; }
      var edited := EditedSource(source.value, c.oldText, c.newText);
      if edited.None? || !ValidSource(edited.value) || edited == source { return Continue; }
      source := edited;
      metrics := metrics.(sourceRevisions := metrics.sourceRevisions + 1);
      r := EvaluateAfterMutation(env, task, o);
    }

    // -------------------------------------------------------------- probes and reviews

    method CallProbe(c: Call, o: Oracle)
      returns (r: Execution)
      requires c.Probe?
      modifies this
      ensures Outcome(View(), audit, r) == DoProbe(old(View()), old(audit), c, o)
    {
      if !ValidReason(c.reason) || !ValidProbe(c.args, c.stdin) || currentDigest.None? { return Continue; }
      var fingerprint := Fingerprint(currentDigest.value, c.args, c.stdin);
      if fingerprint in probeResults { return Continue; }
      if metrics.probesRun >= MAX_PROBES { return Failed(AgentLimit); }
      if !o.stageValidatingOk { return Failed(StorageError); }
      metrics := metrics.(probesRun := metrics.probesRun + 1);
      probeResults := probeResults[fingerprint := o.probeRun];
      return Continue;
    }

    method CallReviewGeneratedTest(env: Env, task: Request, c: Call, o: Oracle)
      returns (r: Execution)
      requires c.ReviewGeneratedTest?
      modifies this
      ensures Outcome(View(), audit, r) == DoReviewGeneratedTest(env, task, old(View()), old(audit), c, o)
    {
      if !ValidReason(c.reason) { return Continue; }
      if metrics.generatedTestCorrections >= MAX_GENERATED_TEST_CORRECTIONS { return Failed(AgentLimit); }
      var at := ReviewedTest(View(), c.testName);
      if at.None? || o.verdict.None? || !o.verdict.value.OracleWrong? { return Continue; }
      if o.verdict.value.stdout.None? || o.verdict.value.exitCode.None? { return Continue; }
      var stdout, exitCode := o.verdict.value.stdout.value, o.verdict.value.exitCode.value;
      if exitCode == 0 && task.outputFormat == JsonFormat && env.parse(stdout).None? { return Continue; }
      var i := at.value;
      var tests := draft.value.tests;
      if i >= |tests| { return Continue; }
      if tests[i].expectedStdout == stdout && tests[i].expectedExitCode == exitCode { return Continue; }
      draft := Some(draft.value.(tests := tests[i := tests[i].(expectedStdout := stdout, expectedExitCode := exitCode)]));
      metrics := metrics.(generatedTestCorrections := metrics.generatedTestCorrections + 1);
      audit := audit.(changes := audit.changes + [OracleChange(i, stdout, exitCode)]);
      r := EvaluateAfterMutation(env, task, o);
    }

    // -------------------------------------------------------------- questions to the user

    method CallRequestClarification(c: Call, o: Oracle)
      returns (r: Execution)
      requires c.RequestClarification?
      modifies this
      ensures Outcome(View(), audit, r) == DoRequestClarification(old(View()), old(audit), c, o)
    {
      if !ValidReason(c.reason) || !ValidClarification(c.key, c.question) || c.key in decisions { return Continue; }
      if o.answer.Some? {
        if o.answer.value.Text? {
          decisions := decisions[c.key := Decision(c.key, c.question, o.answer.value.text)];
        }
        return Continue;
      }
      return if o.suspendOk then Suspended(Clarification, AboutDecision(c.key)) else Failed(StorageError);
    }

    /** False when the user test is missing; then nothing has changed. */
    method ApplyExampleCorrection(correction: Correction)
      returns (ok: bool)
      requires correction.exampleIndex >= 1
      modifies this
      ensures audit == old(audit)
      ensures var applied := ApplyCorrection(old(View()), correction);
              ok == applied.Some? && View() == if ok then applied.value else old(View())
    {
      var i := correction.exampleIndex - 1;
      if draft.Some? {
        var tests := draft.value.tests;
        if i >= draft.value.userTestCount || i >= |tests| { return false; }
        draft := Some(draft.value.(tests := tests[i := tests[i].(stdin := correction.corrected.input,
                                                                 expectedStdout := correction.corrected.output)]));
      }
      corrections := corrections[i := correction];
      latestFailure := None;
      return true;
    }

    method CallRequestExampleCorrection(env: Env, task: Request, c: Call, o: Oracle)
      returns (r: Execution)
      requires c.RequestExampleCorrection?
      modifies this
      ensures Outcome(View(), audit, r) == DoRequestExampleCorrection(env, task, old(View()), old(audit), c, o)
    {
      var correction := ValidCorrection(env, task, c);
      if !ValidReason(c.reason) || correction.None? { return Continue; }
      var index := c.exampleIndex - 1;
      if index in corrections { return Continue; }
      if o.answer.None? { return if o.suspendOk then Suspended(ExampleCorrection, AboutExample(correction.value)) else Failed(StorageError); }
      if !o.answer.value.Approve? { return Continue; }
      var ok := ApplyExampleCorrection(correction.value);
      if !ok { return Continue; }
      audit := audit.(approved := audit.approved[index := correction.value]);
      if source.None? || draft.None? { return Continue; }
      r := EvaluateAfterMutation(env, task, o);
    }

    // -------------------------------------------------------------- the web

    method CallSearchWeb(c: Call)
      returns (r: Execution)
      requires c.SearchWeb?
      modifies this
      ensures Outcome(View(), audit, r) == DoSearchWeb(old(View()), old(audit), c)
      ensures metrics.webSearches == old(metrics.webSearches) || metrics.webSearches == old(metrics.webSearches) + 1 <= MAX_WEB_SEARCHES
      ensures r == Failed(AgentLimit) <==> ValidReason(c.reason) && old(metrics.webSearches) >= MAX_WEB_SEARCHES
    {
      if !ValidReason(c.reason) { return Continue; }
      if metrics.webSearches >= MAX_WEB_SEARCHES { return Failed(AgentLimit); }
      metrics := metrics.(webSearches := metrics.webSearches + 1);
      return Continue;
    }

    method CallFetchDocument(c: Call)
      returns (r: Execution)
      requires c.FetchDocument?
      modifies this
      ensures Outcome(View(), audit, r) == DoFetchDocument(old(View()), old(audit), c)
      ensures metrics.documentsFetched == old(metrics.documentsFetched) || metrics.documentsFetched == old(metrics.documentsFetched) + 1 <= MAX_DOCUMENT_FETCHES
      ensures r == Failed(AgentLimit) <==> ValidReason(c.reason) && old(metrics.documentsFetched) >= MAX_DOCUMENT_FETCHES
    {
      if !ValidReason(c.reason) { return Continue; }
      if metrics.documentsFetched >= MAX_DOCUMENT_FETCHES { return Failed(AgentLimit); }
      metrics := metrics.(documentsFetched := metrics.documentsFetched + 1);
      return Continue;
    }

    method CallRequestHttpCapability(c: Call, o: Oracle)
      returns (r: Execution)
      requires c.RequestHttpCapability?
      modifies this
      ensures Outcome(View(), audit, r) == DoRequestHttpCapability(old(View()), old(audit), c, o)
    {
      if !ValidReason(c.reason) || c.capability.None? { return Continue; }
      var hash := HashCapability(c.capability.value);
      if HoldsHash(httpCapabilities, hash) { return Continue; }
      if |httpCapabilities| >= MAX_HTTP_CAPABILITIES { return Failed(AgentLimit); }
      if !o.alreadyApproved {
        if o.answer.None? { return if o.suspendOk then Suspended(SourceApproval, AboutSource(hash, c.capability.value)) else Failed(StorageError); }
        if !o.answer.value.Approve? { return Continue; }
        if !o.approveOk { return Failed(StorageError); }
      }
      httpCapabilities := httpCapabilities + [Grant(hash, c.capability.value)];
      return Continue;
    }

    /** The index of the first capability of that hash, or the length. */
    method PositionOf(hash: CapabilityHash)
      returns (i: nat)
      ensures i <= |httpCapabilities| && (i < |httpCapabilities| <==> HoldsHash(httpCapabilities, hash))
      ensures i < |httpCapabilities| ==>
                httpCapabilities[..i] + httpCapabilities[i + 1..] == WithoutFirst(httpCapabilities, hash)
    {
      i := 0;
      while i < |httpCapabilities| && httpCapabilities[i].approvalHash != hash
        invariant i <= |httpCapabilities|
        invariant forall k | 0 <= k < i :: httpCapabilities[k].approvalHash != hash
      {
        i := i + 1;
      }
      if i < |httpCapabilities| { RemovedAt(httpCapabilities, hash, i); }
    }

    method RecordsKept(hash: CapabilityHash)
      returns (kept: seq<ProbeRecord>)
      ensures kept == RecordsWithout(httpProbeRecords, hash)
    {
      kept := [];
      var n := 0;
      while n < |httpProbeRecords|
        invariant n <= |httpProbeRecords|
        invariant kept + RecordsWithout(httpProbeRecords[n..], hash) == RecordsWithout(httpProbeRecords, hash)
      {
        assert httpProbeRecords[n..][1..] == httpProbeRecords[n + 1..];
        if httpProbeRecords[n].capabilityHash != hash { kept := kept + [httpProbeRecords[n]]; }
        n := n + 1;
      }
    }

    /** The first capability of that hash is removed in place, with every record under it. */
    method CallReleaseHttpCapability(c: Call)
      returns (r: Execution)
      requires c.ReleaseHttpCapability?
      modifies this
      ensures Outcome(View(), audit, r) == DoReleaseHttpCapability(old(View()), old(audit), c)
    {
      if !ValidReason(c.reason) { return Continue; }
      var i := PositionOf(c.hash);
      if i == |httpCapabilities| { return Continue; }
      var kept := RecordsKept(c.hash);
      httpCapabilities := httpCapabilities[..i] + httpCapabilities[i + 1..];
      httpProbeRecords := kept;
      return Continue;
    }

    method CallProbeHttp(env: Env, c: Call, o: Oracle)
      returns (r: Execution)
      requires c.ProbeHttp?
      modifies this
      ensures Outcome(View(), audit, r) == DoProbeHttp(env, old(View()), old(audit), c, o)
    {
      if !ValidReason(c.reason) { return Continue; }
      if metrics.httpProbes >= MAX_HTTP_PROBES { return Failed(AgentLimit); }
      var covering := CoveringCapability(env, httpCapabilities, c.url);
      if covering.None? { return Continue; }
      metrics := metrics.(httpProbes := metrics.httpProbes + 1);
      if !o.webOk { return Continue; }
      httpProbeRecords := httpProbeRecords + [o.probed.(capabilityHash := covering.value.approvalHash, requestUrl := c.url)];
      return Continue;
    }

    // -------------------------------------------------------------- any call

    method ExecuteMutating(env: Env, task: Request, c: Call, o: Oracle)
      returns (r: Execution)
      requires Mutates(c)
      modifies this
      ensures Outcome(View(), audit, r) == ExecuteMutation(env, task, old(View()), old(audit), c, o)
    {
      match c {
        case SubmitContract(_, _, _, _, _) => r := CallSubmitContract(env, task, c, o);
        case WriteSource(_, _) => r := CallWriteSource(env, task, c, o);
        case EditSource(_, _, _) => r := CallEditSource(env, task, c, o);
        case ReviewGeneratedTest(_, _) => r := CallReviewGeneratedTest(env, task, c, o);
        case RequestExampleCorrection(_, _, _, _) => r := CallRequestExampleCorrection(env, task, c, o);
      }
    }

    method ExecuteOther(env: Env, c: Call, o: Oracle)
      returns (r: Execution)
      requires !Mutates(c)
      modifies this
      ensures Outcome(View(), audit, r) == ExecuteQuery(env, old(View()), old(audit), c, o)
    {
      match c {
        case Probe(_, _, _) => r := CallProbe(c, o);
        case Abort(reason) => r := if ValidReason(reason) then Failed(AgentAborted) else Continue;
        case RequestClarification(_, _, _) => r := CallRequestClarification(c, o);
        case SearchWeb(_, _) => r := CallSearchWeb(c);
        case FetchDocument(_, _) => r := CallFetchDocument(c);
        case RequestHttpCapability(_, _) => r := CallRequestHttpCapability(c, o);
        case ReleaseHttpCapability(_, _) => r := CallReleaseHttpCapability(c);
        case ProbeHttp(_, _) => r := CallProbeHttp(env, c, o);
        case Malformed => r := Continue;
      }
    }

    /** Any call; an advertised one keeps every plan, budget and phase. */
    method ExecuteTool(env: Env, task: Request, c: Call, o: Oracle)
      returns (r: Execution)
      modifies this
      ensures Outcome(View(), audit, r) == Execute(env, task, old(View()), old(audit), c, o)
      ensures old(Valid(task)) && Advertised(old(View()), c) ==> Valid(task)
    {
      ghost var before, was := View(), audit;
      if Mutates(c) {
        r := ExecuteMutating(env, task, c, o);
      } else {
        r := ExecuteOther(env, c, o);
      }
      if AgentOk(task, before, was) && Advertised(before, c) { ExecuteKeeps(env, task, before, was, c, o); }
    }
  }

  lemma {:induction false} RemovedAt(caps: seq<Grant>, hash: CapabilityHash, i: nat)
    requires i < |caps| && caps[i].approvalHash == hash
    requires forall k | 0 <= k < i :: caps[k].approvalHash != hash
    ensures HoldsHash(caps, hash) && WithoutFirst(caps, hash) == caps[..i] + caps[i + 1..]
  {
    if i > 0 {
      assert caps[1..][i - 1] == caps[i];
      forall k | 0 <= k < i - 1 ensures caps[1..][k].approvalHash != hash { assert caps[1..][k] == caps[k + 1]; }
      RemovedAt(caps[1..], hash, i - 1);
      assert [caps[0]] + (caps[1..][..i - 1] + caps[1..][i..]) == caps[..i] + caps[i + 1..];
    }
  }
}
