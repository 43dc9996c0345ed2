# JITForge: registry, synthesis agent and artifact store

JITForge turns a request into a published, versioned Unix tool.  A registry hands jobs to
workers under leases; a worker drives a model that submits a contract, writes source, probes and
repairs it; a candidate is stored under the hash of its contents, validated, and published.  This
project models the logic of those parts and proves what holds in every run.

Layout, from the bottom up:

- `JsonNumbers`, `JsonValues`: the output oracle.  JSON numbers are brought to a canonical decimal
  triple by in-place digit editing; values are compared structurally.
- `ArtifactTypes`, `AgentTypes`, `Schema`: the values, the agent's workspace and the tables.
- `ToolCalls`, `PlanIntegrity`, `PublicationGate`, `Outcomes`: one tool call as a function of the
  workspace and of an arbitrary oracle (model, reviewer, verifier, sandbox, user, registry), what
  every call keeps, what stands behind a published bundle, and for each call when it acts and what
  it then changes, publishes or asks.  `AgentWorkspace` is the same workspace as an object whose
  methods update its fields.
- `Transactions`, `Coherence`, `Effects`, `Commits`: each transaction as a function on the tables,
  the invariants they keep, what each of them writes, and when it commits or fails.  `Registry` is
  the object whose methods are the transactions, statement by statement with commit and rollback.
- `Histories` and the modules above it (`Ownership`, `Stages`, `Questions`, `Endings`, `Revisions`,
  `Traces`, `Approvals`, `Progress`): runs of any length by any workers, users and a clock, with
  history variables that no transaction reads.
- `Processes`, `Provenance`, `Lineage`, `Registrations`, `Restarts`, `Grants`, `CallIds`,
  `ProbeBudget`, `Attempts`: the registry together with crashing worker processes, what a published
  version rests on, which moves of the run that came from, what a resolved tool therefore is, what a
  worker starts from, when an answer is used for what was asked, and what the attempts of a job come
  to.
- `Scenarios`, `Rehearsals`, `Conversations`: runs given step by step, from the empty registry, that
  reach the states in which a property fails, that reach the bound of five probes, and that publish
  on every kind of evidence.
- `ArtifactStore`, `Collection`: the content-addressed store with a fault at any file operation,
  and garbage collection against the registry.
- `ModelCall`, `SourceEdits`, `Truncation`: the two-counter model loop, the exact-match edit, and
  the two byte-bounded truncations.

Conventions.  Strings are byte strings and `|s|` is a length in bytes, except in `Truncation` and
for the title of a generated test, which are texts of characters.
Time is in microseconds and passes only in explicit steps.  Hashes are constructors, so equal
hashes mean equal contents.  Sixty-four-bit arithmetic is written out where it can overflow.

Where the code and its own documents or likely readings disagree, the code is followed:

- A job that no worker has ever saved cannot be cancelled (`Endings.CancelExactly`).
- `set_job_stage` is two statements.  The invariants hold with both as one step;
  `Endings.SecondStatementExactly` says when the second alone is harmless, and
  `Endings.CancelBetweenStatements` and `Endings.PublishBetweenStatements` show that a cancellation,
  or a publication by a worker that has taken the job over, in between always leaves an
  inconsistent version.  `Scenarios.CancelSplit` and `Scenarios.PublishSplit` are such runs.
- A publication points the tool at its own revision even when a greater one is ready
  (`Revisions.PublishedPointerIsGreatestExactly`; `Scenarios.StablePointerGoesBack` is such a run).
- A cancellation answers a pending clarification with a rejection, which a worker fenced out
  earlier may still read (`Questions.CancelledClarificationReadsRejection`,
  `Rehearsals.CancelledClarificationIsRead`); no answer is of a wrong kind otherwise
  (`Questions.WrongKindExactly`).
- An answer is found by the call id the model chose.  It is used for what the user was asked about
  exactly when the call that asked and the call that reads it have the same subject
  (`CallIds.UsedAsAskedExactly`), which unique ids ensure (`CallIds.ApprovedAsAsked`).  With a
  reused id a correction is applied that the user was never asked about
  (`Conversations.ReusedIdIsMisused`).
- Candidates of an answered but unclaimed job are not protected from cleanup, nor is a candidate
  between its put and its publication (`Collection.AnsweredJobIsUnprotected`,
  `Collection.CleanupInsideEvaluation`; `Scenarios.QueuedJobLosesCandidate` and
  `Scenarios.CleanupInsideFirstEvaluation` are such runs).
- A worker that has lost its job still cleans up, and removes candidates that only its successor's
  saved checkpoint lists (`Collection.OwnCleanupRemovesSuccessors`;
  `Scenarios.FencedWorkerCleansUp` is such a run).
- A compaction loses events of a job that already has an archive
  (`Traces.CompactionConservesExactly`; `Scenarios.LateEventIsLost` is such a run).
- Number texts whose exponent leaves 64 bits compare equal to each other
  (`JsonNumbers.OverflowingNumbersCompareEqual`).  This is about number text only: `serde_json` keeps
  numbers as 64-bit integers or floats here (`Cargo.toml:39`) and refuses such texts, and on the
  texts it renders the comparison is exact (`JsonValues.RenderedCompareExactly`).
- An edit counts matches without overlap, so a fragment that overlaps itself can still be accepted
  (`SourceEdits.OverlapIsAccepted`).
- The usage of a failed coder model is not reported (`ModelCall.CompletionUsage`,
  `ModelCall.FailedCoderIsNotReported`).

## Model

| member | source | states |
|---|---|---|
| JsonNumbers.NormalizedJsonNumber | apps/jit-worker/src/jobs.rs:2196-2222 | the text loop yields the triple of the parsed number: sign, digits without outer zeros, exponent, or nothing on 64-bit overflow |
| JsonNumbers.NormalisedDenotes | apps/jit-worker/src/jobs.rs:2196-2222 | a triple is canonical and denotes exactly the decimal value of the number |
| JsonNumbers.CanonicalUnique | apps/jit-worker/src/jobs.rs:2196-2222 | two canonical triples with the same real value are the same triple |
| JsonNumbers.NumbersEquivalentExactly | apps/jit-worker/src/jobs.rs:2172-2178 | for all pairs: equality of triples is equality of exact values where the exponents fit 64 bits, and all other number texts form one class |
| JsonNumbers.NormalisesExactly | apps/jit-worker/src/jobs.rs:2196-2222 | there is a triple exactly when the written exponent, the one after the fraction, and for a number other than zero the one after the trailing zeros fit 64 bits |
| JsonNumbers.ShortNumbersCompareExactly | apps/jit-worker/src/jobs.rs:2172-2178 | on texts as 64-bit integers and floats are rendered, equality of triples is equality of values with no exception |
| JsonNumbers.ZeroIsOneTriple | apps/jit-worker/src/jobs.rs:2207-2209 | -0 and every form of zero whose exponent fits share one triple |
| JsonNumbers.NormalisesWithinBounds | apps/jit-worker/src/jobs.rs:2196-2222 | no overflow while exponent and length stay clear of the 64-bit bounds |
| JsonNumbers.OverflowingNumbersCompareEqual | apps/jit-worker/src/jobs.rs:2175 | two number texts of different value that compare equal because both overflow, and that a 64-bit reader refuses |
| JsonValues.EquivalentIsSameMeaning | apps/jit-worker/src/jobs.rs:2172-2194 | structural equivalence holds exactly when the denotations are equal, although objects check one key set |
| JsonValues.EquivalentIsEquivalence | apps/jit-worker/src/jobs.rs:2172-2194 | hence reflexive, symmetric and transitive |
| JsonValues.InRangeIsExact | apps/jit-worker/src/jobs.rs:2172-2222 | no number of a value is confused by overflow exactly when the exponent of each fits 64 bits at every step |
| JsonValues.RenderedCompareExactly | apps/jit-worker/src/jobs.rs:2172-2194 | on values whose numbers are 64-bit integers or floats the comparison is equality of exact meanings |
| JsonValues.OutputAcceptedExactly | apps/jit-worker/src/jobs.rs:2142-2170 | an output is accepted if and only if, for JSON and an expected exit of 0, both texts parse and have equal denotations, and otherwise the texts are equal; each refusal has exactly its own reason |
| JsonValues.AcceptedOutputsInterchange | apps/jit-worker/src/jobs.rs:2142-2170 | outputs accepted against one expectation accept each other |
| PlanIntegrity.ExecuteKeeps | apps/jit-worker/src/jobs.rs:316-893 | every advertised call, whatever the outside answers, keeps test plan, budgets, phases and capabilities |
| PlanIntegrity.EvaluateKeeps | apps/jit-worker/src/jobs.rs:896-966 | an evaluation changes nothing the plan or the budgets depend on |
| PlanIntegrity.BuiltDraftFollows | apps/jit-worker/src/jobs.rs:1825-1897 | a built draft carries each registered example or its approved correction on the recorded responses, then at most twelve proposals, all valid |
| PlanIntegrity.ApplyCorrectionKeeps | apps/jit-worker/src/jobs.rs:1690-1707 | an approved correction changes user tests only, to the approved values, and is never refused |
| PlanIntegrity.ReplaceOracleKeeps | apps/jit-worker/src/jobs.rs:575-592 | a verifier replacement is one more recorded change of one generated test |
| PlanIntegrity.ReleaseHttpCapabilityKeeps | apps/jit-worker/src/jobs.rs:842-861 | a release keeps the capability hashes distinct and removes the released one |
| PlanIntegrity.ReleasedRecordsHeld | apps/jit-worker/src/jobs.rs:842-861 | after a release every remaining recorded response is from a source still approved |
| PlanIntegrity.CoveringFinds | apps/jit-worker/src/jobs.rs:1771-1803 | a probe is recorded under an approved capability that covers its URL |
| PlanIntegrity.ProbeKeeps | apps/jit-worker/src/jobs.rs:459-502 | probes run equal cached results, are at most three, and grow by at most one |
| PublicationGate.ValidateInputSamples | apps/jit-worker/src/jobs.rs:2083-2131 | the loop reports nothing exactly when every sample ran to exit 0 with output of the format, and else the first that did not |
| PublicationGate.ValidateTests | apps/jit-worker/src/jobs.rs:2019-2081 | the loop reports nothing exactly when every test ran with the expected exit code and an output equal in text or denotation, and else the first that did not, as user or generated |
| PublicationGate.FirstSampleFailure | apps/jit-worker/src/jobs.rs:2083-2131 | no report exactly when every sample passes; otherwise the first failing one with its exit code |
| PublicationGate.FirstTestFailure | apps/jit-worker/src/jobs.rs:2019-2081 | no report exactly when every test has the expected exit code and an output equal in text or denotation; otherwise the first that has not, with its origin |
| PublicationGate.PublishedIsSupported | apps/jit-worker/src/jobs.rs:316-966 | for a published bundle every sample and every test ran, with the expected exit code and an output equal in text or denotation, under the accepted contract and plan |
| PublicationGate.AtMostThreeGeneratedTestsDiffer | apps/jit-worker/src/jobs.rs:503-595 | at most three generated tests differ from the accepted plan, and only in what they expect |
| PublicationGate.ReviewedTestIsUnique | apps/jit-worker/src/jobs.rs:511-536 | a review can only change the generated test that failed last |
| Outcomes.EvaluationEnds | apps/jit-worker/src/jobs.rs:896-966 | an evaluation publishes, goes on or fails, each exactly when: stages, put, build, and every sample and test showing what it must |
| Outcomes.EvaluationLeaves | apps/jit-worker/src/jobs.rs:896-1002 | a stored candidate is made of the workspace field by field, its digest is current, and a failed validation reports the first run that failed |
| Outcomes.PublishedIsMadeOf | apps/jit-worker/src/jobs.rs:896-1002 | whichever call publishes, the bundle has the source, tests, contract, grants and counters of the workspace left behind |
| Outcomes.SubmittableExactly | apps/jit-worker/src/jobs.rs:1825-1960 | a contract with its tests is acceptable exactly within the limits written out, and the draft built is the one the call describes |
| Outcomes.ContractOutcome | apps/jit-worker/src/jobs.rs:325-407 | a submittable contract is judged by its review: only one accepted and saved becomes the draft, and the review is kept in every case |
| Outcomes.EditOutcome | apps/jit-worker/src/jobs.rs:429-458 | an edit acts exactly when the fragment has one place and a revision is left; then that one occurrence is replaced, and what is stored or published is of that source; otherwise nothing changes |
| Outcomes.WriteOutcome | apps/jit-worker/src/jobs.rs:408-428 | the first source is written exactly once, under a contract, and what is stored or published is of that text; otherwise nothing changes |
| Outcomes.SourceStays | apps/jit-worker/src/jobs.rs:316-893 | no other call changes the source, or stores or publishes another one |
| Outcomes.ProbeOutcome | apps/jit-worker/src/jobs.rs:459-502 | a probe runs exactly when it is valid, new for the candidate and within the budget; its own result is kept under its own arguments |
| Outcomes.ProbeOnce | apps/jit-worker/src/jobs.rs:459-502 | the same probe of the same candidate never runs a second time |
| Outcomes.ReviewOutcome | apps/jit-worker/src/jobs.rs:503-595 | an expectation is replaced exactly when the verifier gives another valid one for the generated test that failed last, and only that test changes |
| Outcomes.ClarificationOutcome | apps/jit-worker/src/jobs.rs:602-654 | a question is asked until it is answered, and decided once, by the user's own text |
| Outcomes.CorrectionOutcome | apps/jit-worker/src/jobs.rs:655-720 | a valid correction of an example without one is asked about, applied exactly when approved, and then changes that example's test alone |
| Outcomes.CapabilityOutcome | apps/jit-worker/src/jobs.rs:753-842 | a capability not yet held is taken exactly when it is active already or the user approved it and the approval was written |
| Outcomes.ApprovalExactly | apps/jit-worker/src/jobs.rs:753-842 | an approval is written exactly by a call that takes its own capability on the word of the user |
| Outcomes.ReleaseOutcome | apps/jit-worker/src/jobs.rs:843-861 | a release drops the grant of that hash and the records of its source, and keeps the others in their order |
| Outcomes.ProbeHttpOutcome | apps/jit-worker/src/jobs.rs:862-893 | an HTTP probe is charged exactly when a held capability covers its URL, and recorded under the first that does |
| AgentWorkspace.AgentWorkspace.ExecuteTool | apps/jit-worker/src/jobs.rs:292-893 | the in-place calls leave the workspace and result of which Outcomes says exactly what they are, and keep the workspace valid |
| AgentWorkspace.AgentWorkspace.EvaluateAfterMutation | apps/jit-worker/src/jobs.rs:896-966 | stages, put, build, samples, tests, publication, with each early return |
| AgentWorkspace.AgentWorkspace.ApplyExampleCorrection | apps/jit-worker/src/jobs.rs:1690-1707 | updates the test in place, or changes nothing and refuses |
| AgentWorkspace.AgentWorkspace.AvailableTools | apps/jit-worker/src/jobs.rs:1309-1348 | counts the turn and lists exactly the tools of the phase |
| AgentWorkspace.OfferedIsAdvertised | apps/jit-worker/src/jobs.rs:1309-1348 | the listed tools are those of the advertised calls |
| AgentWorkspace.OfferedExactly | apps/jit-worker/src/jobs.rs:1309-1348 | contract, then source, then edits, probes of a candidate and reviews of a failed generated test, beside what the budgets leave |
| AgentWorkspace.LimitOnlyFrom | apps/jit-worker/src/jobs.rs:316-893 | an advertised call meets a used-up budget only for edits, reviews and probes |
| SourceEdits.EditedExactly | apps/jit-worker/src/jobs.rs:437-456 | an edit is accepted exactly when the fragment has one match, and replaces just that |
| SourceEdits.OverlapIsAccepted | apps/jit-worker/src/jobs.rs:441-446 | a fragment with two overlapping occurrences that is accepted |
| Coherence.AttemptCoherent | crates/jit-storage/src/lib.rs:68-1334 | every committed transaction keeps status, stage, worker, lease, pending input, stable pointer and artifact in agreement, and a version in progress exactly while its job is |
| Coherence.GreatestReadyIsGreatest | crates/jit-storage/src/lib.rs:523-531 | the fallback query yields the greatest ready revision other than the revoked one |
| Commits.RegisterCommits | crates/jit-storage/src/lib.rs:68-174 | a known key is answered or refused, a new one gets the next revision and a queued job, each exactly when |
| Commits.ClaimCommits | crates/jit-storage/src/lib.rs:680-777 | a job is claimed exactly when available or out of its lease; the row and version after it, column by column |
| Commits.StageCommits | crates/jit-storage/src/lib.rs:1156-1195 | for the owner only: the job is in the stage, and its version is building, validating or synthesizing exactly as the stage says |
| Commits.EventCommits | crates/jit-storage/src/lib.rs:1046-1065 | who may append, and what is recorded: the payload, its length and hash, the marker, or nothing |
| Commits.ContractCommits | crates/jit-storage/src/lib.rs:1197-1221 | the owner's contract, on its own version alone |
| Commits.SuspendCommits | crates/jit-storage/src/lib.rs:889-968 | when a question is stored, known already or refused, and the rows after it |
| Commits.AnswerCommits | crates/jit-storage/src/lib.rs:989-1044 | when an answer is accepted, with which error it is refused, and the rows after it |
| Commits.CancelCommits | crates/jit-storage/src/lib.rs:801-857 | when a job is cancelled, with which error not, and the rows after it |
| Commits.RejectCommits | crates/jit-storage/src/lib.rs:1296-1334 | job and version of the owner are rejected and nothing else changes |
| Commits.PublishCommits | crates/jit-storage/src/lib.rs:1223-1294 | version, pointer, job, artifact row and event of a publication, and nothing else |
| Commits.RevokeCommits | crates/jit-storage/src/lib.rs:482-550 | a ready version is revoked, any other refused with its status; the pointer moves exactly when it named that version |
| Stages.StagesAgreeInEveryRun | crates/jit-storage/src/lib.rs:680-1195 | in every run, with a stage change as one step, the version of a live job is building exactly in the building stage, validating exactly in the validating stage, synthesizing exactly in the others, and a draft before the first claim |
| Stages.ResumedStageAgrees | crates/jit-storage/src/lib.rs:699-732 | a claim after an answer keeps the stage and finds the version as the suspension left it |
| Histories.RunKeeps | crates/jit-storage/src/lib.rs:680-1334 | coherence and the history of a job over every run of any workers and users |
| Histories.ReachableOk | crates/jit-storage/src/lib.rs:680-1334 | the same from the empty registry |
| Histories.Isolation | crates/jit-storage/src/lib.rs:680-1334 | a transaction leaves every other job, its questions and its run untouched |
| Ownership.WriterIsLatestClaimer | crates/jit-storage/src/lib.rs:779-799 | a successful owner write comes from the latest claimer; anyone else gets JobLeaseLost |
| Ownership.OldOwnerIsFenced | crates/jit-storage/src/lib.rs:680-719 | after another worker's claim every write of the old owner fails, in every later run, until it claims again |
| Ownership.RunningClaimableExactly | crates/jit-storage/src/lib.rs:686-697 | a running job is claimable exactly when untouched for more than 300 seconds |
| Ownership.RenewedLeaseKeepsOwner | apps/jit-worker/src/jobs.rs:109-125 | while the owner touches the running job within each 300 seconds nobody else can claim it, nor after it has ended, over whole runs |
| Ownership.AttemptsConserved | crates/jit-storage/src/lib.rs:702-718 | in every run claims are attempts plus claims after an answer, and answers match |
| Questions.SuspendAnswerClaim | crates/jit-storage/src/lib.rs:889-1044 | suspension, answer and claim give back stage, attempts and checkpoint |
| Questions.ReplayReadsTheAnswer | crates/jit-storage/src/lib.rs:970-1044 | the replayed call reads exactly the user's answer, in every later run |
| Questions.InputForever | crates/jit-storage/src/lib.rs:889-1044 | a question and its answer never change: each input is answered at most once |
| Questions.WrongKindUnreachable | apps/jit-worker/src/jobs.rs:613-653 | with unique call ids a job that is not rejected reads text exactly for a clarification |
| Questions.WrongKindExactly | crates/jit-storage/src/lib.rs:801-1044 | in every run, with any call ids, an answer is of another kind than its question exactly when the job was cancelled while it waited for that clarification |
| Questions.CancelledClarificationReadsRejection | crates/jit-storage/src/lib.rs:837-846 | the remaining case: cancellation answers a clarification with a rejection |
| Endings.TerminalForever | crates/jit-storage/src/lib.rs:801-857 | the row of a ready or rejected job never changes again, nor its version except to revoked |
| Endings.CancelExactly | crates/jit-storage/src/lib.rs:801-857 | a cancellation succeeds exactly with a fit reason, a live job and an existing run |
| Endings.FreshJobCannotBeCancelled | crates/jit-storage/src/lib.rs:847-855 | a registered job without a run cannot be cancelled |
| Endings.SecondStatementExactly | crates/jit-storage/src/lib.rs:1175-1193 | the second statement of a stage change keeps the invariants exactly when the job is still live and claimed |
| Endings.CancelBetweenStatements | crates/jit-storage/src/lib.rs:1162-1193 | a cancellation in between always leaves a rejected job with a version being built |
| Endings.PublishBetweenStatements | crates/jit-storage/src/lib.rs:1162-1193 | a first statement of one worker, any run in which another takes over and publishes, and the second statement always leave a stable revision that does not resolve |
| Progress.NoJobIsStuck | crates/jit-storage/src/lib.rs:686-697 | in every reachable state a job that has not ended can be claimed now, can be claimed when its lease runs out, or accepts every answer of its kind |
| Progress.AnswerExactly | crates/jit-storage/src/lib.rs:989-1011 | an answer is accepted exactly when it is for the pending input and of its kind |
| Progress.ArchivedAfterSevenDays | crates/jit-storage/src/lib.rs:1136-1140 | the events of an ended job are archived exactly when more than seven days passed since it ended |
| Revisions.ResolvesExactly | crates/jit-storage/src/lib.rs:1336-1385 | a tool resolves exactly when the revision asked for, or else the stable one, is ready, and the answer has that revision, the digest of its own artifact and the formats of its own request |
| Revisions.ResolvesExactlyInEveryRun | crates/jit-storage/src/lib.rs:1336-1385 | in every run stable is empty exactly when no version is ready |
| Revisions.RevocationFallsBack | crates/jit-storage/src/lib.rs:482-550 | after the stable revision is revoked the tool falls back to the greatest ready one, or none; others move nothing |
| Revisions.PublishedPointerIsGreatestExactly | crates/jit-storage/src/lib.rs:1256-1275 | the pointer of a publication is the greatest ready revision exactly when no greater one was ready |
| Revisions.ReplayedRegistration | crates/jit-storage/src/lib.rs:68-115 | in every later state a replay returns the same job unchanged, and another request under the key is refused |
| Revisions.RevisionsExactly | crates/jit-storage/src/lib.rs:116-174 | the revisions of a tool are 1 to the latest, each with exactly one job |
| Revisions.JobsCountAcceptedKeys | crates/jit-storage/src/lib.rs:68-174 | in every run there are as many jobs as distinct accepted keys |
| Traces.TraceBudget | crates/jit-storage/src/lib.rs:1456-1523 | the byte counter is the sum of recorded sizes, at most 512 KiB, and 512 bytes less until the job ends |
| Traces.EndIsRecorded | crates/jit-storage/src/lib.rs:1284-1291 | a publication event is recorded in full, a cancellation event at least as the marker |
| Traces.CompactionExactly | crates/jit-storage/src/lib.rs:1124-1154 | exactly the jobs that ended more than seven days ago with live events are archived, with all of them; only events of archived jobs go |
| Traces.CompactionConservesExactly | crates/jit-storage/src/lib.rs:1124-1154 | a compaction keeps the events of a job exactly when it does not have both an archive and live events |
| Traces.CompactionConserves | crates/jit-storage/src/lib.rs:1124-1154 | over runs with nothing appended late, every event is archived or live once, in id order, and sizes add up |
| Approvals.CountMeansAllActive | crates/jit-storage/src/lib.rs:611-626 | the count equals the length exactly when hashes are distinct and all active |
| Approvals.CandidateGate | apps/jit-worker/src/runner.rs:244-261 | for every reachable workspace the gate is open exactly when every grant is active |
| Approvals.RevokedCapabilityClosesGate | apps/jit-worker/src/runner.rs:244-261 | a revoked grant keeps the artifact closed through every run without a new approval |
| Provenance.SupportedGate | apps/jit-worker/src/runner.rs:244-261 | the same for every supported bundle |
| Lineage.VersionGate | apps/jit-worker/src/runner.rs:244-261 | in every run, the artifact of a ready or revoked version is recorded and its gate is open exactly when every grant is active |
| Lineage.PublishedRestsOnEvidence | apps/jit-worker/src/jobs.rs:896-1025 | in every run with crashes and replays, a ready or revoked version was published by a tool call of the run: the results are those of that call's sandbox, the review, verdicts and corrections come from earlier calls of the same job, each correction was approved by a user under the id of its own call, and digest, contract and manifest are still those of the bundle |
| Lineage.LineageHolds | apps/jit-worker/src/jobs.rs:98-290 | in every run, what each live agent and each saved checkpoint has been granted comes from earlier calls of its own job |
| Lineage.ApprovalIsTheUsers | crates/jit-storage/src/lib.rs:970-1044 | an approval the registry holds is the answer of a user to the question pending under that call id |
| Registrations.EveryJobWasRegistered | crates/jit-storage/src/lib.rs:68-174 | in every run every job was registered by a move of the run, as the version and for the request it has now |
| Registrations.ResolvedGoesBack | crates/jit-storage/src/lib.rs:1336-1385 | in every run the digest of a resolved tool is that of the bundle its own job published, and its formats are those of the request that job was registered with |
| Registrations.EvidenceIsItsCalls | apps/jit-worker/src/jobs.rs:896-1025 | the evidence of a publication is the bundle made of the workspace of that very call and the results of its sandbox, one for each sample and test |
| Restarts.RestartResumes | apps/jit-worker/src/jobs.rs:1268-1296 | a worker that claims a job within three attempts goes on with the very agent that was saved last, pending call included, whatever happened in between |
| Restarts.StartsFrom | apps/jit-worker/src/jobs.rs:1268-1296 | a claim starts from the checkpoint of the same engine, or afresh without one, and not beyond the third attempt |
| Restarts.ToolExactly | apps/jit-worker/src/jobs.rs:253-290 | after a tool call the agent goes on with the outcome's workspace, or its process ends with a question under that call's id, a publication, or nothing |
| Restarts.TurnExactly | apps/jit-worker/src/jobs.rs:182-252 | a call becomes pending exactly for a saved agent without one, when its tool is on offer with the turn counted |
| CallIds.ApprovedAsAsked | apps/jit-worker/src/jobs.rs:655-720 | with unique call ids the approved question was about the very correction that is applied |
| CallIds.PublishedCorrectionsWereAsked | apps/jit-worker/src/jobs.rs:655-720 | so every correction behind a published version is stored as an approved question about it |
| CallIds.ReplayReadsItsKind | apps/jit-worker/src/jobs.rs:613-653 | with unique call ids, over runs with crashes, a tool call reads text exactly for a clarification, or the job was cancelled and a clarification reads a rejection |
| CallIds.EveryQuestionWasAsked | apps/jit-worker/src/jobs.rs:613-720 | in every run, with any call ids, every stored question was asked by a tool call under its id and is about the subject of that call |
| CallIds.UsedAsAskedExactly | apps/jit-worker/src/jobs.rs:613-842 | in every run, with any call ids, an answer is used for what the user was asked about if and only if the asking and the reading call have the same subject |
| CallIds.CorrectionUsedAsAskedExactly | apps/jit-worker/src/jobs.rs:655-720 | an approved correction is one the user was asked about exactly when the call that asked proposed it |
| CallIds.ReusedIdApprovesAnything | apps/jit-worker/src/jobs.rs:673-690 | in every reachable workspace an approval under the id of a call is used for whatever valid correction that call proposes |
| Conversations.ReusedIdIsMisused | apps/jit-worker/src/jobs.rs:673-690 | a run that applies a correction of example 2 while the only question was about example 1 |
| Grants.PublishedGrantsGoBack | apps/jit-worker/src/jobs.rs:753-842 | in every run, each grant of a ready or revoked version was taken by a call of the publishing job while it was active, and had become active by a user's approval under the id of a request for it |
| Grants.GrantsHold | apps/jit-worker/src/jobs.rs:753-842 | in every run, each grant of every live agent and saved checkpoint was taken by a call of its own job and was active then |
| Grants.ActiveGoesBackToAUser | crates/jit-storage/src/lib.rs:586-609 | in every run, every active capability was requested by a call whose own question a user had approved |
| Attempts.AtMostThreeStarts | apps/jit-worker/src/jobs.rs:106-107 | in every run exactly the first three attempts of a job start an agent |
| Attempts.FourthAttemptOnlyRejects | apps/jit-worker/src/jobs.rs:106-107 | in every run a job beyond its third attempt is rejected, or running while its owner has no agent for it |
| Provenance.JobBuildsItsRequest | crates/jit-storage/src/lib.rs:124-164 | in every later state a job builds the request it was registered with |
| Provenance.MovesGood | apps/jit-worker/src/jobs.rs:98-290 | every live agent and every saved checkpoint stays valid, and a saved owner equals its checkpoint |
| ProbeBudget.FiveProbesPerJob | apps/jit-worker/src/jobs.rs:41-45 | over all attempts of a job the sandbox probes at most five times |
| Rehearsals.FiveProbesAreReached | apps/jit-worker/src/jobs.rs:459-502 | a run of three workers in which the sandbox probes five times: the bound is tight |
| Conversations.PublicationIsReached | apps/jit-worker/src/jobs.rs:896-966 | a run that publishes with an approved correction, a test changed by the verifier and a sample |
| Conversations.FullRunIds | apps/jit-worker/src/jobs.rs:655-720 | and whose call ids are unique |
| Rehearsals.CancelledClarificationIsRead | apps/jit-worker/src/jobs.rs:613-653 | a run in which a worker that lost its lease reads a rejection for its clarification |
| Scenarios.PublishSplit | crates/jit-storage/src/lib.rs:1162-1193 | a run from the empty registry that ends with a stable revision that does not resolve |
| Scenarios.CancelSplit | crates/jit-storage/src/lib.rs:1162-1193 | one that ends with a rejected job whose version is being built |
| Scenarios.QueuedJobLosesCandidate | crates/jit-storage/src/lib.rs:1097-1102 | one in which an answered job loses the candidate its checkpoint lists |
| Scenarios.CleanupInsideFirstEvaluation | apps/jit-worker/src/jobs.rs:912-950 | one in which a published version has no artifact |
| Scenarios.FencedWorkerCleansUp | apps/jit-worker/src/jobs.rs:150-180 | one in which a worker that lost its job removes a candidate its successor's checkpoint lists |
| Scenarios.StablePointerGoesBack | crates/jit-storage/src/lib.rs:1256-1275 | one in which the tool points at revision 1 while revision 2 is ready |
| Scenarios.LateEventIsLost | crates/jit-storage/src/lib.rs:1124-1154 | one in which an event is in neither archive nor trace |
| ProbeBudget.ExecuteProbesOnce | apps/jit-worker/src/jobs.rs:459-502 | a call probes at most once, only after the registry accepted the stage, and then the agent goes on |
| Registry.AppendInTransaction | crates/jit-storage/src/lib.rs:1456-1505 | the statements record the payload, the marker or nothing as the budget allows, or fail without a run |
| Registry.Registry.Register | crates/jit-storage/src/lib.rs:68-174 | commits the specified rows or nothing, and answers with the job of the key |
| Registry.Registry.ClaimSynthesisJob | crates/jit-storage/src/lib.rs:680-777 | claims some claimable job, or none when there is none, with its request and checkpoint |
| Registry.Registry.RenewJobLease | crates/jit-storage/src/lib.rs:779-799 | succeeds exactly for the owner; then nobody can claim the job for 300 seconds |
| Registry.Registry.SetJobStage | crates/jit-storage/src/lib.rs:1156-1195 | for the owner the job is in the stage and its version building, validating or synthesizing as the stage says; anyone else gets JobLeaseLost |
| Registry.Registry.SuspendJobForInput | crates/jit-storage/src/lib.rs:889-968 | stores the question and suspends, answers a known call with its input, or rolls back |
| Registry.Registry.AnswerJobInput | crates/jit-storage/src/lib.rs:989-1044 | closes the pending input and queues the job in its stage, or rolls back |
| Registry.Registry.CancelJob | crates/jit-storage/src/lib.rs:801-857 | rejects job and version and closes the input, or rolls back |
| Registry.Registry.PublishJob | crates/jit-storage/src/lib.rs:1223-1294 | artifact, version, pointer, job and event together, or nothing |
| Registry.Registry.RejectJob | crates/jit-storage/src/lib.rs:1296-1334 | job and version are rejected together, by the owner only |
| Registry.Registry.SaveAgentCheckpoint | crates/jit-storage/src/lib.rs:859-887 | inserts or replaces the checkpoint and keeps the byte counter |
| Registry.Registry.AppendAgentEvent | crates/jit-storage/src/lib.rs:1046-1065 | an owner's event within the ordinary budget |
| Registry.Registry.SaveContract | crates/jit-storage/src/lib.rs:1197-1221 | the owner's contract on the version, or JobLeaseLost |
| Registry.Registry.RevokeToolVersion | crates/jit-storage/src/lib.rs:482-550 | revokes and moves the pointer only from the stable revision |
| Registry.Registry.ResolveTool | crates/jit-storage/src/lib.rs:1336-1385 | answers exactly for a ready revision, with that revision's digest and formats, and never reports a broken invariant |
| Registry.Registry.ReferencedArtifacts | crates/jit-storage/src/lib.rs:1080-1122 | the loop collects artifact rows and candidates of running and awaiting jobs |
| Registry.Registry.CompactAgentTraces | crates/jit-storage/src/lib.rs:1124-1154 | the archive insert and the delete in one transaction: no archived job keeps live events, and a job without an earlier archive loses none |
| Registry.Registry.ApproveHttpCapability | crates/jit-storage/src/lib.rs:586-609 | makes the capability active, again if it was revoked, and no other |
| Registry.Registry.RevokeHttpCapability | crates/jit-storage/src/lib.rs:657-678 | revokes an active capability for a fit reason, and no other, or fails |
| Registry.Registry.AllHttpCapabilitiesApproved | crates/jit-storage/src/lib.rs:611-626 | the count answers yes exactly when the hashes are distinct and every one is active |
| ArtifactStore.PutsShareExactly | crates/jit-artifact/src/lib.rs:132-238 | two puts share an entry exactly when formats, grants, contract, source, tests and addressed counters are equal; each loads a bundle with its own, and a new entry keeps the whole validation |
| ArtifactStore.DigestsExactly | crates/jit-artifact/src/lib.rs:326-342 | two artifacts share a digest exactly when they agree in every addressed field |
| ArtifactStore.UnaddressedFields | crates/jit-artifact/src/lib.rs:99-107 | input sample counts and validation time do not enter the digest, so a second put with other ones is dropped |
| ArtifactStore.Store.Put | crates/jit-artifact/src/lib.rs:132-205 | after a successful put the digest loads a bundle with the formats, grants, contract, source, tests and addressed counters of the artifact, and its whole validation when new; nothing else changes, at whatever step it is interrupted |
| ArtifactStore.Store.Load | crates/jit-artifact/src/lib.rs:207-238 | succeeds exactly for listed digests, with their bundle |
| ArtifactStore.Store.ListDigests | crates/jit-artifact/src/lib.rs:249-274 | names every complete artifact once and nothing else |
| ArtifactStore.Store.CleanupTemporary | crates/jit-artifact/src/lib.rs:276-297 | removes and counts exactly the interrupted writes |
| Collection.CleanupStaleState | apps/jit-worker/src/main.rs:143-173 | keeps exactly the referenced entries and counts the others |
| Collection.CleanupCandidates | apps/jit-worker/src/jobs.rs:1076-1097 | removes exactly the unpublished, unreferenced candidates of the job |
| Collection.ReferencedExactly | crates/jit-storage/src/lib.rs:1080-1122 | the collected digests are the artifact rows and the candidates of other running or awaiting jobs |
| Collection.PublishedStaysStored | apps/jit-worker/src/main.rs:143-173 | in every run every published artifact is in the store |
| Collection.CleanupSpares | apps/jit-worker/src/jobs.rs:1076-1097 | no cleanup removes what another running or awaiting job has saved |
| Collection.OwnCleanupRemovesSuccessors | apps/jit-worker/src/jobs.rs:1076-1097 | a cleanup for a job removes what only the job's own, newer checkpoint lists |
| Collection.AnsweredJobIsUnprotected | crates/jit-storage/src/lib.rs:1097-1102 | an answered, unclaimed job loses its unshared candidates |
| Collection.CleanupInsideEvaluation | apps/jit-worker/src/jobs.rs:912-950 | a cleanup between put and publication leaves a published version without artifact |
| ModelCall.CallModel | apps/jit-worker/src/synthesizer.rs:221-304 | the two-counter loop computes the recursive call |
| ModelCall.CallIsBounded | apps/jit-worker/src/synthesizer.rs:221-304 | at most eight requests with retries and two without, all within the context limit, each a repeat or the whole conversation so far; usage summed over all answers |
| ModelCall.CallEndsExactly | apps/jit-worker/src/synthesizer.rs:221-304 | a call goes on after each reply but the last exactly as the retries allow, and ends with the last one: its choice, its failure, or a next request beyond the context limit |
| ModelCall.ChoiceHasToolCall | apps/jit-worker/src/synthesizer.rs:262-280 | a successful choice has a tool call unless a text was answered before |
| ModelCall.BoundsAreReached | apps/jit-worker/src/synthesizer.rs:24-29 | providers for which eight and two requests are sent |
| ModelCall.Complete | apps/jit-worker/src/synthesizer.rs:313-345 | the coder model's result, or the verifier model's when the first failed or timed out; at most ten requests |
| ModelCall.CompletionUsage | apps/jit-worker/src/synthesizer.rs:313-345 | the reported usage is everything received exactly when the failed coder model had cost nothing |
| ModelCall.FailedCoderIsNotReported | apps/jit-worker/src/synthesizer.rs:313-345 | a coder and a verifier model for which five tokens received are not reported |
| ModelCall.AskTwice | apps/jit-worker/src/synthesizer.rs:347-417 | the loop of contract review and test verification: the first reply that parses, of at most two calls |
| ModelCall.FirstThatParses | apps/jit-worker/src/synthesizer.rs:347-417 | a reviewer says exactly what the first reply that parses says, of at most two calls |
| ModelCall.ReviewExactly | apps/jit-worker/src/synthesizer.rs:661-703 | a review is read exactly from the arguments of the one tool call, within the limits written out |
| ModelCall.VerdictExactly | apps/jit-worker/src/synthesizer.rs:727-765 | a verdict is read exactly from the arguments of the one tool call, with a replacement exactly for a wrong oracle |
| ModelCall.ReviewContract | apps/jit-worker/src/synthesizer.rs:347-380 | at most sixteen requests; the review is the one submitted by the only tool call of a reply |
| ModelCall.VerifyGeneratedTest | apps/jit-worker/src/synthesizer.rs:382-416 | at most sixteen requests; the verdict is the one submitted by the only tool call of a reply |
| ModelCall.ReviewsAreConsistent | apps/jit-worker/src/synthesizer.rs:661-703 | at most sixteen requests; accepting reviews have no issue, others one to three |
| ModelCall.VerdictsAreComplete | apps/jit-worker/src/synthesizer.rs:727-765 | a wrong-oracle verdict always carries its replacement |
| Truncation.TruncatedIsLongest | apps/jit-worker/src/jobs.rs:1805-1814 | the cut text is the longest prefix within the byte limit |
| Truncation.TruncateTextToBytes | apps/jit-worker/src/jobs.rs:1805-1814 | the backward search for a boundary finds it |
| Truncation.TruncateDocument | apps/jit-worker/src/web_access.rs:389-401 | the forward scan cuts at the same place |

## Left out

- Docker, gRPC, HTTP handlers, PostgreSQL, TLS, DNS and the console: input and output.
- Row locks: a transaction is one step, a claim may take any claimable job, and `created_at` order is not promised.
- Uniqueness of input ids across jobs: ids are parameters; an answer must name the pending input of its job.
- The agent library: assumed to offer one pending call at a time, only from the advertised tools, and to replay it after a restore; its turn limit is not modelled.
- A tool call of a process is one step; stage changes and saved contracts inside it are free transactions before or after it, and a lease lost during it is a write that fails although the call began as the owner's.
- The heartbeat task beside an agent: renewals are free transactions, and its failure ends the process like a crash.
- Database errors other than a lost lease, a missing run and the conflicts listed in `Schema.StorageFailure`; trace events inside a tool call, whose loss of the lease ends the call like a lost stage change.
- Serialisation and hashing: payloads, digests and fingerprints are constructors, and event payloads are kept as encoded lengths.
- `serde_json` reading: exactness is about the number text it renders, since it stores most numbers as 64-bit integers or floats first.
- Whitespace outside ASCII: the source also trims Unicode spaces, so a reason of only non-breaking spaces is refused there and accepted here.
- JSON, URL and fixture-size checks of library calls: parameters of `Env`, otherwise arbitrary.
- `normalize_http_capability`: host parsing is library behaviour; a call carries its result, or none when it is refused.
- Diagnostics, error texts, tool-result texts and the choices offered with a question.
- Source images and their removal: they follow the same references as artifacts.
- Artifact format versions 1 and 2, and concurrent puts of the same digest, where a second rename may fail.
- HTML stripping, redirects and bounded reads of fetched documents, and the address tables.
- The deprecated and contract-ready version statuses are kept in the type but no transaction sets them.
- ArtifactStore.Store.Put: the seven files of a directory are counted, not written out, since each is rendered from the bundle.
- Registry.Registry.ClaimSynthesisJob: the error for a partly filled checkpoint row is not modelled, since the columns are one value here.
- Truncation.TruncateDocument: the character iterator is a loop over the same start positions.
