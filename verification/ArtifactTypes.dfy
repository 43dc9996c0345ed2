/** The values a published tool is made of (jit-artifact, lib.rs).

    Cryptographic hashes are modelled as constructors, so that equal hashes mean equal
    contents. */
module ArtifactTypes {
  datatype IoFormat = TextFormat | JsonFormat

  datatype Contract = Contract(summary: string, assumptions: seq<string>, invariants: seq<string>)

  datatype Fixture = Fixture(requestUrl: string, responseUrl: string, status: nat, contentType: string, body: string)

  /** user-example-N, or generated-N-label. */
  datatype TestName = UserExample(index: nat) | Generated(index: nat, title: string)

  datatype TestCase = TestCase(
    name: TestName,
    args: seq<string>,
    stdin: string,
    expectedStdout: string,
    expectedExitCode: int,
    fixtures: seq<Fixture>)

  /** A keyless HTTPS GET permission; scheme, port and method are fixed. */
  datatype Capability = Capability(host: string, pathPrefix: string, queryKeys: seq<string>, purpose: string)

  /** http_capability_hash: the purpose is not part of it. */
  datatype CapabilityHash = CapabilityHash(host: string, pathPrefix: string, queryKeys: seq<string>)

  function HashCapability(c: Capability): CapabilityHash {
    CapabilityHash(c.host, c.pathPrefix, c.queryKeys)
  }

  datatype Grant = Grant(approvalHash: CapabilityHash, capability: Capability)

  datatype SourceHash = SourceHash(source: string)

  datatype Manifest = Manifest(
    inputFormat: IoFormat,
    outputFormat: IoFormat,
    sourceHash: SourceHash,
    grants: seq<Grant>)

  datatype Validation = Validation(
    testsTotal: nat,
    testsPassed: nat,
    inputSamplesTotal: nat,
    inputSamplesPassed: nat,
    repairRounds: nat,
    agentTurns: nat,
    generatedTestCorrections: nat,
    probesRun: nat,
    validatedAt: int)

  datatype Bundle = Bundle(
    manifest: Manifest,
    contract: Contract,
    source: string,
    tests: seq<TestCase>,
    validation: Validation)

  /** ArtifactDigestPayload: the input samples and the time of validation are outside it. */
  datatype DigestPayload = DigestPayload(
    manifest: Manifest,
    contract: Contract,
    source: string,
    tests: seq<TestCase>,
    testsTotal: nat,
    testsPassed: nat,
    repairRounds: nat,
    agentTurns: nat,
    generatedTestCorrections: nat,
    probesRun: nat)

  datatype Digest = Sha256(payload: DigestPayload)

  function Payload(b: Bundle): DigestPayload {
    DigestPayload(b.manifest, b.contract, b.source, b.tests,
                  b.validation.testsTotal, b.validation.testsPassed, b.validation.repairRounds,
                  b.validation.agentTurns, b.validation.generatedTestCorrections, b.validation.probesRun)
  }

  function SemanticDigest(b: Bundle): Digest {
    Sha256(Payload(b))
  }
}
