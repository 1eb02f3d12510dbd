/** The records of deployment evidence and the texts that stand for them in digests (deployment_capture.py,
    deployment_contract.py). Instants are integers. */
module DeploymentModels {
  import opened LengthFraming
  import opened Numerals

  type Instant = int

  datatype Result<+T> = Ok(value: T) | Err

  datatype CaptureKind = Synthetic | Live

  datatype ProbeOutcome = Denied

  datatype CapturedResource = CapturedResource(
    stableId: string, kind: string, name: string, uid: string, generation: int, spec: string, status: string,
    graph: string, source: string)

  datatype CapturedProbe = CapturedProbe(
    vector: string, attemptedAt: Instant, executor: string, target: string, testVector: string, transport: string,
    resultCode: string, durationMs: int, reason: string, outcome: string, raw: string)

  datatype CaptureProof = CaptureProof(
    projectId: string, clusterName: string, location: string, clusterUid: string, environment: string,
    runId: string, nonce: string, capturedAt: Instant, collectorId: string, collectorVersion: string,
    graph: string, rawInventory: string, rawProbe: string, manifest: string, image: string,
    environmentSha: string, control: string, corpus: string, input: string, watcherRegistration: string,
    watcherReceipt: string, checksumSet: string, normalized: string, resourceRecords: string,
    probeRecords: string, keyId: string, attestation: string)

  datatype LiveCapture = LiveCapture(
    proof: CaptureProof, resources: seq<CapturedResource>, probes: seq<CapturedProbe>)

  datatype Resource = Resource(
    stableId: string, kind: string, name: string, uid: string, generation: int, spec: string, status: string,
    graph: string, source: string)

  datatype Probe = Probe(
    vector: string, environment: string, runId: string, clusterUid: string, attemptedAt: Instant,
    executor: string, target: string, testVector: string, transport: string, resultCode: string,
    durationMs: int, outcome: ProbeOutcome, reason: string, raw: string)

  datatype Observation = Observation(
    environment: string, manifest: string, image: string, environmentSha: string, control: string,
    resources: seq<Resource>, probes: seq<Probe>, proof: Option<CaptureProof>, kind: CaptureKind)

  datatype Checksum = Checksum(name: string, sha: string)

  datatype DesiredState = DesiredState(manifest: string, kind: CaptureKind)

  datatype Receipt = Receipt(registrationId: string, sha: string)

  datatype Envelope = Envelope(
    contract: string, corpus: string, input: string, desired: DesiredState, observations: seq<Observation>,
    local: seq<Checksum>, gke: seq<Checksum>, receipt: Receipt, challenge: string, evidence: string)

  // ----- rendering -----

  /** What the code takes from elsewhere: the digest, the spelling of an instant and of a capture kind. */
  datatype Notation = Notation(sha: seq<Octet> -> string, stamp: Instant -> string, kind: CaptureKind -> string)

  /** Two instants, and the two kinds, are never spelled alike. */
  ghost predicate Distinguishing(notation: Notation) {
    && (forall s, t :: notation.stamp(s) == notation.stamp(t) ==> s == t)
    && notation.kind(Synthetic) != notation.kind(Live)
  }

  const DENIED := "denied"

  function Concat(blocks: seq<seq<string>>): seq<string> {
    if blocks == [] then [] else blocks[0] + Concat(blocks[1..])
  }

  function ResourceFields(r: Resource): seq<string> {
    [r.stableId, r.kind, r.name, r.uid, Text(r.generation), r.spec, r.status, r.graph, r.source]
  }

  function ProbeFields(notation: Notation, p: Probe): seq<string> {
    [p.vector, p.environment, p.runId, p.clusterUid, notation.stamp(p.attemptedAt), p.executor, p.target,
     p.testVector, p.transport, p.resultCode, Text(p.durationMs), DENIED, p.reason, p.raw]
  }

  function ProofFields(notation: Notation, p: CaptureProof): seq<string> {
    [p.projectId, p.clusterName, p.location, p.clusterUid, p.environment, p.runId, p.nonce,
     notation.stamp(p.capturedAt), p.collectorId, p.collectorVersion, p.graph, p.rawInventory, p.rawProbe,
     p.manifest, p.image, p.environmentSha, p.control, p.corpus, p.input, p.watcherRegistration,
     p.watcherReceipt, p.checksumSet, p.normalized, p.resourceRecords, p.probeRecords, p.keyId, p.attestation]
  }

  /** What the collector's signature covers: all of a proof but the signature itself. */
  function SignedFields(notation: Notation, p: CaptureProof): seq<string> {
    [p.projectId, p.clusterName, p.location, p.clusterUid, p.environment, p.runId, p.nonce,
     notation.stamp(p.capturedAt), p.collectorId, p.collectorVersion, p.graph, p.rawInventory, p.rawProbe,
     p.manifest, p.image, p.environmentSha, p.control, p.corpus, p.input, p.watcherRegistration,
     p.watcherReceipt, p.checksumSet, p.normalized, p.resourceRecords, p.probeRecords, p.keyId]
  }

  function ProofPart(notation: Notation, proof: Option<CaptureProof>): seq<string> {
    match proof case None => [] case Some(p) => ProofFields(notation, p)
  }

  function ResourceBlocks(rs: seq<Resource>): seq<seq<string>> {
    seq(|rs|, i requires 0 <= i < |rs| => ResourceFields(rs[i]))
  }

  function ProbeBlocks(notation: Notation, ps: seq<Probe>): seq<seq<string>> {
    seq(|ps|, i requires 0 <= i < |ps| => ProbeFields(notation, ps[i]))
  }

  function ObservationHead(notation: Notation, o: Observation): seq<string> {
    [o.environment, o.manifest, o.image, o.environmentSha, o.control, notation.kind(o.kind)]
  }

  function ObservationFields(notation: Notation, o: Observation): seq<string> {
    ObservationHead(notation, o) + Concat(ResourceBlocks(o.resources))
    + Concat(ProbeBlocks(notation, o.probes)) + ProofPart(notation, o.proof)
  }

  function ChecksumFields(c: Checksum): seq<string> { [c.name, c.sha] }

  function ChecksumBlocks(cs: seq<Checksum>): seq<seq<string>> {
    seq(|cs|, i requires 0 <= i < |cs| => ChecksumFields(cs[i]))
  }

  function ObservationBlocks(notation: Notation, os: seq<Observation>): seq<seq<string>> {
    seq(|os|, i requires 0 <= i < |os| => ObservationFields(notation, os[i]))
  }

  function EnvelopeHead(notation: Notation, e: Envelope): seq<string> {
    [e.contract, e.corpus, e.input, e.challenge, e.desired.manifest, notation.kind(e.desired.kind)]
  }

  /** Everything the evidence digest of an envelope covers, in order. No list is preceded by its length. */
  function EvidenceFields(notation: Notation, e: Envelope): seq<string> {
    EnvelopeHead(notation, e) + Concat(ObservationBlocks(notation, e.observations))
    + Concat(ChecksumBlocks(e.local + e.gke)) + [e.receipt.registrationId, e.receipt.sha]
  }

  function FieldDigest(notation: Notation, fields: seq<string>): string { notation.sha(Framed(fields)) }

  /** The sealed records of a capture, as its collector flattens them. */
  function CapturedResourceFields(r: CapturedResource): seq<string> {
    [r.stableId, r.kind, r.name, r.uid, Text(r.generation), r.spec, r.status, r.graph, r.source]
  }

  function CapturedProbeFields(notation: Notation, p: CapturedProbe): seq<string> {
    [p.vector, notation.stamp(p.attemptedAt), p.executor, p.target, p.testVector, p.transport, p.resultCode,
     Text(p.durationMs), p.reason, p.outcome, p.raw]
  }

  /** The part of an observed probe that its collector sealed. */
  function ProbeRecordFields(notation: Notation, p: Probe): seq<string> {
    [p.vector, notation.stamp(p.attemptedAt), p.executor, p.target, p.testVector, p.transport, p.resultCode,
     Text(p.durationMs), p.reason, DENIED, p.raw]
  }

  function CapturedResourceBlocks(rs: seq<CapturedResource>): seq<seq<string>> {
    seq(|rs|, i requires 0 <= i < |rs| => CapturedResourceFields(rs[i]))
  }

  function CapturedProbeBlocks(notation: Notation, ps: seq<CapturedProbe>): seq<seq<string>> {
    seq(|ps|, i requires 0 <= i < |ps| => CapturedProbeFields(notation, ps[i]))
  }

  function ProbeRecordBlocks(notation: Notation, ps: seq<Probe>): seq<seq<string>> {
    seq(|ps|, i requires 0 <= i < |ps| => ProbeRecordFields(notation, ps[i]))
  }
}
