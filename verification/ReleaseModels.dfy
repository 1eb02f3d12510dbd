/** Release receipts, evidence references, payloads and envelopes (release_contract.py:272-552, 1904-1986). */
module ReleaseModels {

  datatype Option<+T> = None | Some(value: T)

  datatype Result<+T> = Ok(value: T) | Refused

  type Sha = string

  datatype EvidenceKind =
    | ControlLog | ExternalControl | Review | Capture | ManualQa | Cleanup | NfrRaw | NfrReport

  datatype Control = Control(
    controlId: string, category: string, argv: seq<string>, success: bool, exitCode: Option<int>,
    rawLog: Sha, attachments: seq<Sha>)

  datatype External = External(controlId: string, sha: Option<Sha>, attachments: seq<Sha>)

  datatype Reviewed = Reviewed(reviewerId: string, sha: Sha, captures: seq<Sha>)

  datatype Nfr = Nfr(report: Sha, raw: Sha)

  datatype Attachment = Attachment(path: string, sha: Sha)

  datatype Frozen = Frozen(
    revision: string, sourceTree: Sha, dirty: bool, requirements: Sha, goals: Sha, goalsRevision: int,
    session: string, lease: string, catalog: Option<Sha>, dependency: Option<Sha>, fixture: Option<Sha>,
    toolchain: Option<Sha>, revisionAnchor: Option<Sha>)

  datatype Siblings = Siblings(
    sciencePre: Sha, sciencePost: Sha, drylabPre: Sha, drylabPost: Sha, ontologyPre: Sha, ontologyPost: Sha)

  /** `detail` stands for every field of a receipt that finalization and verification only hand to checks they share. */
  datatype Receipt = Receipt(
    releaseId: string, runId: string, attemptId: string, incomplete: bool, authority: Frozen, siblings: Siblings,
    controls: seq<Control>, externals: seq<External>, reviews: seq<Reviewed>, manualQa: Option<Sha>,
    cleanup: Option<Sha>, nfrs: seq<Nfr>, missing: seq<string>, attachments: seq<Attachment>,
    externalAnchor: Option<Sha>, detail: nat)

  datatype Ids = Ids(authority: string, key: string, algorithm: string, version: string, environment: string)

  /** A reference without its signature. */
  datatype Claim = Claim(
    path: string, sha: Sha, kind: EvidenceKind, issuer: string, releaseId: string, runId: string, attemptId: string,
    sourceTree: Sha, revision: string, requirements: Sha, goals: Sha, goalsRevision: int, session: string,
    lease: string, issuedAt: string)

  type Signature = seq<int>

  datatype Reference = Reference(claim: Claim, signature: Signature)

  datatype Payload = Payload(
    receipt: Receipt, finalizedAt: string, nonce: string, science: Sha, drylab: Sha, ontology: Sha, evidence: Sha,
    references: seq<Reference>, session: string, lease: string)

  datatype Envelope = Envelope(payload: Payload, payloadSha: Sha, ids: Ids, signature: Signature)

  /** What is signed: the two domains never share a message. */
  datatype Message = ForReference(ids: Ids, claim: Claim) | ForEnvelope(payloadSha: Sha, ids: Ids)

  /** The two halves of one signing authority. */
  datatype Signer = Signer(ids: Ids, sign: Message -> Signature)

  datatype Verifier = Verifier(ids: Ids, verify: (Message, Signature) -> bool)

  ghost predicate Pair(signer: Signer, verifier: Verifier) { forall m :: verifier.verify(m, signer.sign(m)) }

  datatype Capability = Capability(id: string, domain: string)

  datatype Trust = Trust(
    verifier: Verifier, ids: Ids, session: string, lease: string, consumer: Capability, authorization: Capability)

  /** The roots and input digests of one look at the release topology. */
  datatype Snapshot = Snapshot(science: Sha, drylab: Sha, ontology: Sha, evidence: Sha, inputs: Inputs)

  datatype Inputs = Inputs(
    requirements: Sha, goals: Sha, catalog: Sha, dependency: Sha, fixture: Sha, toolchain: Sha, revisionAnchor: Sha,
    externalAnchor: Sha)

  /** Checks that the finalizer and the verifier share, those only the finalizer makes (`candidate`), the canonical
      jobs with their categories, the digest of a payload, and the validity of timestamps. */
  datatype Rules = Rules(
    seals: (Receipt, string) -> bool, human: Receipt -> bool, epochs: (Receipt, string) -> bool, nfrs: Receipt -> bool,
    derivedMissing: Receipt -> set<string>, candidate: (Receipt, string, Snapshot) -> bool,
    jobs: seq<string>, category: string -> string, payloadSha: Payload -> Sha, instant: string -> bool)

  /** What a receipt's own validation guarantees. */
  predicate ValidReceipt(r: Receipt) {
    && (forall c :: c in r.controls ==> c.argv != [] && (c.success ==> c.exitCode == Some(0)))
    && (forall i, j :: 0 <= i < j < |r.controls| ==> r.controls[i].controlId != r.controls[j].controlId)
    && r.siblings.sciencePre == r.siblings.sciencePost && r.siblings.drylabPre == r.siblings.drylabPost
    && r.siblings.ontologyPre == r.siblings.ontologyPost
  }
}
