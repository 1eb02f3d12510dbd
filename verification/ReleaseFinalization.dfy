/** Finalizing a release and verifying the envelope later (release_contract.py:2182-2317, 2547-2640, 2839-3048). */
module ReleaseFinalization {
  import opened ReleaseModels
  import opened ReleaseReferences

  const MIN_NONCE_LENGTH := 16

  /** What the supervisor lends out while a release is finalized. */
  datatype Lease = Lease(session: string, revision: string)

  /** Everything finalization reads: two looks at the topology, the input files in between, the evidence files with
      their digests, and what the signer issued. */
  datatype Reading = Reading(
    lease: Lease, before: Snapshot, resolved: Inputs, evidence: map<string, Sha>, after: Snapshot,
    issuedAt: string, nonce: string)

  // ----- finalizing -----

  predicate ReceiptLeased(trust: Trust, lease: Lease, r: Receipt) {
    && r.authority.session == lease.session == trust.session
    && r.authority.lease == lease.revision == trust.lease
    && lease.revision != ""
  }

  predicate ResolvedMatch(r: Receipt, i: Inputs) {
    var a := r.authority;
    && a.requirements == i.requirements && a.goals == i.goals && a.catalog == Some(i.catalog)
    && a.dependency == Some(i.dependency) && a.fixture == Some(i.fixture) && a.toolchain == Some(i.toolchain)
    && a.revisionAnchor == Some(i.revisionAnchor) && r.externalAnchor == Some(i.externalAnchor)
  }

  predicate RootsFrozen(r: Receipt, s: Snapshot) {
    r.authority.sourceTree == s.science
    && r.siblings == Siblings(s.science, s.science, s.drylab, s.drylab, s.ontology, s.ontology)
  }

  /** The attachments are exactly the files found, one path each, and cover every declared digest. */
  predicate ManifestMatches(r: Receipt, evidence: map<string, Sha>) {
    && r.attachments != [] && DistinctPaths(r.attachments)
    && (forall a :: a in r.attachments ==> a.path in evidence && evidence[a.path] == a.sha)
    && |evidence| == |r.attachments|
    && (forall d :: d in Declared(r) ==> exists a :: a in r.attachments && a.sha == d)
  }

  function ControlIds(r: Receipt): set<string> { set c | c in r.controls :: c.controlId }

  predicate ControlsPassed(rules: Rules, r: Receipt) {
    && ControlIds(r) == Elements(rules.jobs)
    && forall c :: c in r.controls ==> c.category == rules.category(c.controlId) && c.success
  }

  predicate Candidate(rules: Rules, r: Receipt, read: Reading) {
    && r.incomplete && !r.authority.dirty
    && rules.seals(r, read.issuedAt)
    && ResolvedMatch(r, read.resolved) && RootsFrozen(r, read.before)
    && ManifestMatches(r, read.evidence)
    && ControlsPassed(rules, r)
    && rules.candidate(r, read.issuedAt, read.before)
    && rules.human(r) && rules.epochs(r, read.issuedAt) && rules.nfrs(r)
    && r.missing == [] && rules.derivedMissing(r) == {}
  }

  predicate IssuancePinned(trust: Trust, signer: Signer, writer: Capability) {
    && signer.ids == trust.ids && writer == trust.authorization && writer.id != signer.ids.authority
  }

  function PayloadOf(r: Receipt, read: Reading, refs: seq<Reference>): Payload {
    Payload(r, read.issuedAt, read.nonce, read.after.science, read.after.drylab, read.after.ontology,
            read.after.evidence, refs, r.authority.session, read.lease.revision)
  }

  /** A payload's own validation. */
  predicate ValidPayload(p: Payload) {
    p.receipt.incomplete && p.references != [] && |p.nonce| >= MIN_NONCE_LENGTH && DistinctPlaces(p.references)
  }

  /** The payload that gets bound, if finalization gets that far. */
  function Prepared(rules: Rules, trust: Trust, signer: Signer, writer: Capability, r: Receipt, read: Reading)
    : Result<Payload>
  {
    if !ValidReceipt(r) || !ReceiptLeased(trust, read.lease, r) || !IssuancePinned(trust, signer, writer) then Refused
    else if !rules.instant(read.issuedAt) || |read.nonce| < MIN_NONCE_LENGTH || !Candidate(rules, r, read) then Refused
    else match ReferencesFromManifest(rules, signer, r, read.issuedAt)
      case Refused => Refused
      case Ok(refs) =>
        var p := PayloadOf(r, read, refs);
        if read.before != read.after || !ValidPayload(p) then Refused else Ok(p)
  }

  function Sealed(rules: Rules, signer: Signer, p: Payload): Envelope {
    var sha := rules.payloadSha(p);
    Envelope(p, sha, signer.ids, signer.sign(ForEnvelope(sha, signer.ids)))
  }

  function Finalize(rules: Rules, trust: Trust, signer: Signer, writer: Capability, r: Receipt, read: Reading)
    : Result<Envelope>
  {
    match Prepared(rules, trust, signer, writer, r, read)
    case Refused => Refused
    case Ok(p) => if Sealed(rules, signer, p).signature == [] then Refused else Ok(Sealed(rules, signer, p))
  }

  // ----- verifying -----

  predicate HeaderVerified(rules: Rules, verifier: Verifier, e: Envelope) {
    && e.ids.authority == verifier.ids.authority && e.ids.key == verifier.ids.key
    && e.ids.algorithm == verifier.ids.algorithm && e.ids.version == verifier.ids.version
    && e.payloadSha == rules.payloadSha(e.payload)
    && e.signature != [] && verifier.verify(ForEnvelope(e.payloadSha, e.ids), e.signature)
  }

  predicate RootsComplete(rules: Rules, p: Payload) {
    var r, a := p.receipt, p.receipt.authority;
    && !a.dirty && a.catalog.Some? && a.dependency.Some? && a.fixture.Some? && a.toolchain.Some?
    && a.revisionAnchor.Some? && r.externalAnchor.Some?
    && p.science == a.sourceTree && p.science == r.siblings.sciencePost
    && p.drylab == r.siblings.drylabPost && p.ontology == r.siblings.ontologyPost
    && ControlIds(r) == Elements(rules.jobs)
    && forall c :: c in r.controls ==>
         c.category == rules.category(c.controlId) && c.success && c.exitCode == Some(0) && c.argv != []
  }

  predicate ReferencesComplete(p: Payload) {
    && ExpectedTuples(p.receipt) == Ok(TuplesOf(p.references))
    && |p.references| == |Declared(p.receipt)| && RefShas(p.references) == Declared(p.receipt)
    && DistinctPlaces(p.references)
  }

  predicate PayloadProven(rules: Rules, trust: Trust, p: Payload) {
    var r := p.receipt;
    && ValidReceipt(r)
    && p.session == r.authority.session == trust.session && p.lease == r.authority.lease == trust.lease
    && r.missing == [] && rules.derivedMissing(r) == {}
    && RootsComplete(rules, p)
    && rules.instant(p.finalizedAt) && rules.seals(r, p.finalizedAt) && rules.human(r)
    && rules.epochs(r, p.finalizedAt) && rules.nfrs(r)
    && ReferencesComplete(p)
  }

  predicate ReferenceVerified(verifier: Verifier, r: Receipt, ref: Reference) {
    var c := ref.claim;
    && c.issuer == verifier.ids.authority
    && c.releaseId == r.releaseId && c.runId == r.runId && c.attemptId == r.attemptId
    && c.sourceTree == r.authority.sourceTree && c.revision == r.authority.revision
    && c.requirements == r.authority.requirements && c.goals == r.authority.goals
    && c.goalsRevision == r.authority.goalsRevision && c.session == r.authority.session && c.lease == r.authority.lease
    && ref.signature != [] && verifier.verify(ForReference(verifier.ids, c), ref.signature)
  }

  predicate ConsumerPinned(trust: Trust) {
    trust.consumer == trust.authorization && trust.consumer.id != trust.ids.authority
  }

  /** Everything verification decides before it asks to consume the nonce. */
  predicate Verified(rules: Rules, trust: Trust, e: Envelope) {
    && trust.verifier.ids == trust.ids
    && ValidPayload(e.payload)
    && HeaderVerified(rules, trust.verifier, e)
    && e.ids.environment == trust.ids.environment
    && DistinctRefs(e.payload.references)
    && PayloadProven(rules, trust, e.payload)
    && (forall ref :: ref in e.payload.references ==> ReferenceVerified(trust.verifier, e.payload.receipt, ref))
    && ConsumerPinned(trust)
  }

  // ----- they agree -----

  lemma EveryReferenceVerifies(signer: Signer, verifier: Verifier, r: Receipt, issuedAt: string)
    requires References(signer, r, issuedAt, TypedEvidence(r)).Ok?
    requires Pair(signer, verifier) && signer.ids == verifier.ids
    ensures forall ref :: ref in References(signer, r, issuedAt, TypedEvidence(r)).value ==>
      ReferenceVerified(verifier, r, ref)
  {
    hide TypedEvidence, Manifest, References;
    var ts, refs := TypedEvidence(r), References(signer, r, issuedAt, TypedEvidence(r)).value;
    forall ref | ref in refs
      ensures ReferenceVerified(verifier, r, ref)
    {
      var i :| 0 <= i < |refs| && refs[i] == ref;
      ReferenceAt(signer, r, issuedAt, ts, i);
    }
  }

  lemma ReferencesAgree(rules: Rules, trust: Trust, signer: Signer, writer: Capability, r: Receipt, read: Reading)
    requires Prepared(rules, trust, signer, writer, r, read).Ok?
    ensures var p := Prepared(rules, trust, signer, writer, r, read).value;
            ReferencesComplete(p) && DistinctRefs(p.references)
            && References(signer, r, read.issuedAt, TypedEvidence(r)) == Ok(p.references)
  {
    hide TypedEvidence, Manifest, References, Declared, ExpectedTuples, ValidReceipt;
    ReferencesAreExpected(signer, r, read.issuedAt);
    ReferenceDigests(signer, r, read.issuedAt);
    PlacesDiffer(signer, r, read.issuedAt);
  }

  lemma PayloadAgrees(rules: Rules, trust: Trust, signer: Signer, writer: Capability, r: Receipt, read: Reading)
    requires Prepared(rules, trust, signer, writer, r, read).Ok?
    ensures PayloadProven(rules, trust, Prepared(rules, trust, signer, writer, r, read).value)
  {
    hide ReferencesComplete, ManifestMatches, DistinctPlaces, ReferencesFromManifest;
    ReferencesAgree(rules, trust, signer, writer, r, read);
  }

  /** Whatever finalization returns is verified under the same trust exactly when that trust's own verifier and
      consumer are the pinned ones: nothing else can make the verifier refuse what the finalizer issued. */
  lemma FinalizedVerifiesIff(rules: Rules, trust: Trust, signer: Signer, writer: Capability, r: Receipt, read: Reading)
    requires Finalize(rules, trust, signer, writer, r, read).Ok? && Pair(signer, trust.verifier)
    ensures Verified(rules, trust, Finalize(rules, trust, signer, writer, r, read).value)
            <==> trust.verifier.ids == trust.ids && trust.consumer == trust.authorization
  {
    hide ReferencesComplete, Candidate, PayloadProven, References, TypedEvidence, ReferencesFromManifest;
    PayloadAgrees(rules, trust, signer, writer, r, read);
    ReferencesAgree(rules, trust, signer, writer, r, read);
    if trust.verifier.ids == trust.ids {
      EveryReferenceVerifies(signer, trust.verifier, r, read.issuedAt);
    }
  }

  /** What a verified envelope proves about its references: they are a rearrangement of the receipt's typed evidence,
      each at its attachment, each signed for this release. */
  lemma VerifiedReferencesAreExact(rules: Rules, trust: Trust, e: Envelope, t: Typed)
    requires Verified(rules, trust, e)
    ensures t in TypedEvidence(e.payload.receipt) <==>
            exists ref :: ref in e.payload.references && ref.claim.sha == t.sha && ref.claim.kind == t.kind
  {
    SameEvidence(e.payload.receipt);
    hide ExpectedEvidence;
    hide TypedEvidence, Manifest, HeaderVerified, RootsComplete, ReferenceVerified, ValidReceipt, Declared;
    var r, refs := e.payload.receipt, e.payload.references;
    var ts, m := TypedEvidence(r), Manifest(r.attachments);
    assert ExpectedTuples(r) == Ok(TuplesOf(refs));
    if t in ts {
      assert Tuple(t.sha, t.kind, m[t.sha]) in TuplesOf(refs);
    }
    forall ref | ref in refs && ref.claim.sha == t.sha && ref.claim.kind == t.kind
      ensures t in ts
    {
      assert TupleOf(ref) in TuplesOf(refs);
    }
  }
}
