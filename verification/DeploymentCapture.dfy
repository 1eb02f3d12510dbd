/** A live observation is exactly the conversion of the capture its proof came from (deployment_capture.py:150-235,
    deployment_contract.py:292-336, 603-645). */
module DeploymentCapture {
  import opened LengthFraming
  import opened Numerals
  import opened DeploymentModels
  import opened DeploymentContract

  // ----- conversion -----

  function ConvertResource(r: CapturedResource): Resource {
    Resource(r.stableId, r.kind, r.name, r.uid, r.generation, r.spec, r.status, r.graph, r.source)
  }

  function ConvertProbe(proof: CaptureProof, p: CapturedProbe): Probe {
    Probe(p.vector, proof.environment, proof.runId, proof.clusterUid, p.attemptedAt, p.executor, p.target,
          p.testVector, p.transport, p.resultCode, p.durationMs, Denied, p.reason, p.raw)
  }

  function ConvertResources(rs: seq<CapturedResource>): seq<Resource> {
    seq(|rs|, i requires 0 <= i < |rs| => ConvertResource(rs[i]))
  }

  function ConvertProbes(proof: CaptureProof, ps: seq<CapturedProbe>): seq<Probe> {
    seq(|ps|, i requires 0 <= i < |ps| => ConvertProbe(proof, ps[i]))
  }

  predicate AllDenied(ps: seq<CapturedProbe>) { forall i :: 0 <= i < |ps| ==> ps[i].outcome == DENIED }

  /** An outcome other than a denial cannot be represented, and the conversion raises. */
  function ObservationFromCapture(c: LiveCapture): Result<Observation> {
    if !AllDenied(c.probes) then Err
    else Ok(Observation(c.proof.environment, c.proof.manifest, c.proof.image, c.proof.environmentSha, c.proof.control,
                        ConvertResources(c.resources), ConvertProbes(c.proof, c.probes), Some(c.proof), Live))
  }

  /** What the collector's parser seals into the proof it builds. */
  predicate Sealed(notation: Notation, c: LiveCapture) {
    && Digests(notation, Concat(CapturedResourceBlocks(c.resources)), c.proof.resourceRecords)
    && Digests(notation, Concat(CapturedProbeBlocks(notation, c.probes)), c.proof.probeRecords)
  }

  // ----- the two flattenings agree -----

  lemma ConvertedBlocks(notation: Notation, c: LiveCapture)
    ensures ResourceBlocks(ConvertResources(c.resources)) == CapturedResourceBlocks(c.resources)
    ensures AllDenied(c.probes) ==>
      ProbeRecordBlocks(notation, ConvertProbes(c.proof, c.probes)) == CapturedProbeBlocks(notation, c.probes)
  {}

  lemma ResourcesSealed(a: seq<Resource>, b: seq<CapturedResource>)
    requires Concat(ResourceBlocks(a)) == Concat(CapturedResourceBlocks(b))
    ensures a == ConvertResources(b)
  {
    var c := ConvertResources(b);
    assert ResourceBlocks(c) == CapturedResourceBlocks(b);
    ResourcesDetermined(a, c);
  }

  lemma RecordDetermined(notation: Notation, p: Probe, q: CapturedProbe)
    requires Distinguishing(notation) && ProbeRecordFields(notation, p) == CapturedProbeFields(notation, q)
    ensures p.vector == q.vector && p.attemptedAt == q.attemptedAt && p.executor == q.executor
    ensures p.target == q.target && p.testVector == q.testVector && p.transport == q.transport
    ensures p.resultCode == q.resultCode && p.durationMs == q.durationMs && p.reason == q.reason && p.raw == q.raw
    ensures q.outcome == DENIED
  {
    var f, g := ProbeRecordFields(notation, p), CapturedProbeFields(notation, q);
    assert f[0] == g[0] && f[1] == g[1] && f[2] == g[2] && f[3] == g[3] && f[4] == g[4] && f[5] == g[5];
    assert f[6] == g[6] && f[7] == g[7] && f[8] == g[8] && f[9] == g[9] && f[10] == g[10];
    TextInjective(p.durationMs, q.durationMs);
  }

  /** Sealed records say nothing of a probe's environment, run and cluster; validation takes these from the proof. */
  lemma ProbesSealed(notation: Notation, a: seq<Probe>, b: seq<CapturedProbe>, proof: CaptureProof)
    requires Distinguishing(notation)
    requires forall i :: 0 <= i < |a| ==>
      a[i].environment == proof.environment && a[i].runId == proof.runId && a[i].clusterUid == proof.clusterUid
    requires Concat(ProbeRecordBlocks(notation, a)) == Concat(CapturedProbeBlocks(notation, b))
    ensures AllDenied(b) && a == ConvertProbes(proof, b)
  {
    ConcatInjective(ProbeRecordBlocks(notation, a), CapturedProbeBlocks(notation, b), 11);
    assert |a| == |ProbeRecordBlocks(notation, a)| == |b|;
    forall i | 0 <= i < |a|
      ensures a[i] == ConvertProbe(proof, b[i]) && b[i].outcome == DENIED
    {
      assert ProbeRecordBlocks(notation, a)[i] == CapturedProbeBlocks(notation, b)[i];
      RecordDetermined(notation, a[i], b[i]);
    }
  }

  // ----- both directions -----

  /** The digests of these two lists of fields do not collide. */
  predicate Apart(notation: Notation, x: seq<string>, y: seq<string>) {
    notation.sha(Framed(x)) == notation.sha(Framed(y)) ==> Framed(x) == Framed(y)
  }

  lemma DigestsAgree(notation: Notation, x: seq<string>, y: seq<string>, digest: string)
    requires Digests(notation, x, digest) && Digests(notation, y, digest) && Apart(notation, x, y)
    ensures x == y
  {
    FramedInjective(x, y);
  }

  /** Nothing in an accepted live observation can differ from the capture whose proof it carries: not a resource, a
      probe, a label or an order. The only hypothesis is that two digests do not collide. */
  lemma LiveObservationIsTheCapture(
      notation: Notation, policy: Policy, o: Observation, e: Envelope, now: Instant, c: LiveCapture)
    requires Distinguishing(notation) && ValidObservation(notation, policy, o, e, now)
    requires o.proof == Some(c.proof) && Sealed(notation, c)
    requires Apart(notation, Concat(ResourceBlocks(o.resources)), Concat(CapturedResourceBlocks(c.resources)))
    requires Apart(notation, Concat(ProbeRecordBlocks(notation, o.probes)),
        Concat(CapturedProbeBlocks(notation, c.probes)))
    ensures ObservationFromCapture(c) == Ok(o)
  {
    DigestsAgree(notation, Concat(ResourceBlocks(o.resources)), Concat(CapturedResourceBlocks(c.resources)),
                 c.proof.resourceRecords);
    ResourcesSealed(o.resources, c.resources);
    DigestsAgree(notation, Concat(ProbeRecordBlocks(notation, o.probes)),
        Concat(CapturedProbeBlocks(notation, c.probes)),
                 c.proof.probeRecords);
    forall i | 0 <= i < |o.probes|
      ensures o.probes[i].environment == c.proof.environment
      ensures o.probes[i].runId == c.proof.runId && o.probes[i].clusterUid == c.proof.clusterUid
    {
      assert ValidProbe(notation, policy.vectors[i], o.probes[i], o.environment, o.proof);
    }
    ProbesSealed(notation, o.probes, c.probes, c.proof);
  }

  /** A converted capture always meets the record binding, so the contract and the collector flatten alike; and it
      converts exactly when every probe it recorded was a denial. */
  lemma ConvertedCaptureIsBound(notation: Notation, c: LiveCapture)
    requires Sealed(notation, c)
    ensures ObservationFromCapture(c).Ok? <==> AllDenied(c.probes)
    ensures ObservationFromCapture(c).Ok? ==> RecordsBound(notation, c.proof, ObservationFromCapture(c).value)
  {
    ConvertedBlocks(notation, c);
  }

  // ----- what a signature covers -----

  lemma CapturedResourcesDetermined(a: seq<CapturedResource>, b: seq<CapturedResource>)
    requires Concat(CapturedResourceBlocks(a)) == Concat(CapturedResourceBlocks(b))
    ensures a == b
  {
    assert ResourceBlocks(ConvertResources(a)) == CapturedResourceBlocks(a);
    ResourcesSealed(ConvertResources(a), b);
    forall i | 0 <= i < |a|
      ensures a[i] == b[i]
    {
      assert ConvertResources(a)[i] == ConvertResources(b)[i];
    }
  }

  lemma CapturedProbeDetermined(notation: Notation, p: CapturedProbe, q: CapturedProbe)
    requires Distinguishing(notation) && CapturedProbeFields(notation, p) == CapturedProbeFields(notation, q)
    ensures p == q
  {
    var f, g := CapturedProbeFields(notation, p), CapturedProbeFields(notation, q);
    assert f[0] == g[0] && f[1] == g[1] && f[2] == g[2] && f[3] == g[3] && f[4] == g[4] && f[5] == g[5];
    assert f[6] == g[6] && f[7] == g[7] && f[8] == g[8] && f[9] == g[9] && f[10] == g[10];
    TextInjective(p.durationMs, q.durationMs);
  }

  lemma CapturedProbesDetermined(notation: Notation, a: seq<CapturedProbe>, b: seq<CapturedProbe>)
    requires Distinguishing(notation)
    requires Concat(CapturedProbeBlocks(notation, a)) == Concat(CapturedProbeBlocks(notation, b))
    ensures a == b
  {
    hide CapturedProbeFields;
    CapturedWidth(notation, a);
    CapturedWidth(notation, b);
    ConcatInjective(CapturedProbeBlocks(notation, a), CapturedProbeBlocks(notation, b), 11);
    forall i | 0 <= i < |a|
      ensures a[i] == b[i]
    {
      assert CapturedProbeBlocks(notation, a)[i] == CapturedProbeBlocks(notation, b)[i];
      CapturedProbeDetermined(notation, a[i], b[i]);
    }
  }

  lemma CapturedWidth(notation: Notation, ps: seq<CapturedProbe>)
    ensures Uniform(CapturedProbeBlocks(notation, ps), 11)
  {}

  /** What is signed is everything in a proof but its signature. */
  lemma SignedProof(notation: Notation, p: CaptureProof, q: CaptureProof)
    requires Distinguishing(notation)
    requires Framable(SignedFields(notation, p)) && Framable(SignedFields(notation, q))
    requires Framed(SignedFields(notation, p)) == Framed(SignedFields(notation, q))
    ensures p == q.(attestation := p.attestation)
  {
    FramedInjective(SignedFields(notation, p), SignedFields(notation, q));
    var r := q.(attestation := p.attestation);
    assert ProofFields(notation, p) == SignedFields(notation, p) + [p.attestation];
    assert ProofFields(notation, r) == SignedFields(notation, r) + [r.attestation];
    ProofDetermined(notation, p, r);
  }

  /** One signature stands for one capture: two captures whose proofs have the same signed bytes are the same down to
      every resource, every probe and their order, but for the signature. */
  lemma SignedPayloadNamesTheCapture(notation: Notation, a: LiveCapture, b: LiveCapture)
    requires Distinguishing(notation) && Sealed(notation, a) && Sealed(notation, b)
    requires Framable(SignedFields(notation, a.proof)) && Framable(SignedFields(notation, b.proof))
    requires Framed(SignedFields(notation, a.proof)) == Framed(SignedFields(notation, b.proof))
    requires Apart(notation, Concat(CapturedResourceBlocks(a.resources)), Concat(CapturedResourceBlocks(b.resources)))
    requires Apart(notation, Concat(CapturedProbeBlocks(notation, a.probes)),
                   Concat(CapturedProbeBlocks(notation, b.probes)))
    ensures a == b.(proof := b.proof.(attestation := a.proof.attestation))
  {
    hide SignedFields, Framable, Framed, Apart, Digests;
    SignedProof(notation, a.proof, b.proof);
    DigestsAgree(notation, Concat(CapturedResourceBlocks(a.resources)), Concat(CapturedResourceBlocks(b.resources)),
                 a.proof.resourceRecords);
    CapturedResourcesDetermined(a.resources, b.resources);
    DigestsAgree(notation, Concat(CapturedProbeBlocks(notation, a.probes)),
                 Concat(CapturedProbeBlocks(notation, b.probes)), a.proof.probeRecords);
    CapturedProbesDetermined(notation, a.probes, b.probes);
  }

  // ----- what validation is needed for -----

  /** Without the comparison of the two checksum lists the flat list is ambiguous, even when each list is valid: an
      entry can move from the end of the local list to the start of the other. */
  lemma ComparisonIsNeeded(notation: Notation, e: Envelope, c: Checksum, d: Checksum, f: Checksum)
    requires ValidChecksums([c, d, f])
    ensures var a, b := e.(local := [c], gke := [d, f]), e.(local := [c, d], gke := [f]);
            && a != b && EvidenceFields(notation, a) == EvidenceFields(notation, b)
            && ValidChecksums(a.local) && ValidChecksums(a.gke) && ValidChecksums(b.local) && ValidChecksums(b.gke)
  {
    hide ObservationBlocks, Concat, ChecksumBlocks;
    var a, b := e.(local := [c], gke := [d, f]), e.(local := [c, d], gke := [f]);
    var all := [c, d, f];
    assert a.local + a.gke == all == b.local + b.gke;
    assert all[0] == c && all[1] == d && all[2] == f;
    assert |a.local| == 1 && |b.local| == 2;
  }
}
