/** Which deployment evidence is accepted, and that its digest then stands for all of it (deployment_contract.py). */
module DeploymentContract {
  import opened LengthFraming
  import opened Numerals
  import opened DeploymentModels

  const STAGING := "staging"
  const PRODUCTION := "production"
  const SHA_LENGTH := 64
  const MAX_CAPTURE_AGE: Instant := 900_000_000
  const MAX_PROBE_DURATION_MS := 10_000

  /** One required control, with the only effective status of it. */
  datatype Control = Control(stableId: string, kind: string, status: string)

  /** One required denial, with the only conclusive answer to it. */
  datatype Vector = Vector(name: string, target: string, test: string, transport: string, result: string,
                           reason: string)

  /** The fixed inventories. `effective` decides whether the attributes of a control's spec meet its schema,
      given the project of a proof if there is one. */
  datatype Policy = Policy(
    contract: string, collectorId: string, collectorVersion: string,
    controls: seq<Control>, vectors: seq<Vector>, effective: (string, string, Option<string>) -> bool)

  // ----- validation -----

  predicate Hex(c: char) { '0' <= c <= '9' || 'a' <= c <= 'f' }

  predicate Sha(s: string) { |s| == SHA_LENGTH && forall c :: c in s ==> Hex(c) }

  predicate ValidChecksums(values: seq<Checksum>) {
    && values != []
    && (forall i, j :: 0 <= i < j < |values| ==> values[i].name != values[j].name)
    && (forall i :: 0 <= i < |values| ==> values[i].name != "" && Sha(values[i].sha))
  }

  function Project(proof: Option<CaptureProof>): Option<string> {
    match proof case None => None case Some(p) => Some(p.projectId)
  }

  predicate ValidResource(policy: Policy, c: Control, r: Resource, proof: Option<CaptureProof>) {
    && r.stableId == c.stableId && r.kind == c.kind
    && r.name != "" && r.uid != "" && r.spec != "" && r.status != "" && r.generation >= 1
    && Sha(r.source) && Sha(r.graph) && r.status == c.status
    && policy.effective(r.stableId, r.spec, Project(proof))
    && (proof.Some? ==> r.graph == proof.value.graph)
  }

  predicate ValidResources(policy: Policy, resources: seq<Resource>, proof: Option<CaptureProof>) {
    && |resources| == |policy.controls|
    && forall i :: 0 <= i < |resources| ==> ValidResource(policy, policy.controls[i], resources[i], proof)
  }

  predicate ProbeInSession(p: Probe, proof: CaptureProof) {
    && p.runId == proof.runId && p.clusterUid == proof.clusterUid
    && p.attemptedAt <= proof.capturedAt && proof.capturedAt - p.attemptedAt <= MAX_CAPTURE_AGE
  }

  predicate ValidProbe(notation: Notation, v: Vector, p: Probe, environment: string, proof: Option<CaptureProof>) {
    && p.vector == v.name && p.environment == environment
    && p.executor != "" && p.reason != "" && p.runId != "" && p.clusterUid != ""
    && Sha(p.target) && Sha(p.testVector) && Sha(p.raw)
    && p.target == notation.sha(Utf8(v.target)) && p.testVector == notation.sha(Utf8(v.test))
    && p.transport == v.transport && p.resultCode == v.result && p.reason == v.reason
    && 0 < p.durationMs <= MAX_PROBE_DURATION_MS
    && (proof.Some? ==> ProbeInSession(p, proof.value))
  }

  predicate ValidProbes(notation: Notation, policy: Policy, o: Observation) {
    && |o.probes| == |policy.vectors|
    && forall i :: 0 <= i < |o.probes| ==> ValidProbe(notation, policy.vectors[i], o.probes[i], o.environment, o.proof)
  }

  function WorkloadFields(p: CaptureProof): seq<string> {
    [p.projectId, p.clusterName, p.location, p.clusterUid, p.environment, p.runId, p.manifest, p.image]
  }

  predicate ProofDigests(p: CaptureProof) {
    && Sha(p.graph) && Sha(p.rawInventory) && Sha(p.rawProbe) && Sha(p.manifest) && Sha(p.image)
    && Sha(p.environmentSha) && Sha(p.control) && Sha(p.corpus) && Sha(p.input) && Sha(p.watcherReceipt)
    && Sha(p.checksumSet) && Sha(p.resourceRecords) && Sha(p.probeRecords) && Sha(p.normalized)
  }

  /** The digest of these fields can be taken and is this one. */
  predicate Digests(notation: Notation, fields: seq<string>, digest: string) {
    Framable(fields) && FieldDigest(notation, fields) == digest
  }

  predicate ProofBinds(notation: Notation, p: CaptureProof, o: Observation, e: Envelope) {
    && p.manifest == o.manifest && p.image == o.image && p.environmentSha == o.environmentSha
    && p.control == o.control && p.corpus == e.corpus && p.input == e.input
    && p.watcherReceipt == e.receipt.sha && p.watcherRegistration == e.receipt.registrationId
    && Digests(notation, Concat(ChecksumBlocks(e.gke)), p.checksumSet)
  }

  predicate ValidProof(notation: Notation, policy: Policy, p: CaptureProof, o: Observation, e: Envelope, now: Instant) {
    && p.collectorId == policy.collectorId && p.collectorVersion == policy.collectorVersion
    && p.environment == o.environment
    && p.projectId != "" && p.clusterName != "" && p.location != "" && p.clusterUid != "" && p.runId != ""
    && p.nonce != ""
    && p.capturedAt <= now && now - p.capturedAt <= MAX_CAPTURE_AGE
    && ProofDigests(p)
    && Digests(notation, WorkloadFields(p), p.graph)
    && ProofBinds(notation, p, o, e)
  }

  predicate RecordsBound(notation: Notation, p: CaptureProof, o: Observation) {
    && Digests(notation, Concat(ResourceBlocks(o.resources)), p.resourceRecords)
    && Digests(notation, Concat(ProbeRecordBlocks(notation, o.probes)), p.probeRecords)
  }

  predicate ValidObservation(notation: Notation, policy: Policy, o: Observation, e: Envelope, now: Instant) {
    && Sha(o.manifest) && Sha(o.image) && Sha(o.environmentSha) && Sha(o.control)
    && o.manifest == e.desired.manifest
    && (o.kind.Live? <==> o.proof.Some?)
    && (o.proof.Some? ==> ValidProof(notation, policy, o.proof.value, o, e, now))
    && ValidResources(policy, o.resources, o.proof)
    && ValidProbes(notation, policy, o)
    && (o.proof.Some? ==> RecordsBound(notation, o.proof.value, o))
  }

  predicate DistinctCaptures(staging: Observation, production: Observation) {
    staging.proof.Some? && production.proof.Some? ==>
      && staging.proof.value.clusterUid != production.proof.value.clusterUid
      && staging.proof.value.nonce != production.proof.value.nonce
  }

  predicate ValidPair(notation: Notation, policy: Policy, e: Envelope, now: Instant) {
    && |e.observations| == 2
    && var staging, production := e.observations[0], e.observations[1];
    && staging.environment == STAGING && production.environment == PRODUCTION
    && ValidObservation(notation, policy, staging, e, now) && ValidObservation(notation, policy, production, e, now)
    && staging.manifest == production.manifest && staging.image == production.image
    && staging.control == production.control && staging.environmentSha != production.environmentSha
    && DistinctCaptures(staging, production)
  }

  /** validate_parity_envelope raises exactly when this does not hold at the instant `now`. */
  predicate Valid(notation: Notation, policy: Policy, e: Envelope, now: Instant) {
    && e.desired.kind.Synthetic? && Sha(e.desired.manifest)
    && e.contract == policy.contract
    && Sha(e.corpus) && e.challenge != "" && Sha(e.input)
    && ValidPair(notation, policy, e, now)
    && ValidChecksums(e.local) && ValidChecksums(e.gke) && e.local == e.gke
    && e.receipt.registrationId != "" && Sha(e.receipt.sha)
    && Digests(notation, EvidenceFields(notation, e), e.evidence)
  }

  // ----- blocks of one width -----

  predicate Uniform(blocks: seq<seq<string>>, width: nat) { forall i :: 0 <= i < |blocks| ==> |blocks[i]| == width }

  lemma {:induction false} ConcatLength(blocks: seq<seq<string>>, width: nat)
    requires Uniform(blocks, width)
    ensures |Concat(blocks)| == width * |blocks|
  {
    if blocks != [] {
      ConcatLength(blocks[1..], width);
    }
  }

  lemma {:induction false} ConcatInjective(a: seq<seq<string>>, b: seq<seq<string>>, width: nat)
    requires width > 0 && Uniform(a, width) && Uniform(b, width) && Concat(a) == Concat(b)
    ensures a == b
  {
    if a == [] || b == [] {
      ConcatLength(a, width);
      ConcatLength(b, width);
      assert |a| == |b| == 0;
    } else {
      SplitEqual(a[0], Concat(a[1..]), b[0], Concat(b[1..]));
      ConcatInjective(a[1..], b[1..], width);
      assert a == [a[0]] + a[1..] && b == [b[0]] + b[1..];
    }
  }

  lemma SplitEqual<T>(a: seq<T>, restA: seq<T>, b: seq<T>, restB: seq<T>)
    requires |a| == |b| && a + restA == b + restB
    ensures a == b && restA == restB
  {
    assert a == (a + restA)[..|a|] && b == (b + restB)[..|b|];
    assert restA == (a + restA)[|a|..] && restB == (b + restB)[|b|..];
  }

  lemma Associate<T>(a: seq<T>, b: seq<T>, c: seq<T>)
    ensures a + b + c == a + (b + c)
  {}

  // ----- each record is determined by its fields -----

  lemma ResourceDetermined(a: Resource, b: Resource)
    requires ResourceFields(a) == ResourceFields(b)
    ensures a == b
  {
    var f, g := ResourceFields(a), ResourceFields(b);
    assert f[0] == g[0] && f[1] == g[1] && f[2] == g[2] && f[3] == g[3] && f[4] == g[4];
    assert f[5] == g[5] && f[6] == g[6] && f[7] == g[7] && f[8] == g[8];
    TextInjective(a.generation, b.generation);
  }

  lemma ProbeDetermined(notation: Notation, a: Probe, b: Probe)
    requires Distinguishing(notation) && ProbeFields(notation, a) == ProbeFields(notation, b)
    ensures a == b
  {
    var f, g := ProbeFields(notation, a), ProbeFields(notation, b);
    assert f[0] == g[0] && f[1] == g[1] && f[2] == g[2] && f[3] == g[3] && f[4] == g[4] && f[5] == g[5];
    assert f[6] == g[6] && f[7] == g[7] && f[8] == g[8] && f[9] == g[9] && f[10] == g[10];
    assert f[12] == g[12] && f[13] == g[13];
    TextInjective(a.durationMs, b.durationMs);
  }

  lemma ProofDetermined(notation: Notation, a: CaptureProof, b: CaptureProof)
    requires Distinguishing(notation) && ProofFields(notation, a) == ProofFields(notation, b)
    ensures a == b
  {
    var f, g := ProofFields(notation, a), ProofFields(notation, b);
    assert f[0] == g[0] && f[1] == g[1] && f[2] == g[2] && f[3] == g[3] && f[4] == g[4] && f[5] == g[5];
    assert f[6] == g[6] && f[7] == g[7] && f[8] == g[8] && f[9] == g[9] && f[10] == g[10] && f[11] == g[11];
    assert f[12] == g[12] && f[13] == g[13] && f[14] == g[14] && f[15] == g[15] && f[16] == g[16];
    assert f[17] == g[17] && f[18] == g[18] && f[19] == g[19] && f[20] == g[20] && f[21] == g[21];
    assert f[22] == g[22] && f[23] == g[23] && f[24] == g[24] && f[25] == g[25] && f[26] == g[26];
  }

  lemma ResourcesDetermined(a: seq<Resource>, b: seq<Resource>)
    requires Concat(ResourceBlocks(a)) == Concat(ResourceBlocks(b))
    ensures a == b
  {
    ConcatInjective(ResourceBlocks(a), ResourceBlocks(b), 9);
    forall i | 0 <= i < |a|
      ensures a[i] == b[i]
    {
      assert ResourceBlocks(a)[i] == ResourceBlocks(b)[i];
      ResourceDetermined(a[i], b[i]);
    }
  }

  lemma ProbesDetermined(notation: Notation, a: seq<Probe>, b: seq<Probe>)
    requires Distinguishing(notation) && Concat(ProbeBlocks(notation, a)) == Concat(ProbeBlocks(notation, b))
    ensures a == b
  {
    ConcatInjective(ProbeBlocks(notation, a), ProbeBlocks(notation, b), 14);
    forall i | 0 <= i < |a|
      ensures a[i] == b[i]
    {
      assert ProbeBlocks(notation, a)[i] == ProbeBlocks(notation, b)[i];
      ProbeDetermined(notation, a[i], b[i]);
    }
  }

  lemma ChecksumsDetermined(a: seq<Checksum>, b: seq<Checksum>)
    requires Concat(ChecksumBlocks(a)) == Concat(ChecksumBlocks(b))
    ensures a == b
  {
    ConcatInjective(ChecksumBlocks(a), ChecksumBlocks(b), 2);
    forall i | 0 <= i < |a|
      ensures a[i] == b[i]
    {
      var f, g := ChecksumBlocks(a)[i], ChecksumBlocks(b)[i];
      assert f == g && f[0] == g[0] && f[1] == g[1];
    }
  }

  // ----- one observation inside a longer list of fields -----

  /** What validation fixes about the shape of an observation. */
  predicate Shaped(policy: Policy, o: Observation) {
    && |o.resources| == |policy.controls| && |o.probes| == |policy.vectors| && (o.kind.Live? <==> o.proof.Some?)
  }

  lemma HeadDetermined(notation: Notation, a: Observation, b: Observation)
    requires Distinguishing(notation) && ObservationHead(notation, a) == ObservationHead(notation, b)
    ensures a.environment == b.environment && a.manifest == b.manifest && a.image == b.image
    ensures a.environmentSha == b.environmentSha && a.control == b.control && a.kind == b.kind
  {
    var f, g := ObservationHead(notation, a), ObservationHead(notation, b);
    assert f[0] == g[0] && f[1] == g[1] && f[2] == g[2] && f[3] == g[3] && f[4] == g[4] && f[5] == g[5];
  }

  /** Four blocks in a row, the first three of known lengths. */
  lemma SplitFour(a: seq<seq<string>>, b: seq<seq<string>>, restA: seq<string>, restB: seq<string>)
    requires |a| == |b| == 3 && |a[0]| == |b[0]| && |a[1]| == |b[1]| && |a[2]| == |b[2]|
    requires a[0] + a[1] + a[2] + restA == b[0] + b[1] + b[2] + restB
    ensures a == b && restA == restB
  {
    SplitEqual(a[0] + a[1] + a[2], restA, b[0] + b[1] + b[2], restB);
    SplitEqual(a[0] + a[1], a[2], b[0] + b[1], b[2]);
    SplitEqual(a[0], a[1], b[0], b[1]);
  }

  function Blocks(notation: Notation, o: Observation): seq<seq<string>> {
    [ObservationHead(notation, o), Concat(ResourceBlocks(o.resources)), Concat(ProbeBlocks(notation, o.probes))]
  }

  lemma BlockLengths(notation: Notation, o: Observation)
    ensures |Concat(ResourceBlocks(o.resources))| == 9 * |o.resources|
    ensures |Concat(ProbeBlocks(notation, o.probes))| == 14 * |o.probes|
  {
    ConcatLength(ResourceBlocks(o.resources), 9);
    ConcatLength(ProbeBlocks(notation, o.probes), 14);
  }

  lemma BlocksEqual(notation: Notation, a: Observation, b: Observation, restA: seq<string>, restB: seq<string>)
    requires |a.resources| == |b.resources| && |a.probes| == |b.probes|
    requires ObservationFields(notation, a) + restA == ObservationFields(notation, b) + restB
    ensures Blocks(notation, a) == Blocks(notation, b)
    ensures ProofPart(notation, a.proof) + restA == ProofPart(notation, b.proof) + restB
  {
    BlockLengths(notation, a);
    BlockLengths(notation, b);
    var f, g := Blocks(notation, a), Blocks(notation, b);
    var proofA, proofB := ProofPart(notation, a.proof), ProofPart(notation, b.proof);
    Associate(f[0] + f[1] + f[2], proofA, restA);
    Associate(g[0] + g[1] + g[2], proofB, restB);
    SplitFour(f, g, proofA + restA, proofB + restB);
  }

  lemma ProofPartDetermined(notation: Notation, a: Option<CaptureProof>, b: Option<CaptureProof>,
                            restA: seq<string>, restB: seq<string>)
    requires Distinguishing(notation) && a.Some? == b.Some?
    requires ProofPart(notation, a) + restA == ProofPart(notation, b) + restB
    ensures a == b && restA == restB
  {
    SplitEqual(ProofPart(notation, a), restA, ProofPart(notation, b), restB);
    if a.Some? {
      ProofDetermined(notation, a.value, b.value);
    }
  }

  lemma ObservationDetermined(notation: Notation, policy: Policy, a: Observation, b: Observation,
                              restA: seq<string>, restB: seq<string>)
    requires Distinguishing(notation) && Shaped(policy, a) && Shaped(policy, b)
    requires ObservationFields(notation, a) + restA == ObservationFields(notation, b) + restB
    ensures a == b && restA == restB
  {
    BlocksEqual(notation, a, b, restA, restB);
    var f, g := Blocks(notation, a), Blocks(notation, b);
    assert f[0] == g[0] && f[1] == g[1] && f[2] == g[2];
    HeadDetermined(notation, a, b);
    ResourcesDetermined(a.resources, b.resources);
    ProbesDetermined(notation, a.probes, b.probes);
    ProofPartDetermined(notation, a.proof, b.proof, restA, restB);
  }

  // ----- the whole envelope -----

  /** Everything but the observations and what follows them. */
  lemma TailDetermined(a: Envelope, b: Envelope)
    requires a.local == a.gke && b.local == b.gke
    requires Concat(ChecksumBlocks(a.local + a.gke)) + [a.receipt.registrationId, a.receipt.sha]
          == Concat(ChecksumBlocks(b.local + b.gke)) + [b.receipt.registrationId, b.receipt.sha]
    ensures a.local == b.local && a.gke == b.gke && a.receipt == b.receipt
  {
    var listA, listB := Concat(ChecksumBlocks(a.local + a.gke)), Concat(ChecksumBlocks(b.local + b.gke));
    var endA, endB := [a.receipt.registrationId, a.receipt.sha], [b.receipt.registrationId, b.receipt.sha];
    assert |listA| == |listB| by { assert |listA + endA| == |listB + endB|; }
    SplitEqual(listA, endA, listB, endB);
    assert endA[0] == endB[0] && endA[1] == endB[1];
    ChecksumsDetermined(a.local + a.gke, b.local + b.gke);
    assert |a.local| == |b.local|;
    SplitEqual(a.local, a.gke, b.local, b.gke);
  }

  function Tail(e: Envelope): seq<string> {
    Concat(ChecksumBlocks(e.local + e.gke)) + [e.receipt.registrationId, e.receipt.sha]
  }

  lemma ConcatPair(one: seq<string>, two: seq<string>)
    ensures Concat([one, two]) == one + two
  {
    assert [one, two][1..] == [two] && [two][1..] == [];
    assert Concat([two]) == two + Concat([]) == two;
  }

  lemma Regroup<T>(a: seq<T>, b: seq<T>, c: seq<T>, d: seq<T>, e: seq<T>)
    ensures a + (b + c) + d + e == a + (b + (c + (d + e)))
  {}

  lemma EvidenceUnfolds(notation: Notation, e: Envelope)
    requires |e.observations| == 2
    ensures EvidenceFields(notation, e) == EnvelopeHead(notation, e)
      + (ObservationFields(notation, e.observations[0]) + (ObservationFields(notation, e.observations[1]) + Tail(e)))
  {
    var one, two := ObservationFields(notation, e.observations[0]), ObservationFields(notation, e.observations[1]);
    assert ObservationBlocks(notation, e.observations) == [one, two];
    ConcatPair(one, two);
    Regroup(EnvelopeHead(notation, e), one, two, Concat(ChecksumBlocks(e.local + e.gke)),
            [e.receipt.registrationId, e.receipt.sha]);
  }

  /** Two envelopes that were both accepted, under the same policy and at any two instants, with the same flat list
      of evidence fields are the same envelope: validation fixes every length the list leaves out. */
  lemma FieldsDetermineTheEnvelope(notation: Notation, policy: Policy, a: Envelope, b: Envelope, s: Instant, t: Instant)
    requires Distinguishing(notation) && Valid(notation, policy, a, s) && Valid(notation, policy, b, t)
    requires EvidenceFields(notation, a) == EvidenceFields(notation, b)
    ensures a == b
  {
    EvidenceUnfolds(notation, a);
    EvidenceUnfolds(notation, b);
    EnvelopeDetermined(notation, policy, a, b);
  }

  lemma EnvelopeDetermined(notation: Notation, policy: Policy, a: Envelope, b: Envelope)
    requires Distinguishing(notation) && |a.observations| == |b.observations| == 2
    requires Shaped(policy, a.observations[0]) && Shaped(policy, a.observations[1])
    requires Shaped(policy, b.observations[0]) && Shaped(policy, b.observations[1])
    requires a.local == a.gke && b.local == b.gke && a.desired.kind == b.desired.kind
    requires EnvelopeHead(notation, a) + (ObservationFields(notation, a.observations[0])
               + (ObservationFields(notation, a.observations[1]) + Tail(a)))
          == EnvelopeHead(notation, b) + (ObservationFields(notation, b.observations[0])
               + (ObservationFields(notation, b.observations[1]) + Tail(b)))
    ensures a.(evidence := b.evidence) == b
  {
    var headA, headB := EnvelopeHead(notation, a), EnvelopeHead(notation, b);
    var oneA, oneB := ObservationFields(notation, a.observations[0]), ObservationFields(notation, b.observations[0]);
    var twoA, twoB := ObservationFields(notation, a.observations[1]), ObservationFields(notation, b.observations[1]);
    SplitEqual(headA, oneA + (twoA + Tail(a)), headB, oneB + (twoB + Tail(b)));
    assert headA[0] == headB[0] && headA[1] == headB[1] && headA[2] == headB[2] && headA[3] == headB[3];
    assert headA[4] == headB[4];
    ObservationDetermined(notation, policy, a.observations[0], b.observations[0], twoA + Tail(a), twoB + Tail(b));
    ObservationDetermined(notation, policy, a.observations[1], b.observations[1], Tail(a), Tail(b));
    TailDetermined(a, b);
    assert a.observations == b.observations;
  }

  /** The evidence digest names an accepted envelope: unless it collides, equal digests mean equal envelopes. */
  lemma DigestNamesTheEnvelope(notation: Notation, policy: Policy, a: Envelope, b: Envelope, s: Instant, t: Instant)
    requires Distinguishing(notation) && Valid(notation, policy, a, s) && Valid(notation, policy, b, t)
    requires var x, y := Framed(EvidenceFields(notation, a)), Framed(EvidenceFields(notation, b));
             notation.sha(x) == notation.sha(y) ==> x == y
    ensures a.evidence == b.evidence <==> a == b
  {
    if a.evidence == b.evidence {
      FramedInjective(EvidenceFields(notation, a), EvidenceFields(notation, b));
      FieldsDetermineTheEnvelope(notation, policy, a, b, s, t);
    }
  }
}
