/** Exactly which deployment evidence is accepted, control by control and vector by vector in both environments
    (deployment_contract.py:360-396, 452-799). */
module DeploymentAcceptance {
  import opened LengthFraming
  import opened Numerals
  import opened DeploymentModels
  import opened DeploymentContract

  const DIGITS := "0123456789abcdef"

  /** All of these are digests: 64 lower-case hexadecimal digits. */
  predicate AllDigests(xs: seq<string>) { forall x :: x in xs ==> |x| == 64 && forall c :: c in x ==> c in DIGITS }

  predicate NoneEmpty(xs: seq<string>) { "" !in xs }

  lemma HexIs(c: char)
    ensures Hex(c) <==> c in DIGITS
  {
    assert DIGITS[..10] == "0123456789" && DIGITS[10..] == "abcdef";
    assert c in DIGITS <==> c in DIGITS[..10] || c in DIGITS[10..];
  }

  lemma ShaIs(s: string)
    ensures Sha(s) <==> |s| == 64 && forall c :: c in s ==> c in DIGITS
  {
    forall c | c in s ensures Hex(c) <==> c in DIGITS { HexIs(c); }
  }

  lemma AllShas(xs: seq<string>)
    ensures AllDigests(xs) <==> forall x :: x in xs ==> Sha(x)
  {
    hide Sha;
    forall x | x in xs ensures Sha(x) <==> |x| == 64 && forall c :: c in x ==> c in DIGITS { ShaIs(x); }
  }

  // ----- controls -----

  /** The control is in force: there is evidence of it, of its kind, with its one effective status and attributes, under
      the signed workload graph if the capture is live. */
  predicate InForce(policy: Policy, c: Control, r: Resource, proof: Option<CaptureProof>) {
    && (r.stableId, r.kind, r.status) == (c.stableId, c.kind, c.status)
    && NoneEmpty([r.name, r.uid, r.spec, r.status]) && r.generation > 0 && AllDigests([r.source, r.graph])
    && match proof
       case None => policy.effective(c.stableId, r.spec, None)
       case Some(p) => policy.effective(c.stableId, r.spec, Some(p.projectId)) && r.graph == p.graph
  }

  lemma ResourceIs(policy: Policy, c: Control, r: Resource, proof: Option<CaptureProof>)
    ensures ValidResource(policy, c, r, proof) <==> InForce(policy, c, r, proof)
  {
    hide Sha, AllDigests;
    AllShas([r.source, r.graph]);
    assert forall x :: x in [r.source, r.graph] <==> x == r.source || x == r.graph;
  }

  // ----- denials -----

  /** The vector was tried, and conclusively denied, in the session of the capture if it is live. */
  predicate Denies(notation: Notation, v: Vector, p: Probe, environment: string, proof: Option<CaptureProof>) {
    && (p.vector, p.transport, p.resultCode, p.reason) == (v.name, v.transport, v.result, v.reason)
    && p.environment == environment && NoneEmpty([p.executor, p.reason, p.runId, p.clusterUid])
    && (p.target, p.testVector) == (notation.sha(Utf8(v.target)), notation.sha(Utf8(v.test)))
    && AllDigests([p.target, p.testVector, p.raw]) && 1 <= p.durationMs <= 10_000
    && match proof
       case None => true
       case Some(x) =>
         && (p.runId, p.clusterUid) == (x.runId, x.clusterUid)
         && 0 <= x.capturedAt - p.attemptedAt <= 900_000_000
  }

  lemma ProbeIs(notation: Notation, v: Vector, p: Probe, environment: string, proof: Option<CaptureProof>)
    ensures ValidProbe(notation, v, p, environment, proof) <==> Denies(notation, v, p, environment, proof)
  {
    hide Sha, AllDigests, Utf8;
    AllShas([p.target, p.testVector, p.raw]);
    assert forall x :: x in [p.target, p.testVector, p.raw] <==> x == p.target || x == p.testVector || x == p.raw;
  }

  // ----- live captures -----

  /** The proof of a live capture is the permitted collector's, complete, fresh, and binds every value of the envelope and
      its observation. */
  predicate Proves(notation: Notation, policy: Policy, p: CaptureProof, o: Observation, e: Envelope, now: Instant) {
    && (p.collectorId, p.collectorVersion, p.environment) == (policy.collectorId, policy.collectorVersion, o.environment)
    && NoneEmpty([p.projectId, p.clusterName, p.location, p.clusterUid, p.runId, p.nonce])
    && 0 <= now - p.capturedAt <= 900_000_000
    && AllDigests([p.graph, p.rawInventory, p.rawProbe, p.checksumSet, p.resourceRecords, p.probeRecords, p.normalized,
                   p.manifest, p.image, p.environmentSha, p.control, p.corpus, p.input, p.watcherReceipt])
    && (p.manifest, p.image, p.environmentSha, p.control) == (o.manifest, o.image, o.environmentSha, o.control)
    && (p.corpus, p.input, p.watcherReceipt, p.watcherRegistration)
       == (e.corpus, e.input, e.receipt.sha, e.receipt.registrationId)
    && Digests(notation, [p.projectId, p.clusterName, p.location, p.clusterUid, o.environment, p.runId, o.manifest,
                          o.image], p.graph)
    && Digests(notation, Concat(ChecksumBlocks(e.gke)), p.checksumSet)
    && Digests(notation, Concat(ResourceBlocks(o.resources)), p.resourceRecords)
    && Digests(notation, Concat(ProbeRecordBlocks(notation, o.probes)), p.probeRecords)
  }

  lemma ProofDigestsAre(p: CaptureProof)
    ensures ProofDigests(p) <==>
            AllDigests([p.graph, p.rawInventory, p.rawProbe, p.checksumSet, p.resourceRecords, p.probeRecords,
                        p.normalized, p.manifest, p.image, p.environmentSha, p.control, p.corpus, p.input,
                        p.watcherReceipt])
  {
    hide Sha, AllDigests;
    var xs := [p.graph, p.rawInventory, p.rawProbe, p.checksumSet, p.resourceRecords, p.probeRecords, p.normalized,
               p.manifest, p.image, p.environmentSha, p.control, p.corpus, p.input, p.watcherReceipt];
    AllShas(xs);
    assert xs[0] in xs && xs[1] in xs && xs[2] in xs && xs[3] in xs && xs[4] in xs && xs[5] in xs && xs[6] in xs;
    assert xs[7] in xs && xs[8] in xs && xs[9] in xs && xs[10] in xs && xs[11] in xs && xs[12] in xs && xs[13] in xs;
  }

  lemma ProofIs(notation: Notation, policy: Policy, p: CaptureProof, o: Observation, e: Envelope, now: Instant)
    ensures ValidProof(notation, policy, p, o, e, now) && RecordsBound(notation, p, o)
            <==> Proves(notation, policy, p, o, e, now)
  {
    hide ProofDigests, AllDigests, Digests, Concat, ChecksumBlocks, ResourceBlocks, ProbeRecordBlocks;
    ProofDigestsAre(p);
    assert p.environment == o.environment && p.manifest == o.manifest && p.image == o.image ==>
        WorkloadFields(p) == [p.projectId, p.clusterName, p.location, p.clusterUid, o.environment, p.runId, o.manifest,
                              o.image];
  }

  // ----- one environment -----

  /** In this environment the desired manifest runs, every required control is in force, every vector is denied, and the
      capture is live exactly when it carries a proof, which then proves all of it. */
  predicate Observed(notation: Notation, policy: Policy, environment: string, o: Observation, e: Envelope, now: Instant) {
    && o.environment == environment && o.manifest == e.desired.manifest
    && AllDigests([o.manifest, o.image, o.environmentSha, o.control])
    && |o.resources| == |policy.controls| && |o.probes| == |policy.vectors|
    && (forall i :: 0 <= i < |policy.controls| ==> InForce(policy, policy.controls[i], o.resources[i], o.proof))
    && (forall i :: 0 <= i < |policy.vectors| ==>
          Denies(notation, policy.vectors[i], o.probes[i], environment, o.proof))
    && match o.proof
       case None => o.kind == Synthetic
       case Some(p) => o.kind == Live && Proves(notation, policy, p, o, e, now)
  }

  lemma ObservationIs(notation: Notation, policy: Policy, o: Observation, e: Envelope, now: Instant)
    ensures ValidObservation(notation, policy, o, e, now) <==> Observed(notation, policy, o.environment, o, e, now)
  {
    hide Sha, AllDigests, ValidResource, InForce, ValidProbe, Denies, ValidProof, RecordsBound, Proves;
    AllShas([o.manifest, o.image, o.environmentSha, o.control]);
    var xs := [o.manifest, o.image, o.environmentSha, o.control];
    assert xs[0] in xs && xs[1] in xs && xs[2] in xs && xs[3] in xs;
    forall i | 0 <= i < |policy.controls| && |o.resources| == |policy.controls|
      ensures ValidResource(policy, policy.controls[i], o.resources[i], o.proof)
              <==> InForce(policy, policy.controls[i], o.resources[i], o.proof)
    {
      ResourceIs(policy, policy.controls[i], o.resources[i], o.proof);
    }
    forall i | 0 <= i < |policy.vectors| && |o.probes| == |policy.vectors|
      ensures ValidProbe(notation, policy.vectors[i], o.probes[i], o.environment, o.proof)
              <==> Denies(notation, policy.vectors[i], o.probes[i], o.environment, o.proof)
    {
      ProbeIs(notation, policy.vectors[i], o.probes[i], o.environment, o.proof);
    }
    if o.proof.Some? { ProofIs(notation, policy, o.proof.value, o, e, now); }
  }

  // ----- the envelope -----

  /** The two outputs are one list of distinctly named digests. */
  predicate OutputsAgree(local: seq<Checksum>, gke: seq<Checksum>) {
    && local == gke && |gke| > 0
    && forall i :: 0 <= i < |gke| ==>
         |gke[i].name| > 0 && AllDigests([gke[i].sha]) && forall j :: 0 <= j < i ==> gke[j].name != gke[i].name
  }

  lemma OutputsAre(local: seq<Checksum>, gke: seq<Checksum>)
    ensures ValidChecksums(local) && ValidChecksums(gke) && local == gke <==> OutputsAgree(local, gke)
  {
    hide Sha, AllDigests;
    forall i | 0 <= i < |gke| ensures AllDigests([gke[i].sha]) <==> Sha(gke[i].sha) {
      AllShas([gke[i].sha]);
      assert forall x :: x in [gke[i].sha] <==> x == gke[i].sha;
    }
  }

  /** Staging and production run the same thing under the same controls in different environments and, if both captures
      are live, on different clusters. */
  predicate Parity(staging: Observation, production: Observation) {
    && (staging.manifest, staging.image, staging.control) == (production.manifest, production.image, production.control)
    && staging.environmentSha != production.environmentSha
    && (staging.kind == production.kind == Live ==>
          staging.proof.Some? && production.proof.Some?
          && staging.proof.value.clusterUid != production.proof.value.clusterUid
          && staging.proof.value.nonce != production.proof.value.nonce)
  }

  /** The envelope is for this contract, answers a challenge, and its digest covers all of it. */
  predicate Sealed(notation: Notation, policy: Policy, e: Envelope) {
    && e.desired.kind == Synthetic && e.contract == policy.contract
    && NoneEmpty([e.challenge, e.receipt.registrationId])
    && AllDigests([e.desired.manifest, e.corpus, e.input, e.receipt.sha])
    && Digests(notation, EvidenceFields(notation, e), e.evidence)
  }

  lemma SealedIs(notation: Notation, policy: Policy, e: Envelope)
    ensures Sealed(notation, policy, e) <==>
            && e.desired.kind.Synthetic? && Sha(e.desired.manifest) && e.contract == policy.contract
            && Sha(e.corpus) && e.challenge != "" && Sha(e.input)
            && e.receipt.registrationId != "" && Sha(e.receipt.sha)
            && Digests(notation, EvidenceFields(notation, e), e.evidence)
  {
    hide Sha, AllDigests, Digests, EvidenceFields;
    var xs := [e.desired.manifest, e.corpus, e.input, e.receipt.sha];
    AllShas(xs);
    assert xs[0] in xs && xs[1] in xs && xs[2] in xs && xs[3] in xs;
  }

  /** An envelope is accepted if and only if it is sealed for this contract; there is one observation of staging and then
      one of production, in each of which every control is in force and every vector denied; the two are in parity; and
      the local and the observed outputs agree. */
  lemma AcceptedIff(notation: Notation, policy: Policy, e: Envelope, now: Instant)
    ensures Valid(notation, policy, e, now) <==>
            && Sealed(notation, policy, e) && |e.observations| == 2
            && Observed(notation, policy, "staging", e.observations[0], e, now)
            && Observed(notation, policy, "production", e.observations[1], e, now)
            && Parity(e.observations[0], e.observations[1]) && OutputsAgree(e.local, e.gke)
  {
    hide Sha, AllDigests, Digests, EvidenceFields, ValidChecksums, Sealed, OutputsAgree, ValidResources, ValidProbes,
      ValidProof, RecordsBound, InForce, Denies, Proves;
    SealedIs(notation, policy, e);
    OutputsAre(e.local, e.gke);
    if |e.observations| == 2 {
      ObservationIs(notation, policy, e.observations[0], e, now);
      ObservationIs(notation, policy, e.observations[1], e, now);
    }
  }

  /** What an accepted envelope proves of the two environments together: each required control is in force, and each
      required vector denied, in both; under one manifest, one image and one inventory of controls. */
  lemma AcceptedMeansParity(notation: Notation, policy: Policy, e: Envelope, now: Instant)
    requires Valid(notation, policy, e, now)
    ensures
      |e.observations| == 2 &&
      var s, p := e.observations[0], e.observations[1];
      && s.manifest == p.manifest == e.desired.manifest && s.image == p.image && s.control == p.control
      && s.environment != p.environment && s.environmentSha != p.environmentSha
      && (forall c :: c in policy.controls ==>
            exists i :: 0 <= i < |s.resources| && i < |p.resources|
              && InForce(policy, c, s.resources[i], s.proof) && InForce(policy, c, p.resources[i], p.proof))
      && (forall v :: v in policy.vectors ==>
            exists i :: 0 <= i < |s.probes| && i < |p.probes|
              && Denies(notation, v, s.probes[i], s.environment, s.proof)
              && Denies(notation, v, p.probes[i], p.environment, p.proof))
  {
    hide Valid, Sealed, OutputsAgree, InForce, Denies, Proves, AllDigests;
    AcceptedIff(notation, policy, e, now);
    var s, p := e.observations[0], e.observations[1];
    forall c | c in policy.controls
      ensures exists i :: 0 <= i < |s.resources| && i < |p.resources|
                && InForce(policy, c, s.resources[i], s.proof) && InForce(policy, c, p.resources[i], p.proof)
    {
      var i :| 0 <= i < |policy.controls| && policy.controls[i] == c;
      assert InForce(policy, policy.controls[i], s.resources[i], s.proof);
      assert InForce(policy, policy.controls[i], p.resources[i], p.proof);
    }
    forall v | v in policy.vectors
      ensures exists i :: 0 <= i < |s.probes| && i < |p.probes|
                && Denies(notation, v, s.probes[i], s.environment, s.proof)
                && Denies(notation, v, p.probes[i], p.environment, p.proof)
    {
      var i :| 0 <= i < |policy.vectors| && policy.vectors[i] == v;
      assert Denies(notation, policy.vectors[i], s.probes[i], s.environment, s.proof);
      assert Denies(notation, policy.vectors[i], p.probes[i], p.environment, p.proof);
    }
  }
}
