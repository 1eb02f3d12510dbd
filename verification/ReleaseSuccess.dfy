/** Exactly when a release is finalized, and what its envelope then says (release_contract.py:2157-2317, 2547-2792). */
module ReleaseSuccess {
  import opened ReleaseModels
  import opened ReleaseReferences
  import opened ReleaseFinalization
  import opened ReleaseIssuance

  /** The files found under the evidence root are the attachments, each at its own path with its digest. */
  ghost predicate FilesAreAttachments(r: Receipt, evidence: map<string, Sha>) {
    && (forall path :: path in evidence ==> exists a :: a in r.attachments && a == Attachment(path, evidence[path]))
    && (forall a :: a in r.attachments ==> a.path in evidence && evidence[a.path] == a.sha)
    && DistinctPaths(r.attachments)
  }

  function PathsOf(attachments: seq<Attachment>): set<string> { set a | a in attachments :: a.path }

  lemma {:induction false} PathsCount(attachments: seq<Attachment>)
    requires DistinctPaths(attachments)
    ensures |PathsOf(attachments)| == |attachments|
  {
    if attachments != [] {
      var front, last := attachments[..|attachments| - 1], attachments[|attachments| - 1];
      PathsCount(front);
      assert attachments == front + [last];
      assert PathsOf(attachments) == PathsOf(front) + {last.path};
      assert last.path !in PathsOf(front);
    }
  }

  lemma SubsetOfSize<T>(a: set<T>, b: set<T>)
    requires a <= b && |a| == |b|
    ensures a == b
  {
    if a != b {
      var x :| x in b && x !in a;
      SubsetCount(a, b - {x});
    }
  }

  lemma {:induction false} SubsetCount<T>(a: set<T>, b: set<T>)
    requires a <= b
    ensures |a| <= |b|
    decreases |a|
  {
    if a != {} {
      var x :| x in a;
      SubsetCount(a - {x}, b - {x});
    }
  }

  lemma FilesCounted(r: Receipt, evidence: map<string, Sha>)
    requires DistinctPaths(r.attachments)
    requires forall a :: a in r.attachments ==> a.path in evidence && evidence[a.path] == a.sha
    ensures FilesAreAttachments(r, evidence) <==> |evidence| == |r.attachments|
  {
    var paths := PathsOf(r.attachments);
    PathsCount(r.attachments);
    assert paths <= evidence.Keys && |evidence.Keys| == |evidence|;
    if |evidence| == |r.attachments| {
      SubsetOfSize(paths, evidence.Keys);
      forall path | path in evidence ensures exists a :: a in r.attachments && a == Attachment(path, evidence[path]) {
        assert path in paths;
        var a :| a in r.attachments && a.path == path;
        assert a == Attachment(path, evidence[path]);
      }
    }
    if FilesAreAttachments(r, evidence) {
      assert paths == evidence.Keys;
    }
  }

  /** Every digest the receipt names is that of an attachment. */
  predicate AllAttached(r: Receipt) {
    forall t :: t in TypedEvidence(r) ==> exists a :: a in r.attachments && a.sha == t.sha
  }

  /** The receipt's inputs are the files that were read. */
  predicate InputsRead(r: Receipt, i: Inputs) {
    var a := r.authority;
    && [Some(a.requirements), Some(a.goals), a.catalog, a.dependency, a.fixture, a.toolchain, a.revisionAnchor,
        r.externalAnchor]
       == [Some(i.requirements), Some(i.goals), Some(i.catalog), Some(i.dependency), Some(i.fixture),
           Some(i.toolchain), Some(i.revisionAnchor), Some(i.externalAnchor)]
  }

  /** Both looks at the topology found the one state that the receipt names before and after its run. */
  predicate TopologyHeld(r: Receipt, read: Reading) {
    var s, x := read.before, r.siblings;
    && read.after == s && r.authority.sourceTree == x.sciencePre == x.sciencePost == s.science
    && x.drylabPre == x.drylabPost == s.drylab && x.ontologyPre == x.ontologyPost == s.ontology
  }

  predicate LeaseHeld(trust: Trust, r: Receipt, lease: Lease) {
    && (lease.session, lease.revision) == (trust.session, trust.lease)
       == (r.authority.session, r.authority.lease)
    && lease.revision != ""
  }

  predicate IssuerPinned(trust: Trust, signer: Signer, writer: Capability) {
    signer.ids == trust.ids && writer == trust.authorization && writer.id != trust.ids.authority
  }

  /** What the shared checks and the finalizer's own say of the receipt at the instant of issuing. */
  predicate Attestable(rules: Rules, r: Receipt, read: Reading) {
    && rules.instant(read.issuedAt) && rules.seals(r, read.issuedAt) && rules.human(r)
    && rules.epochs(r, read.issuedAt) && rules.nfrs(r) && rules.candidate(r, read.issuedAt, read.before)
    && r.missing == [] && rules.derivedMissing(r) == {} && r.incomplete && !r.authority.dirty
    && 16 <= |read.nonce|
  }

  lemma {:induction false} ManifestHas(attachments: seq<Attachment>, sha: Sha)
    ensures sha in Manifest(attachments) <==> exists a :: a in attachments && a.sha == sha
  {
    if attachments != [] {
      var front, last := attachments[..|attachments| - 1], attachments[|attachments| - 1];
      ManifestHas(front, sha);
      assert attachments == front + [last];
    }
  }

  /** The claim made for the piece of evidence. */
  function ClaimOf(signer: Signer, r: Receipt, issuedAt: string, t: Typed): Claim
    requires t.sha in Manifest(r.attachments)
  {
    ClaimFor(r, t, Manifest(r.attachments)[t.sha], signer.ids.authority, issuedAt)
  }

  /** The signer answers for every claim that has to be made. */
  predicate SignsAll(signer: Signer, r: Receipt, issuedAt: string, ts: seq<Typed>) {
    forall i :: 0 <= i < |ts| && ts[i].sha in Manifest(r.attachments) ==>
      signer.sign(ForReference(signer.ids, ClaimOf(signer, r, issuedAt, ts[i]))) != []
  }

  lemma {:induction false} ReferencesMade(signer: Signer, r: Receipt, issuedAt: string, ts: seq<Typed>)
    ensures References(signer, r, issuedAt, ts).Ok? <==>
              (forall i :: 0 <= i < |ts| ==> ts[i].sha in Manifest(r.attachments)) && SignsAll(signer, r, issuedAt, ts)
  {
    hide Manifest;
    if ts != [] {
      var front, last := ts[..|ts| - 1], ts[|ts| - 1];
      ReferencesMade(signer, r, issuedAt, front);
      assert forall i :: 0 <= i < |front| ==> front[i] == ts[i];
    }
  }

  /** There are as many digests as pieces of evidence. */
  predicate NamedOnce(ts: seq<Typed>) { |ShasOf(ts)| == |ts| }

  lemma OneMore(front: seq<Typed>, last: Typed)
    ensures DistinctShas(front + [last]) <==> DistinctShas(front) && last.sha !in ShasOf(front)
  {
    var ts := front + [last];
    assert forall i :: 0 <= i < |front| ==> ts[i] == front[i];
    if last.sha in ShasOf(front) {
      var i :| 0 <= i < |front| && front[i].sha == last.sha;
      assert ts[i].sha == ts[|front|].sha;
    }
  }

  lemma {:induction false} NamedOnceIff(ts: seq<Typed>)
    ensures NamedOnce(ts) <==> DistinctShas(ts)
    ensures |ShasOf(ts)| <= |ts|
  {
    if ts != [] {
      var front, last := ts[..|ts| - 1], ts[|ts| - 1];
      NamedOnceIff(front);
      assert ts == front + [last];
      assert ShasOf(ts) == ShasOf(front) + {last.sha};
      OneMore(front, last);
      hide ShasOf, DistinctShas;
    }
  }

  /** The evidence names no digest twice, each of its digests is attached, and the signer answers for each. */
  predicate EvidenceReady(signer: Signer, r: Receipt, issuedAt: string) {
    && TypedEvidence(r) != [] && NamedOnce(TypedEvidence(r)) && AllAttached(r)
    && SignsAll(signer, r, issuedAt, TypedEvidence(r))
  }

  lemma AttachedAre(r: Receipt)
    ensures AllAttached(r) <==> forall i :: 0 <= i < |TypedEvidence(r)| ==> TypedEvidence(r)[i].sha in Manifest(r.attachments)
    ensures AllAttached(r) <==> forall d :: d in Declared(r) ==> exists a :: a in r.attachments && a.sha == d
  {
    hide TypedEvidence, Manifest, Declared;
    var ts := TypedEvidence(r);
    forall t | t in ts ensures t.sha in Manifest(r.attachments) <==> exists a :: a in r.attachments && a.sha == t.sha {
      ManifestHas(r.attachments, t.sha);
    }
    TypedAreDeclared(r);
    assert forall i :: 0 <= i < |ts| ==> ts[i] in ts;
    forall t | t in ts ensures t.sha in Declared(r) {
      assert t.sha in ShasOf(ts);
    }
    forall d | d in Declared(r) ensures exists t :: t in ts && t.sha == d {
      assert d in ShasOf(ts);
    }
  }

  lemma ManifestReady(r: Receipt, evidence: map<string, Sha>)
    requires AllAttached(r) && TypedEvidence(r) != []
    ensures ManifestMatches(r, evidence) <==> FilesAreAttachments(r, evidence)
  {
    hide TypedEvidence, Declared;
    AttachedAre(r);
    assert TypedEvidence(r)[0] in TypedEvidence(r);
    if DistinctPaths(r.attachments)
       && forall a :: a in r.attachments ==> a.path in evidence && evidence[a.path] == a.sha {
      FilesCounted(r, evidence);
    }
  }

  lemma ReferencesReady(rules: Rules, signer: Signer, r: Receipt, issuedAt: string)
    requires rules.instant(issuedAt)
    ensures ReferencesFromManifest(rules, signer, r, issuedAt).Ok? && TypedEvidence(r) != []
            <==> EvidenceReady(signer, r, issuedAt)
    ensures ReferencesFromManifest(rules, signer, r, issuedAt).Ok? ==>
              |ReferencesFromManifest(rules, signer, r, issuedAt).value| == |TypedEvidence(r)|
  {
    hide TypedEvidence, Manifest, SignsAll;
    hide NamedOnce, DistinctShas;
    ReferencesMade(signer, r, issuedAt, TypedEvidence(r));
    NamedOnceIff(TypedEvidence(r));
    AttachedAre(r);
  }

  /** The checks of a candidate, regrouped. */
  lemma CandidateIs(rules: Rules, trust: Trust, r: Receipt, read: Reading)
    requires read.before == read.after && 16 <= |read.nonce| && rules.instant(read.issuedAt)
    ensures ValidReceipt(r) && Candidate(rules, r, read) <==>
            && ControlsPart(rules, r) && TopologyHeld(r, read) && InputsRead(r, read.resolved)
            && ManifestMatches(r, read.evidence) && Attestable(rules, r, read)
  {
    hide ManifestMatches, ControlIds;
  }

  /** What the finalizer checks of the controls. */
  predicate ControlsPart(rules: Rules, r: Receipt) {
    && (forall c :: c in r.controls ==> c.argv != [] && (c.success ==> c.exitCode == Some(0)))
    && (forall i, j :: 0 <= i < j < |r.controls| ==> r.controls[i].controlId != r.controls[j].controlId)
    && ControlsPassed(rules, r)
  }

  lemma ControlsPartIs(rules: Rules, r: Receipt)
    ensures ControlsPart(rules, r) <==> AllPassed(rules, r)
  {
    hide AllPassed;
    if ControlsPart(rules, r) {
      assert ControlsChecked(rules, r);
      CheckedPassed(rules, r);
    }
    if AllPassed(rules, r) {
      PassedChecked(rules, r);
      assert ControlsChecked(rules, r);
    }
  }

  /** The signer answers for the payload as well. */
  predicate SignsEnvelope(rules: Rules, signer: Signer, p: Payload) {
    signer.sign(ForEnvelope(rules.payloadSha(p), signer.ids)) != []
  }

  /** A release is prepared for its signature if and only if: the issuer is the pinned one and not the writer; the lease
      is held in the pinned session; every job passed, once; both looks at the topology found the state that the receipt
      names; the inputs are the files read; the files found are the attachments; the evidence is attached, named once
      and signed; and the shared and the finalizer's own checks hold. */
  lemma PreparesIff(rules: Rules, trust: Trust, signer: Signer, writer: Capability, r: Receipt, read: Reading)
    ensures Prepared(rules, trust, signer, writer, r, read).Ok? <==>
            && IssuerPinned(trust, signer, writer) && LeaseHeld(trust, r, read.lease)
            && AllPassed(rules, r) && TopologyHeld(r, read) && InputsRead(r, read.resolved)
            && FilesAreAttachments(r, read.evidence) && EvidenceReady(signer, r, read.issuedAt)
            && Attestable(rules, r, read)
  {
    hide AllPassed, ControlsPart, InputsRead, ManifestMatches, FilesAreAttachments, EvidenceReady, TypedEvidence,
      ReferencesFromManifest, ValidReceipt, Candidate;
    ControlsPartIs(rules, r);
    if read.before == read.after && 16 <= |read.nonce| && rules.instant(read.issuedAt) {
      CandidateIs(rules, trust, r, read);
      ReferencesReady(rules, signer, r, read.issuedAt);
      ReadyFiles(signer, r, read);
      if ReferencesFromManifest(rules, signer, r, read.issuedAt).Ok? && ManifestMatches(r, read.evidence) {
        PlacesOf(rules, signer, r, read);
      }
    }
  }

  lemma ReadyFiles(signer: Signer, r: Receipt, read: Reading)
    ensures EvidenceReady(signer, r, read.issuedAt) ==>
              (ManifestMatches(r, read.evidence) <==> FilesAreAttachments(r, read.evidence))
  {
    hide TypedEvidence, SignsAll, ManifestMatches, FilesAreAttachments;
    if EvidenceReady(signer, r, read.issuedAt) { ManifestReady(r, read.evidence); }
  }

  lemma PlacesOf(rules: Rules, signer: Signer, r: Receipt, read: Reading)
    requires ReferencesFromManifest(rules, signer, r, read.issuedAt).Ok? && ManifestMatches(r, read.evidence)
    ensures DistinctPlaces(ReferencesFromManifest(rules, signer, r, read.issuedAt).value)
  {
    hide TypedEvidence, References;
    PlacesDiffer(signer, r, read.issuedAt);
  }

  /** A prepared release yields an envelope exactly when the signer answers for it; the envelope is the signer's and says
      this receipt, this session and lease, the instant and the nonce that were read, and the roots of the second look. */
  lemma FinalizesIff(rules: Rules, trust: Trust, signer: Signer, writer: Capability, r: Receipt, read: Reading)
    ensures
      var prepared, out := Prepared(rules, trust, signer, writer, r, read),
                           Finalize(rules, trust, signer, writer, r, read);
      && (out.Ok? <==> prepared.Ok? && SignsEnvelope(rules, signer, prepared.value))
      && (out.Ok? ==>
            var e := out.value;
            && e.payload == prepared.value && e.ids == trust.ids && e.payload.receipt == r
            && (e.payload.session, e.payload.lease) == (trust.session, trust.lease)
            && e.payload.finalizedAt == read.issuedAt && e.payload.nonce == read.nonce
            && (e.payload.science, e.payload.drylab, e.payload.ontology, e.payload.evidence)
               == (read.after.science, read.after.drylab, read.after.ontology, read.after.evidence)
            && e.payloadSha == rules.payloadSha(e.payload)
            && e.signature == signer.sign(ForEnvelope(e.payloadSha, e.ids)))
  {
    hide Candidate, ReferencesFromManifest, ValidReceipt, ValidPayload;
  }
}
