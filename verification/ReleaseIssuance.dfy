/** What an accepted envelope proves of its signer, whoever presents it, and exactly which envelopes verify
    (release_contract.py:2547-2640, 2839-3048). */
module ReleaseIssuance {
  import opened ReleaseModels
  import opened ReleaseReferences
  import opened ReleaseFinalization
  import opened ReleaseAuthorization

  // ----- nothing that was not issued -----

  /** Whatever this verifier takes, the holder of its key issued. */
  ghost predicate Unforgeable(verifier: Verifier, issued: iset<Message>) {
    forall m, s :: verifier.verify(m, s) ==> m in issued
  }

  /** The signer issued this envelope: its digest, as that of this very payload, under the pinned identities, and each
      reference in it for its very claim. */
  ghost predicate Issued(rules: Rules, ids: Ids, issued: iset<Message>, e: Envelope) {
    && ForEnvelope(rules.payloadSha(e.payload), ids) in issued
    && forall ref :: ref in e.payload.references ==> ForReference(ids, ref.claim) in issued
  }

  /** A forged envelope, or one with a forged or altered reference, does not verify. */
  lemma VerifiedWasIssued(rules: Rules, trust: Trust, e: Envelope, issued: iset<Message>)
    requires Unforgeable(trust.verifier, issued) && Verified(rules, trust, e)
    ensures Issued(rules, trust.ids, issued, e)
  {
    hide PayloadProven, ValidPayload, DistinctRefs;
    forall ref | ref in e.payload.references
      ensures ForReference(trust.ids, ref.claim) in issued
    {
      assert ReferenceVerified(trust.verifier, e.payload.receipt, ref);
    }
  }

  /** Every verifier that is asked belongs to one signing authority. */
  ghost predicate OneSigner(events: seq<Event>, ids: Ids, issued: iset<Message>) {
    forall i :: 0 <= i < |events| && events[i].Presented? ==>
      events[i].trust.ids == ids && Unforgeable(events[i].trust.verifier, issued)
  }

  /** Its payload was bound under its session and lease by an earlier event, or before. */
  ghost predicate WasBound(rules: Rules, h: History, events: seq<Event>, e: Envelope) {
    var g := Grant(e.payload.session, e.payload.lease, rules.payloadSha(e.payload));
    g in h.ledger.bound || Bound(g) in events
  }

  lemma BoundEarlier(rules: Rules, h: History, events: seq<Event>, e: Envelope)
    requires events != [] && WasBound(rules, Happen(rules, h, events[0]), events[1..], e)
    ensures WasBound(rules, h, events, e)
  {
    hide Accepts;
    assert forall x :: x in events[1..] ==> x in events;
    assert events[0] in events;
  }

  lemma AcceptedIsBound(rules: Rules, trust: Trust, h: History, e: Envelope)
    requires Accepts(rules, trust, h.ledger, e)
    ensures WasBound(rules, h, [], e)
  {
    hide PayloadProven, ValidPayload, DistinctRefs, ReferenceVerified;
  }

  /** Over every sequence of events, whoever presents what and however often, each envelope that is accepted was issued by
      the one signer, its payload was bound under its session and lease, and no nonce was accepted before. */
  lemma {:induction false} AcceptedWasIssued(rules: Rules, h: History, events: seq<Event>, ids: Ids,
                                             issued: iset<Message>)
    requires OneSigner(events, ids, issued)
    ensures h.accepted <= Unfold(rules, h, events).accepted
    ensures forall i :: |h.accepted| <= i < |Unfold(rules, h, events).accepted| ==>
              && Issued(rules, ids, issued, Unfold(rules, h, events).accepted[i])
              && WasBound(rules, h, events, Unfold(rules, h, events).accepted[i])
    decreases |events|
  {
    hide Verified, Issued, WasBound;
    if events != [] {
      var next := Happen(rules, h, events[0]);
      var done := Unfold(rules, next, events[1..]).accepted;
      AcceptedWasIssued(rules, next, events[1..], ids, issued);
      forall i | |h.accepted| <= i < |done|
        ensures Issued(rules, ids, issued, done[i]) && WasBound(rules, h, events, done[i])
      {
        if i < |next.accepted| {
          NewlyAccepted(rules, h, events, ids, issued);
        } else {
          BoundEarlier(rules, h, events, done[i]);
        }
      }
    }
  }

  lemma NewlyAccepted(rules: Rules, h: History, events: seq<Event>, ids: Ids, issued: iset<Message>)
    requires events != [] && OneSigner(events, ids, issued)
    ensures
      var next := Happen(rules, h, events[0]);
      && h.accepted <= next.accepted && |next.accepted| <= |h.accepted| + 1
      && forall i :: |h.accepted| <= i < |next.accepted| ==>
           Issued(rules, ids, issued, next.accepted[i]) && WasBound(rules, h, events, next.accepted[i])
  {
    hide Verified, Issued;
    var e := events[0];
    if e.Presented? && Accepts(rules, e.trust, h.ledger, e.envelope) {
      VerifiedWasIssued(rules, e.trust, e.envelope, issued);
      AcceptedIsBound(rules, e.trust, h, e.envelope);
    }
  }

  // ----- exactly which envelopes verify -----

  /** The one control of this job: of the job's category, run, and successful. */
  predicate JobPassed(rules: Rules, r: Receipt, job: string, i: nat) {
    && i < |r.controls| && r.controls[i].controlId == job
    && (forall k :: 0 <= k < |r.controls| && r.controls[k].controlId == job ==> k == i)
    && r.controls[i].category == rules.category(job) && r.controls[i].success
    && r.controls[i].exitCode == Some(0) && |r.controls[i].argv| > 0
  }

  /** Every job of the catalog passed, once, and nothing else was run. */
  ghost predicate AllPassed(rules: Rules, r: Receipt) {
    && (forall job :: job in rules.jobs ==> exists i: nat :: JobPassed(rules, r, job, i))
    && (forall i :: 0 <= i < |r.controls| ==> r.controls[i].controlId in rules.jobs)
  }

  /** One state of each of the three roots, before the run, after it and at finalization. */
  predicate RootsHeld(p: Payload) {
    var x := p.receipt.siblings;
    && p.science == p.receipt.authority.sourceTree == x.sciencePre == x.sciencePost
    && p.drylab == x.drylabPre == x.drylabPost && p.ontology == x.ontologyPre == x.ontologyPost
  }

  predicate InputsPinned(r: Receipt) {
    var a := r.authority;
    !a.dirty && None !in [a.catalog, a.dependency, a.fixture, a.toolchain, a.revisionAnchor, r.externalAnchor]
  }

  /** This reference claims this piece of evidence, at its attachment, for this very release. */
  predicate ClaimsFor(trust: Trust, r: Receipt, t: Typed, ref: Reference) {
    && t.sha in Manifest(r.attachments)
    && ref.claim == ClaimFor(r, t, Manifest(r.attachments)[t.sha], trust.ids.authority, ref.claim.issuedAt)
  }

  ghost predicate EachClaimed(trust: Trust, r: Receipt, evidence: seq<Typed>, refs: seq<Reference>) {
    && (forall t :: t in evidence ==> exists ref :: ref in refs && ClaimsFor(trust, r, t, ref))
    && (forall ref :: ref in refs ==> exists t :: t in evidence && ClaimsFor(trust, r, t, ref))
  }

  predicate SamePlace(a: Claim, b: Claim) { a.kind == b.kind && a.path == b.path }

  predicate NoneTwice(refs: seq<Reference>) {
    forall i, j :: 0 <= i < |refs| && 0 <= j < |refs| && i != j ==>
      refs[i].claim.sha != refs[j].claim.sha && !SamePlace(refs[i].claim, refs[j].claim)
  }

  predicate AllSigned(trust: Trust, refs: seq<Reference>) {
    forall ref :: ref in refs ==>
      ref.signature != [] && trust.verifier.verify(ForReference(trust.ids, ref.claim), ref.signature)
  }

  /** One signed claim for each piece of evidence, and no other; no two of the same digest, or of the same kind at the
      same place. */
  ghost predicate EvidenceClaimed(trust: Trust, p: Payload) {
    && p.references != [] && NoneTwice(p.references) && AllSigned(trust, p.references)
    && EachClaimed(trust, p.receipt, TypedEvidence(p.receipt), p.references)
  }

  /** What the shared checks say of a receipt at the instant of its finalization. */
  predicate Attested(rules: Rules, p: Payload) {
    && rules.instant(p.finalizedAt) && rules.seals(p.receipt, p.finalizedAt) && rules.human(p.receipt)
    && rules.epochs(p.receipt, p.finalizedAt) && rules.nfrs(p.receipt)
    && p.receipt.missing == [] && rules.derivedMissing(p.receipt) == {} && p.receipt.incomplete
  }

  /** The trust names one signer, and one consumer that is not the signer. */
  predicate TrustPinned(trust: Trust) {
    trust.verifier.ids == trust.ids && trust.consumer == trust.authorization && trust.consumer.id != trust.ids.authority
  }

  /** The envelope is this signer's, for this payload, in this session and lease. */
  predicate Addressed(rules: Rules, trust: Trust, e: Envelope) {
    && e.ids == trust.ids && e.payloadSha == rules.payloadSha(e.payload)
    && e.signature != [] && trust.verifier.verify(ForEnvelope(e.payloadSha, e.ids), e.signature)
    && (e.payload.session, e.payload.lease) == (trust.session, trust.lease)
       == (e.payload.receipt.authority.session, e.payload.receipt.authority.lease)
    && 16 <= |e.payload.nonce|
  }

  /** What the verifier checks of the controls of a receipt. */
  predicate ControlsChecked(rules: Rules, r: Receipt) {
    && (forall c :: c in r.controls ==> c.argv != [] && (c.success ==> c.exitCode == Some(0)))
    && (forall i, j :: 0 <= i < j < |r.controls| ==> r.controls[i].controlId != r.controls[j].controlId)
    && ControlIds(r) == Elements(rules.jobs)
    && (forall c :: c in r.controls ==>
          c.category == rules.category(c.controlId) && c.success && c.exitCode == Some(0) && c.argv != [])
  }

  lemma CheckedPassed(rules: Rules, r: Receipt)
    requires ControlsChecked(rules, r)
    ensures AllPassed(rules, r)
  {
    forall job | job in rules.jobs ensures exists i: nat :: JobPassed(rules, r, job, i) {
      assert job in ControlIds(r);
      var c :| c in r.controls && c.controlId == job;
      var i :| 0 <= i < |r.controls| && r.controls[i] == c;
      assert JobPassed(rules, r, job, i);
    }
    forall i | 0 <= i < |r.controls| ensures r.controls[i].controlId in rules.jobs {
      assert r.controls[i].controlId in ControlIds(r);
    }
  }

  lemma PassedChecked(rules: Rules, r: Receipt)
    requires AllPassed(rules, r)
    ensures ControlsChecked(rules, r)
  {
    forall c | c in r.controls
      ensures c.category == rules.category(c.controlId) && c.success && c.exitCode == Some(0) && c.argv != []
    {
      var i :| 0 <= i < |r.controls| && r.controls[i] == c;
      PassedAt(rules, r, i);
    }
    forall i, j | 0 <= i < j < |r.controls| ensures r.controls[i].controlId != r.controls[j].controlId {
      var k: nat :| JobPassed(rules, r, r.controls[i].controlId, k);
    }
    forall job | job in rules.jobs ensures job in ControlIds(r) {
      var i: nat :| JobPassed(rules, r, job, i);
      assert r.controls[i] in r.controls;
    }
  }

  lemma PassedAt(rules: Rules, r: Receipt, i: nat)
    requires AllPassed(rules, r) && i < |r.controls|
    ensures JobPassed(rules, r, r.controls[i].controlId, i)
  {
    var k: nat :| JobPassed(rules, r, r.controls[i].controlId, k);
  }

  /** What the verifier checks of the references of a payload. */
  predicate ReferencesChecked(trust: Trust, p: Payload) {
    && p.references != [] && ReferencesComplete(p) && DistinctRefs(p.references)
    && forall ref :: ref in p.references ==> ReferenceVerified(trust.verifier, p.receipt, ref)
  }

  lemma ClaimsVerified(trust: Trust, p: Payload)
    requires trust.verifier.ids == trust.ids && EvidenceClaimed(trust, p)
    ensures ReferencesChecked(trust, p)
  {
    hide TypedEvidence, Manifest, Declared;
    var r, refs, ts, m := p.receipt, p.references, TypedEvidence(p.receipt), Manifest(p.receipt.attachments);
    forall ref | ref in refs ensures ReferenceVerified(trust.verifier, r, ref) {
      var t :| t in ts && ClaimsFor(trust, r, t, ref);
    }
    TuplesMatch(trust, r, ts, refs);
    TypedAreDeclared(r);
    ShasMatch(trust, r, ts, refs);
    DistinctCount(refs);
  }

  lemma TuplesMatch(trust: Trust, r: Receipt, ts: seq<Typed>, refs: seq<Reference>)
    requires EachClaimed(trust, r, ts, refs) && ts == TypedEvidence(r)
    ensures ExpectedTuples(r) == Ok(TuplesOf(refs))
  {
    SameEvidence(r);
    hide ExpectedEvidence;
    hide TypedEvidence, Manifest;
    var m := Manifest(r.attachments);
    forall t | t in ts ensures t.sha in m && Tuple(t.sha, t.kind, m[t.sha]) in TuplesOf(refs) {
      var ref :| ref in refs && ClaimsFor(trust, r, t, ref);
      assert TupleOf(ref) in TuplesOf(refs);
    }
    forall ref | ref in refs ensures exists t :: t in ts && t.sha in m && TupleOf(ref) == Tuple(t.sha, t.kind, m[t.sha]) {
      var t :| t in ts && ClaimsFor(trust, r, t, ref);
    }
    assert ExpectedTuples(r).Ok? && ExpectedTuples(r).value == TuplesOf(refs);
  }

  lemma ShasMatch(trust: Trust, r: Receipt, ts: seq<Typed>, refs: seq<Reference>)
    requires EachClaimed(trust, r, ts, refs)
    ensures RefShas(refs) == ShasOf(ts)
  {
    hide Manifest;
    forall t | t in ts ensures t.sha in RefShas(refs) {
      var ref :| ref in refs && ClaimsFor(trust, r, t, ref);
    }
    forall ref | ref in refs ensures ref.claim.sha in ShasOf(ts) {
      var t :| t in ts && ClaimsFor(trust, r, t, ref);
    }
  }

  lemma VerifiedClaims(trust: Trust, p: Payload)
    requires trust.verifier.ids == trust.ids && ReferencesChecked(trust, p)
    ensures EvidenceClaimed(trust, p)
  {
    SameEvidence(p.receipt);
    hide ExpectedEvidence;
    hide TypedEvidence, Manifest, Declared;
    var r, refs, ts, m := p.receipt, p.references, TypedEvidence(p.receipt), Manifest(p.receipt.attachments);
    assert ExpectedTuples(r) == Ok(TuplesOf(refs));
    forall t | t in ts ensures exists ref :: ref in refs && ClaimsFor(trust, r, t, ref) {
      assert t.sha in m && Tuple(t.sha, t.kind, m[t.sha]) in TuplesOf(refs);
      var ref :| ref in refs && TupleOf(ref) == Tuple(t.sha, t.kind, m[t.sha]);
      assert ReferenceVerified(trust.verifier, r, ref);
      assert ClaimsFor(trust, r, t, ref);
    }
    forall ref | ref in refs ensures exists t :: t in ts && ClaimsFor(trust, r, t, ref) {
      assert TupleOf(ref) in TuplesOf(refs);
      var t :| t in ts && t.sha in m && TupleOf(ref) == Tuple(t.sha, t.kind, m[t.sha]);
      assert ReferenceVerified(trust.verifier, r, ref);
      assert ClaimsFor(trust, r, t, ref);
    }
  }

  /** An envelope verifies if and only if: the trust names one signer and another consumer; the envelope is that signer's,
      for this payload, session and lease; every job of the catalog passed, once; the three roots stood still; the inputs
      are pinned; the shared checks hold; and there is one signed claim, for this very release, for each piece of
      evidence and no other. */
  lemma VerifiedIff(rules: Rules, trust: Trust, e: Envelope)
    ensures Verified(rules, trust, e) <==>
            && TrustPinned(trust) && Addressed(rules, trust, e)
            && AllPassed(rules, e.payload.receipt) && RootsHeld(e.payload) && InputsPinned(e.payload.receipt)
            && Attested(rules, e.payload) && EvidenceClaimed(trust, e.payload)
  {
    hide AllPassed, ControlsChecked, ReferencesChecked, EvidenceClaimed, Addressed, Attested;
    var p := e.payload;
    PartsOfVerified(rules, trust, e);
    if ControlsChecked(rules, p.receipt) { CheckedPassed(rules, p.receipt); }
    if AllPassed(rules, p.receipt) { PassedChecked(rules, p.receipt); }
    if TrustPinned(trust) && EvidenceClaimed(trust, p) { ClaimsVerified(trust, p); }
    if TrustPinned(trust) && ReferencesChecked(trust, p) { VerifiedClaims(trust, p); }
  }

  /** The checks of verification, regrouped. */
  lemma PartsOfVerified(rules: Rules, trust: Trust, e: Envelope)
    ensures Verified(rules, trust, e) <==>
            && TrustPinned(trust) && Addressed(rules, trust, e)
            && ControlsChecked(rules, e.payload.receipt) && RootsHeld(e.payload) && InputsPinned(e.payload.receipt)
            && Attested(rules, e.payload) && ReferencesChecked(trust, e.payload)
  {
    hide ReferenceVerified, DistinctRefs, TypedEvidence, ExpectedTuples, TuplesOf, Declared;
  }
}
