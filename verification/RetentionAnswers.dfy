/** Exactly when each operation of the store succeeds, and what it then leaves, said of its arguments and of the store's
    records, holds, runs and grants (retention.py:284-350, 436-682, 729-1030, 1119-1204). */
module RetentionAnswers {
  import opened RetentionModels
  import opened RetentionOps
  import opened RetentionSafety
  import opened RetentionTheorems
  import opened RetentionExpiry

  // ----- who may act, and when -----

  /** An operator of this tenant, at an instant not before the last one and not before the policy takes effect. */
  predicate MayAct(s: Store, p: Principal, now: Instant) {
    && p.tenantId == s.tenantId && ComplianceOperator in p.roles
    && s.policy.effectiveAt <= now && (s.lastNow.Some? ==> s.lastNow.value <= now)
  }

  lemma GuardIs(s: Store, p: Principal, now: Instant)
    ensures Guard(s, p, now).None? <==> MayAct(s, p, now)
    ensures Authorize(s, p).None? && ValidateNow(s, now).None? <==> MayAct(s, p, now)
  {}

  /** Who must not act, or not now, changes nothing at all, whatever the operation. */
  lemma StrangersChangeNothing(trust: Trust, w: World, c: Command)
    requires !MayAct(w.store, c.p, c.now)
    ensures Next(trust, w.store, c) == w.store && Moments(trust, w.store, c) == []
  {
    GuardIs(w.store, c.p, c.now);
    hide AppendEvent, MayAct, AuditValid, PolicyEvidenceMatches, HoldValid, Blocked, ExactlyCovers, ReceiptBound;
  }

  // ----- identifiers and events -----

  predicate Unused(s: Store, id: string) { |id| > 0 && id !in s.usedIds }

  /** Every text of an event that its record needs is there. */
  predicate Named(s: Store, e: Event) {
    "" !in [s.tenantId, e.principal.principalId, e.subjectId, e.scopeId, s.policy.version]
    && e.state != StateText("")
  }

  /** The record an event leaves. */
  function RecordOf(trust: Trust, s: Store, e: Event): Record {
    var body := AuditBody(Known(e.kind), e.principal.principalId, e.subjectId, Known(e.kind), s.policy.version, e.state);
    Audit(e.eventId, s.tenantId, e.scopeId, e.occurredAt, body,
          trust.sha(AuditDocument(e.eventId, s.tenantId, e.scopeId, e.occurredAt, body)))
  }

  /** The store with one more audit record, at this instant. */
  function Recorded1(s: Store, now: Instant, r: Record): Store {
    s.(lastNow := Some(now), audits := s.audits + [r], usedIds := s.usedIds + {r.recordId})
  }

  lemma EventIs(trust: Trust, s: Store, now: Instant, e: Event)
    ensures AppendEvent(trust, Tick(s, now), e).Ok? <==> Unused(s, e.eventId) && Named(s, e)
    ensures AppendEvent(trust, Tick(s, now), e).Ok? ==>
              AppendEvent(trust, Tick(s, now), e).value == Recorded1(s, now, RecordOf(trust, s, e))
  {}

  // ----- records -----

  /** An operational record is taken exactly from an operator of its own tenant under an unused identifier, and then stands
      last. */
  lemma AppendOperationalIff(s: Store, r: OperationalLog, p: Principal, now: Instant)
    ensures
      var out := AppendOperational(s, r, p, now);
      && (out.1.Ok? <==> MayAct(s, p, now) && r.tenantId == s.tenantId && Unused(s, r.recordId))
      && (out.1.Ok? ==>
            out.0 == s.(lastNow := Some(now), operational := s.operational + [r], usedIds := s.usedIds + {r.recordId}))
      && (out.1.Err? ==> out.0 == s || out.0 == s.(lastNow := Some(now)))
  {
    GuardIs(s, p, now);
  }

  /** An audit record is taken under the same conditions, if it is whole and its checksum is that of its content. */
  lemma AppendAuditIff(trust: Trust, s: Store, r: AuditRecord, p: Principal, now: Instant)
    ensures
      var out := AppendAudit(trust, s, r, p, now);
      && (out.1.Ok? <==>
            && MayAct(s, p, now) && r.tenantId == s.tenantId && Unused(s, r.recordId)
            && "" !in [r.tenantId, r.scopeId, r.body.actorId, r.body.subjectId, r.body.policyVersion]
            && r.body.event != Text("") && r.body.reason != Text("") && r.body.state != StateText("")
            && r.checksum == trust.sha(AuditDocument(r.recordId, r.tenantId, r.scopeId, r.occurredAt, r.body)))
      && (out.1.Ok? ==> out.0 == Recorded1(s, now, r))
      && (out.1.Err? ==> out.0 == s || out.0 == s.(lastNow := Some(now)))
  {
    GuardIs(s, p, now);
  }

  lemma {:induction false} FindIs(records: seq<Record>, id: string)
    ensures
      var found := FindRecord(records, id);
      && (found.None? <==> forall r :: r in records ==> r.recordId != id)
      && (found.Some? ==> found.value in records && found.value.recordId == id)
  {
    if records != [] {
      FindIs(records[1..], id);
      assert forall r :: r in records <==> r == records[0] || r in records[1..];
    }
  }

  /** In a reachable store an audit record is read exactly if it is there, is not expired, and its reading can itself be
      recorded; what is returned is the record of that identifier, and the reading is recorded under its scope. */
  lemma ReadAuditIff(trust: Trust, w: World, id: string, p: Principal, now: Instant, requestId: string)
    requires Reached(trust, w)
    ensures
      var s, out := w.store, ReadAudit(trust, w.store, id, p, now, requestId);
      && (out.1.Ok? <==>
            && MayAct(s, p, now) && id !in s.expiredIds && Unused(s, requestId)
            && exists r :: r in s.audits && r.recordId == id
                 && "" !in [s.tenantId, p.principalId, id, r.scopeId, s.policy.version])
      && (out.1.Ok? ==>
            out.1.value in s.audits && out.1.value.recordId == id
            && out.0 == Recorded1(s, now, RecordOf(trust, s,
                          Event(requestId, AuditAccessed, p, id, out.1.value.scopeId, ReadState, now))))
      && (MayAct(s, p, now) && out.1.Err? ==> out.0 == s.(lastNow := Some(now)))
  {
    hide Reached, Inv, AppendEvent, RecordOf, Recorded1, Unused, UniqueIds;
    ReachedKeeps(trust, w);
    ListsApart(trust, w);
    var s := w.store;
    GuardIs(s, p, now);
    FindIs(s.audits, id);
    var found := FindRecord(s.audits, id);
    if found.Some? {
      assert forall r :: r in s.audits && r.recordId == id ==> r == found.value by {
        assert forall r :: r in s.audits ==> r in Records(s);
      }
      EventIs(trust, s, now, Event(requestId, AuditAccessed, p, id, found.value.scopeId, ReadState, now));
    }
  }

  // ----- policy -----

  /** The one record that evidences this change, but for its identifier. */
  function PolicyRecord(trust: Trust, s: Store, change: PolicyChange, p: Principal, now: Instant, id: string): Record {
    var body := AuditBody(Known(PolicyChanged), p.principalId, change.policy.version, Text(change.reason),
        s.policy.version, PolicyState(s.policy.version, change.policy.version, change.policyDigest, change.reason));
    Audit(id, s.tenantId, "policy", now, body, trust.sha(AuditDocument(id, s.tenantId, "policy", now, body)))
  }

  /** A policy is changed exactly by an operator acting for himself and now, on the one record that evidences this very
      change, under an unused identifier; the record, the identifier, the clock and the policy then change together, and
      otherwise nothing does. */
  lemma ChangePolicyIff(trust: Trust, s: Store, change: PolicyChange, evidence: Option<AuditRecord>, p: Principal,
                        now: Instant)
    ensures
      var out := ChangePolicy(trust, s, change, evidence, p, now);
      && (out.1.Ok? <==>
            && MayAct(s, p, now) && change.actorId == p.principalId && change.occurredAt == now
            && change.policyDigest == trust.sha(PolicyDocument(change.policy))
            && "" !in [s.tenantId, p.principalId, change.policy.version, change.reason, s.policy.version]
            && evidence.Some? && Unused(s, evidence.value.recordId)
            && evidence.value == PolicyRecord(trust, s, change, p, now, evidence.value.recordId))
      && out.0 == if out.1.Ok? then Recorded1(s, now, evidence.value).(policy := change.policy) else s
  {
    GuardIs(s, p, now);
  }

  // ----- legal holds -----

  /** The store with one more revision of the hold on a scope, current and in its history. */
  function WithHold(s: Store, h: LegalHold): Store {
    var key := (s.tenantId, h.scopeId);
    s.(holds := s.holds[key := h],
       holdHistory := s.holdHistory[key := (if key in s.holdHistory then s.holdHistory[key] else []) + [h]],
       usedIds := s.usedIds + {h.holdId})
  }

  function PlacedHold(s: Store, c: HoldPlace, now: Instant): LegalHold {
    LegalHold(c.holdId, s.tenantId, c.scopeId, now, None, c.caseId, c.authority, c.reason, 1)
  }

  /** A hold is placed exactly by an operator, for his tenant, on a scope without an unreleased one, under two different
      unused identifiers and with every text given; it starts now, and its placement is recorded. */
  lemma PlaceHoldIff(trust: Trust, s: Store, c: HoldPlace, p: Principal, now: Instant)
    ensures
      var out := PlaceHold(trust, s, c, p, now);
      && (out.1.Ok? <==>
            && MayAct(s, p, now) && c.tenantId == s.tenantId && !UnderHold(s, c.scopeId)
            && Unused(s, c.holdId) && Unused(s, c.eventId) && c.holdId != c.eventId
            && "" !in [s.tenantId, c.scopeId, c.caseId, c.authority, c.reason, p.principalId, s.policy.version])
      && (out.1.Ok? ==>
            && out.1.value == PlacedHold(s, c, now)
            && out.0 == WithHold(Recorded1(s, now, RecordOf(trust, s,
                          Event(c.eventId, HoldPlaced, p, c.holdId, c.scopeId, HoldState(c.caseId, c.authority, 1), now))),
                          PlacedHold(s, c, now)))
      && (out.1.Err? ==> out.0 == s || out.0 == s.(lastNow := Some(now)))
  {
    hide AppendEvent, RecordOf;
    GuardIs(s, p, now);
    EventIs(trust, s, now,
            Event(c.eventId, HoldPlaced, p, c.holdId, c.scopeId, HoldState(c.caseId, c.authority, 1), now));
  }

  /** In a reachable store a current hold is the one its identifier finds. */
  lemma FoundIs(trust: Trust, w: World, key: (string, string))
    requires Inv(trust, w) && key in w.store.holds
    ensures FindHold(w.store, w.store.holds[key].holdId) == Some(w.store.holds[key])
    ensures key == (w.store.tenantId, w.store.holds[key].scopeId)
  {
    hide Ids, Runs, Conserved, HoldSafe, Grants;
    var s, id := w.store, w.store.holds[key].holdId;
    CurrentHold(trust, w, key);
    assert key in HoldKeys(s, id);
    forall k | k in HoldKeys(s, id) ensures k == key {
      assert s.holds[k] in s.holdHistory[k] && s.holds[key] in s.holdHistory[key];
      assert Placed(s.holdHistory, k, id) && Placed(s.holdHistory, key, id);
    }
  }

  function ReleasedHold(h: LegalHold, reason: string, now: Instant): LegalHold {
    LegalHold(h.holdId, h.tenantId, h.scopeId, h.placedAt, Some(now), h.caseId, h.authority, reason, h.revision + 1)
  }

  /** In a reachable store a hold is released exactly by an operator, if it is the current one of some scope and not
      released, under an unused event identifier and with a reason; it then ends now, in its history as well, and its
      release is recorded. */
  lemma ReleaseHoldIff(trust: Trust, w: World, key: (string, string), holdId: string, p: Principal, now: Instant,
                       eventId: string, reason: string)
    requires Reached(trust, w)
    ensures
      var s, out := w.store, ReleaseHold(trust, w.store, holdId, p, now, eventId, reason);
      && (key in s.holds && s.holds[key].holdId == holdId ==>
            && (out.1.Ok? <==>
                  && MayAct(s, p, now) && s.holds[key].releasedAt.None? && Unused(s, eventId)
                  && "" !in [reason, p.principalId, s.policy.version])
            && (out.1.Ok? ==>
                  && out.1.value == ReleasedHold(s.holds[key], reason, now)
                  && out.0 == WithHold(Recorded1(s, now, RecordOf(trust, s, ReleaseEvent(s.holds[key], p, now, eventId))),
                                       ReleasedHold(s.holds[key], reason, now))))
      && ((forall k :: k in s.holds ==> s.holds[k].holdId != holdId) ==> out.1.Err? && out.0 == s)
      && (out.1.Err? ==> out.0 == s || out.0 == s.(lastNow := Some(now)))
  {
    hide Reached, Inv, AppendEvent, RecordOf, FindHold, HoldValid;
    ReachedKeeps(trust, w);
    var s := w.store;
    GuardIs(s, p, now);
    if key in s.holds && s.holds[key].holdId == holdId {
      FoundIs(trust, w, key);
      ReleasableIs(trust, w, key, p, now, eventId, reason);
    } else if forall k :: k in s.holds ==> s.holds[k].holdId != holdId {
      NoneFound(s, holdId);
    }
    ReleaseFailsIdly(trust, s, FindHold(s, holdId), holdId, p, now, eventId, reason);
  }

  lemma NoneFound(s: Store, holdId: string)
    requires forall k :: k in s.holds ==> s.holds[k].holdId != holdId
    ensures FindHold(s, holdId).None?
  {}

  lemma ReleaseFailsIdly(trust: Trust, s: Store, hold: Option<LegalHold>, holdId: string, p: Principal, now: Instant,
                         eventId: string, reason: string)
    ensures
      var out := ReleaseHoldFound(trust, s, hold, holdId, p, now, eventId, reason);
      out.1.Err? ==> out.0 == s || out.0 == s.(lastNow := Some(now))
  {
    hide AppendEvent, HoldValid;
  }

  function ReleaseEvent(h: LegalHold, p: Principal, now: Instant, eventId: string): Event {
    Event(eventId, HoldReleased, p, h.holdId, h.scopeId, HoldState(h.caseId, h.authority, h.revision + 1), now)
  }

  lemma ReleasableIs(trust: Trust, w: World, key: (string, string), p: Principal, now: Instant, eventId: string,
                     reason: string)
    requires Inv(trust, w) && key in w.store.holds && key == (w.store.tenantId, w.store.holds[key].scopeId)
    ensures
      var s, h := w.store, w.store.holds[key];
      var out := ReleaseHoldFound(trust, s, Some(h), h.holdId, p, now, eventId, reason);
      && (MayAct(s, p, now) ==>
            (out.1.Ok? <==>
               h.releasedAt.None? && Unused(s, eventId) && "" !in [reason, p.principalId, s.policy.version]))
      && (MayAct(s, p, now) && out.1.Ok? ==>
            && out.1.value == ReleasedHold(h, reason, now)
            && out.0 == WithHold(Recorded1(s, now, RecordOf(trust, s, ReleaseEvent(h, p, now, eventId))),
                                 ReleasedHold(h, reason, now)))
  {
    hide Inv, AppendEvent, RecordOf;
    var s, h := w.store, w.store.holds[key];
    CurrentHold(trust, w, key);
    HeldIdUsed(trust, w, key);
    EventIs(trust, s, now, ReleaseEvent(h, p, now, eventId));
    assert HoldSound(s, key, h);
  }

  lemma HeldIdUsed(trust: Trust, w: World, key: (string, string))
    requires Inv(trust, w) && key in w.store.holds
    ensures w.store.holds[key].holdId in w.store.usedIds
  {
    hide Runs, Conserved, HoldSafe, Grants;
    CurrentHoldKnown(w, key);
  }

  // ----- completing a run -----

  /** This instant lies in a hold of the scope, as last recorded, both ends included. */
  predicate InRecordedHold(s: Store, scopeId: string, at: Instant) {
    var key := (s.tenantId, scopeId);
    key in s.holdHistory &&
    var history := s.holdHistory[key];
    exists i :: 0 <= i < |history|
      && (forall j :: i < j < |history| ==> history[j].holdId != history[i].holdId)
      && history[i].placedAt <= at && (history[i].releasedAt.None? || at <= history[i].releasedAt.value)
  }

  /** This candidate of a run may not go: its scope is under a hold, or a receipt is dated inside one. */
  ghost predicate Kept(s: Store, id: string, receipts: seq<Attestation>) {
    exists r :: r in Records(s) && r.recordId == id
      && (UnderHold(s, r.scopeId) || exists a :: a in receipts && InRecordedHold(s, r.scopeId, a.deletedAt))
  }

  /** Entry `i` is the one receipt of this candidate on this system, bound to the run, dated between its cutoff and now,
      and verified. */
  predicate Proves(trust: Trust, run: Run, now: Instant, receipts: seq<Attestation>, id: string, system: System, i: nat) {
    && OnlyReceipt(receipts, i, id, system)
    && (receipts[i].tenantId, receipts[i].runId, receipts[i].challenge, receipts[i].manifestDigest)
       == (run.tenantId, run.runId, run.challenge, run.manifestDigest)
    && run.cutoffAt < receipts[i].deletedAt && receipts[i].deletedAt <= now && trust.verify(receipts[i])
  }

  ghost predicate Proved(trust: Trust, run: Run, now: Instant, receipts: seq<Attestation>, id: string, system: System) {
    exists i: nat :: Proves(trust, run, now, receipts, id, system, i)
  }

  /** There is such a receipt for each candidate on each of the two systems, and no receipt of anything else. */
  ghost predicate AllProved(trust: Trust, run: Run, now: Instant, receipts: seq<Attestation>) {
    && (forall id, system: System :: id in run.Candidates() ==> Proved(trust, run, now, receipts, id, system))
    && (forall a :: a in receipts ==> a.recordId in run.Candidates())
  }

  lemma CoversIff(trust: Trust, run: Run, now: Instant, receipts: seq<Attestation>)
    ensures ExactlyCovers(receipts, run.Candidates()) && (forall a :: a in receipts ==> ReceiptBound(trust, run, now, a))
            <==> AllProved(trust, run, now, receipts)
  {
    if ExactlyCovers(receipts, run.Candidates()) && forall a :: a in receipts ==> ReceiptBound(trust, run, now, a) {
      CoversProves(trust, run, now, receipts);
    }
    if AllProved(trust, run, now, receipts) { ProvesCovers(trust, run, now, receipts); }
  }

  lemma CoversProves(trust: Trust, run: Run, now: Instant, receipts: seq<Attestation>)
    requires ExactlyCovers(receipts, run.Candidates()) && forall a :: a in receipts ==> ReceiptBound(trust, run, now, a)
    ensures AllProved(trust, run, now, receipts)
  {
    var ids := run.Candidates();
    forall id, system: System | id in ids ensures Proved(trust, run, now, receipts, id, system) {
      assert system == Archive || system == Primary;
      CoveredOnce(receipts, ids, id, system);
      var i :| OnlyReceipt(receipts, i, id, system);
      assert receipts[i] in receipts;
      assert Proves(trust, run, now, receipts, id, system, i);
    }
    forall a | a in receipts ensures a.recordId in ids {
      var i :| 0 <= i < |receipts| && receipts[i] == a;
      assert ReceiptCoordinates(receipts)[i] in Elements(ReceiptCoordinates(receipts));
      assert (a.recordId, a.system) in Coordinates(ids);
    }
  }

  lemma ProvesCovers(trust: Trust, run: Run, now: Instant, receipts: seq<Attestation>)
    requires AllProved(trust, run, now, receipts)
    ensures ExactlyCovers(receipts, run.Candidates()) && forall a :: a in receipts ==> ReceiptBound(trust, run, now, a)
  {
    var ids, cs := run.Candidates(), ReceiptCoordinates(receipts);
    forall i: nat | i < |receipts| ensures Proves(trust, run, now, receipts, receipts[i].recordId, receipts[i].system, i) {
      assert receipts[i] in receipts;
      assert Proved(trust, run, now, receipts, receipts[i].recordId, receipts[i].system);
      var k: nat :| Proves(trust, run, now, receipts, receipts[i].recordId, receipts[i].system, k);
      assert k == i;
    }
    assert Distinct(cs) by {
      forall i, j | 0 <= i < j < |cs| ensures cs[i] != cs[j] {
        assert Proves(trust, run, now, receipts, receipts[i].recordId, receipts[i].system, i);
      }
    }
    forall c | c in Coordinates(ids) ensures c in cs {
      assert Proved(trust, run, now, receipts, c.0, c.1);
      var i: nat :| Proves(trust, run, now, receipts, c.0, c.1, i);
      assert cs[i] == c;
    }
    forall c | c in cs ensures c in Coordinates(ids) {
      var i :| 0 <= i < |cs| && cs[i] == c;
      assert receipts[i] in receipts;
    }
    assert Elements(cs) == Coordinates(ids);
  }

  lemma IntersectsIs(s: Store, scopeId: string, receipts: seq<Attestation>)
    ensures DeletionIntersectsHold(s, scopeId, receipts) <==>
              exists a :: a in receipts && InRecordedHold(s, scopeId, a.deletedAt)
  {
    var key := (s.tenantId, scopeId);
    var history := History(s, key);
    if DeletionIntersectsHold(s, scopeId, receipts) {
      var i :| 0 <= i < |history| && Latest(history, i)
               && exists a :: a in receipts && WithinHold(history[i], a.deletedAt);
      var a :| a in receipts && WithinHold(history[i], a.deletedAt);
      assert InRecordedHold(s, scopeId, a.deletedAt);
    }
    if a :| a in receipts && InRecordedHold(s, scopeId, a.deletedAt) {
      var i :| 0 <= i < |history|
        && (forall j :: i < j < |history| ==> history[j].holdId != history[i].holdId)
        && history[i].placedAt <= a.deletedAt
        && (history[i].releasedAt.None? || a.deletedAt <= history[i].releasedAt.value);
      assert Latest(history, i) && WithinHold(history[i], a.deletedAt);
    }
  }

  /** What blocks a candidate of an incomplete run of a reachable store. */
  lemma BlockedIs(trust: Trust, w: World, k: string, id: string, receipts: seq<Attestation>, now: Instant)
    requires Inv(trust, w) && ValidateNow(w.store, now).None?
    requires k in w.store.runs && w.store.runs[k].completedAt.None? && id in w.store.runs[k].Candidates()
    ensures Blocked(Tick(w.store, now), id, receipts, now) <==> Kept(w.store, id, receipts)
  {
    hide Inv, UnderHold, HeldScopes, DeletionIntersectsHold, InRecordedHold;
    var s, t := w.store, Tick(w.store, now);
    ListsApart(trust, w);
    CandidateIsHere(trust, w, k, id);
    var r :| r in Records(s) && r.recordId == id && r in w.ever;
    CandidateScopeFound(trust, w, k, r);
    SameScope(s, t, id);
    HeldNow(trust, w, now, r.scopeId);
    IntersectsIs(t, r.scopeId, receipts);
    forall at ensures InRecordedHold(t, r.scopeId, at) == InRecordedHold(s, r.scopeId, at) {
      SameHistory(s, t, r.scopeId, at);
    }
    assert forall x :: x in Records(s) && x.recordId == id ==> x == r;
  }

  lemma SameScope(s: Store, t: Store, id: string)
    requires t.operational == s.operational && t.audits == s.audits
    ensures RecordScope(t, id) == RecordScope(s, id)
  {}

  lemma SameHistory(s: Store, t: Store, scopeId: string, at: Instant)
    requires t.tenantId == s.tenantId && t.holdHistory == s.holdHistory
    ensures InRecordedHold(t, scopeId, at) == InRecordedHold(s, scopeId, at)
  {}

  lemma CandidateIsHere(trust: Trust, w: World, k: string, id: string)
    requires Inv(trust, w) && k in w.store.runs && w.store.runs[k].completedAt.None?
    requires id in w.store.runs[k].Candidates()
    ensures exists r :: r in Records(w.store) && r.recordId == id && r in w.ever
  {
    hide Holds, Runs, HoldSafe, Grants;
    assert id in Taken(w.store, false);
    var r :| r in Records(w.store) && r.recordId == id;
    assert r in w.ever;
  }

  /** A run verifies exactly when it has candidates, ended no earlier than its cutoff with every candidate proved deleted on
      each system by then, and its three digests are those of its manifest, of its receipts and of itself. */
  lemma VerifiesIff(trust: Trust, run: Run)
    ensures VerifyRun(trust, run) <==>
            && |run.operationalIds| + |run.auditIds| > 0
            && run.completedAt.Some? && run.cutoffAt <= run.completedAt.value
            && AllProved(trust, run, run.completedAt.value, run.receipts)
            && run.manifestDigest
               == trust.sha(ManifestDocument(run.tenantId, run.runId, run.policyVersion, run.cutoffAt,
                                             run.operationalIds, run.auditIds, {Archive, Primary}, run.challenge))
            && run.completionDigest == trust.sha(CompletionDocument(run.receipts))
            && run.checksum == trust.sha(RunDocument(run.(checksum := "")))
  {
    hide ExactlyCovers, ReceiptBound, AllProved;
    if run.completedAt.Some? { CoversIff(trust, run, run.completedAt.value, run.receipts); }
    assert run.Candidates() == [] <==> |run.operationalIds| + |run.auditIds| == 0;
  }

  /** The run as it is stored when it is complete. */
  function CompletedRun(trust: Trust, run: Run, receipts: seq<Attestation>, now: Instant): Run {
    var done := run.(attempts := run.attempts + 1, receipts := receipts, completedAt := Some(now),
                     completionDigest := trust.sha(CompletionDocument(receipts)), checksum := "");
    done.(checksum := trust.sha(RunDocument(done)))
  }

  /** The store without the candidates of a run, and with the run completed. */
  ghost predicate Removes(s: Store, t: Store, done: Run) {
    && (forall r :: r in t.operational <==> r in s.operational && r.recordId !in done.Candidates())
    && (forall r :: r in t.audits <==> r in s.audits && r.recordId !in done.Candidates())
    && (forall id :: id in t.expiredIds <==> id in s.expiredIds && id !in done.Candidates())
    && (forall id :: id in t.reservedIds <==> id in s.reservedIds && id !in done.Candidates())
    && t == s.(operational := t.operational, audits := t.audits, expiredIds := t.expiredIds,
               reservedIds := t.reservedIds, runs := s.runs[done.runId := done])
  }

  lemma CommitRemoves(s: Store, done: Run)
    ensures Removes(s, Commit(s, done), done)
  {
    forall r ensures r in Without(s.operational, Elements(done.Candidates()))
                     <==> r in s.operational && r.recordId !in done.Candidates() {
      WithoutMember(s.operational, Elements(done.Candidates()), r);
    }
    forall r ensures r in Without(s.audits, Elements(done.Candidates()))
                     <==> r in s.audits && r.recordId !in done.Candidates() {
      WithoutMember(s.audits, Elements(done.Candidates()), r);
    }
  }

  /** What completing an incomplete run of a reachable store comes to. If a candidate's scope is under a hold, or a receipt
      is dated inside one, the run is only tried once more; else, if every candidate is proved deleted on each system, the
      run is complete and its candidates are gone; else the completion is refused and nothing but the clock changes. */
  lemma CompleteRunIs(trust: Trust, w: World, id: string, receipts: seq<Attestation>, p: Principal, now: Instant)
    requires Reached(trust, w) && id in w.store.runs && w.store.runs[id].completedAt.None?
    requires MayAct(w.store, p, now) && forall a :: a in receipts ==> a.tenantId == w.store.tenantId
    ensures
      var s, run, (t, out) := w.store, w.store.runs[id], CompleteRun(trust, w.store, id, receipts, p, now);
      var later := s.(lastNow := Some(now));
      if exists candidate :: candidate in run.Candidates() && Kept(s, candidate, receipts) then
        var again := run.(attempts := run.attempts + 1);
        out == Ok(again) && t == later.(runs := s.runs[id := again])
      else if AllProved(trust, run, now, receipts) then
        out == Ok(CompletedRun(trust, run, receipts, now)) && Removes(later, t, CompletedRun(trust, run, receipts, now))
      else
        out == Err(CompletionRejected) && t == later
  {
    hide Reached, Inv, Blocked, Kept, ExactlyCovers, ReceiptBound, AllProved, Commit, Removes;
    ReachedKeeps(trust, w);
    GuardIs(w.store, p, now);
    var s, run, t := w.store, w.store.runs[id], Tick(w.store, now);
    RunIdIs(trust, w, id);
    forall candidate | candidate in run.Candidates()
      ensures Blocked(t, candidate, receipts, now) <==> Kept(s, candidate, receipts)
    {
      BlockedIs(trust, w, id, candidate, receipts, now);
    }
    CoversIff(trust, run, now, receipts);
    CommitRemoves(t, CompletedRun(trust, run, receipts, now));
  }

  lemma RunIdIs(trust: Trust, w: World, id: string)
    requires Inv(trust, w) && id in w.store.runs
    ensures w.store.runs[id].runId == id && w.store.runs[id].tenantId == w.store.tenantId
  {
    assert RunSound(w, w.store.runs[id]);
  }

  /** The other ways a completion can end: a stranger, a foreign receipt or an unknown run is refused; a run that is complete
      is returned as it is to the receipts that completed it, and to no others. */
  lemma CompletionReplays(trust: Trust, s: Store, id: string, receipts: seq<Attestation>, p: Principal, now: Instant)
    ensures
      var (t, out) := CompleteRun(trust, s, id, receipts, p, now);
      var foreign := exists a :: a in receipts && a.tenantId != s.tenantId;
      && (!MayAct(s, p, now) || foreign ==> out.Err? && t == s)
      && (MayAct(s, p, now) && !foreign && id !in s.runs ==> out == Err(NotFound) && t == s.(lastNow := Some(now)))
      && (MayAct(s, p, now) && !foreign && id in s.runs && s.runs[id].completedAt.Some? ==>
            && t == s.(lastNow := Some(now))
            && out == if s.runs[id].completionDigest == trust.sha(CompletionDocument(receipts))
                      then Ok(s.runs[id]) else Err(CompletionRejected))
  {
    hide Blocked, ExactlyCovers, ReceiptBound, Commit;
    GuardIs(s, p, now);
  }

  /** A run that is known is started again, and resumed, without changing what it is to delete. */
  lemma StartReplays(trust: Trust, s: Store, id: string, key: string, challenge: string, p: Principal, now: Instant)
    requires MayAct(s, p, now) && key in s.idempotencyKeys
    ensures
      var (t, out) := StartRun(trust, s, id, key, challenge, p, now);
      && t == s.(lastNow := Some(now))
      && (out.Ok? <==> s.idempotencyKeys[key] == id && id in s.runs) && (out.Ok? ==> out.value == s.runs[id])
  {
    GuardIs(s, p, now);
  }

  lemma ResumeIs(s: Store, id: string, p: Principal, now: Instant)
    ensures
      var (t, out) := ResumeRun(s, id, p, now);
      && (out.Ok? <==> MayAct(s, p, now) && id in s.runs)
      && (out.Ok? ==>
            && out.value == (if s.runs[id].completedAt.Some? then s.runs[id]
                             else s.runs[id].(attempts := s.runs[id].attempts + 1))
            && (s.runs[id].completedAt.Some? ==> t == s.(lastNow := Some(now)))
            && (s.runs[id].completedAt.None? ==>
                  t == s.(lastNow := Some(now), runs := s.runs[out.value.runId := out.value])))
      && (out.Err? ==> t == s || t == s.(lastNow := Some(now)))
  {
    GuardIs(s, p, now);
  }

  // ----- break-glass -----

  /** Who may act in an emergency: an operator, for his tenant, at the epoch the authority answers. */
  predicate MayBreak(s: Store, p: Principal, tenantId: string, epoch: int, currentEpoch: int, now: Instant) {
    MayAct(s, p, now) && tenantId == s.tenantId && 1 <= currentEpoch == epoch
  }

  lemma BreakGuardIs(s: Store, p: Principal, tenantId: string, epoch: int, currentEpoch: int, now: Instant)
    ensures GuardBreakGlass(s, p, tenantId, epoch, currentEpoch, now).None?
            <==> MayBreak(s, p, tenantId, epoch, currentEpoch, now)
  {}

  /** What a recorded attempt leaves: its record if that can be kept, and the clock in any case. */
  function Attempted(trust: Trust, s: Store, now: Instant, e: Event): Store {
    if Unused(s, e.eventId) && Named(s, e) then Recorded1(s, now, RecordOf(trust, s, e)) else s.(lastNow := Some(now))
  }

  lemma DenyIs<T>(trust: Trust, s: Store, now: Instant, e: Event, refusal: Error)
    ensures Deny<T>(trust, Tick(s, now), e, refusal).0 == Attempted(trust, s, now, e)
    ensures Deny<T>(trust, Tick(s, now), e, refusal).1.Err?
  {
    hide RecordOf;
    EventIs(trust, s, now, e);
  }

  /** Why a request cannot be granted. */
  function Obstacle(s: Store, r: BreakGlassRequest, now: Instant): Option<RefusalReason> {
    if r.action != ReadMetadata then Some(UnsupportedAction)
    else if r.expiresAt <= now then Some(ExpiredRequest)
    else if r.grantId == r.eventId || r.grantId in s.usedIds then Some(DuplicateGrantId)
    else None
  }

  function RequestedGrant(s: Store, r: BreakGlassRequest, p: Principal, now: Instant): Grant {
    Grant(r.grantId, s.tenantId, r.resourceId, ReadMetadata, r.restoreEpoch, p.principalId, now, r.expiresAt, None, None,
          None)
  }

  function AskedFor(r: BreakGlassRequest, p: Principal, now: Instant): Event {
    Event(r.eventId, GrantRequested, p, r.grantId, r.resourceId, EpochExpiry(r.restoreEpoch, r.expiresAt), now)
  }

  /** A grant is given exactly to an operator of the tenant at the current epoch, for reading metadata, for a time not yet
      over, under two different unused identifiers and with every text given; it is pending, and recorded. Any other
      request of such an operator is refused and, if it can be, recorded with its reason; no grant changes then. */
  lemma RequestIff(trust: Trust, s: Store, r: BreakGlassRequest, p: Principal, currentEpoch: int, now: Instant)
    ensures
      var (t, out) := RequestBreakGlass(trust, s, r, p, currentEpoch, now);
      && (out.Ok? <==>
            && MayBreak(s, p, r.tenantId, r.restoreEpoch, currentEpoch, now) && Obstacle(s, r, now).None?
            && Unused(s, r.grantId) && Unused(s, r.eventId)
            && "" !in [s.tenantId, p.principalId, r.resourceId, s.policy.version])
      && (out.Ok? ==>
            && out.value == RequestedGrant(s, r, p, now)
            && t == Recorded1(s, now, RecordOf(trust, s, AskedFor(r, p, now)))
                      .(grants := s.grants[r.grantId := out.value], usedIds := s.usedIds + {r.eventId} + {r.grantId}))
      && (!MayBreak(s, p, r.tenantId, r.restoreEpoch, currentEpoch, now) ==> t == s)
      && (MayBreak(s, p, r.tenantId, r.restoreEpoch, currentEpoch, now) && Obstacle(s, r, now).Some? ==>
            t == Attempted(trust, s, now,
                           Event(r.eventId, GrantRequestDenied, p, r.grantId, r.resourceId,
                                 RefusedState(Obstacle(s, r, now).value, r.restoreEpoch, r.expiresAt), now)))
      && (out.Err? ==> t.grants == s.grants)
  {
    hide RequestBreakGlass, RecordOf, GuardBreakGlass, MayBreak, Attempted, Obstacle;
    BreakGuardIs(s, p, r.tenantId, r.restoreEpoch, currentEpoch, now);
    if !MayBreak(s, p, r.tenantId, r.restoreEpoch, currentEpoch, now) {
      RequestStranger(trust, s, r, p, currentEpoch, now);
    } else if Obstacle(s, r, now).Some? {
      RequestObstructed(trust, s, r, p, currentEpoch, now);
    } else {
      RequestOpen(trust, s, r, p, currentEpoch, now);
    }
  }

  lemma RequestStranger(trust: Trust, s: Store, r: BreakGlassRequest, p: Principal, currentEpoch: int, now: Instant)
    requires GuardBreakGlass(s, p, r.tenantId, r.restoreEpoch, currentEpoch, now).Some?
    ensures RequestBreakGlass(trust, s, r, p, currentEpoch, now).0 == s
    ensures RequestBreakGlass(trust, s, r, p, currentEpoch, now).1.Err?
  {}

  lemma RequestObstructed(trust: Trust, s: Store, r: BreakGlassRequest, p: Principal, currentEpoch: int, now: Instant)
    requires GuardBreakGlass(s, p, r.tenantId, r.restoreEpoch, currentEpoch, now).None? && Obstacle(s, r, now).Some?
    ensures
      var (t, out) := RequestBreakGlass(trust, s, r, p, currentEpoch, now);
      && out.Err? && t.grants == s.grants
      && t == Attempted(trust, s, now,
                        Event(r.eventId, GrantRequestDenied, p, r.grantId, r.resourceId,
                              RefusedState(Obstacle(s, r, now).value, r.restoreEpoch, r.expiresAt), now))
  {
    hide AppendEvent, RecordOf, Deny, GuardBreakGlass;
    DenyIs<Grant>(trust, s, now, RequestRefused(r, p, UnsupportedAction, now), BreakGlassDenied);
    DenyIs<Grant>(trust, s, now, RequestRefused(r, p, ExpiredRequest, now), BreakGlassDenied);
    DenyIs<Grant>(trust, s, now, RequestRefused(r, p, DuplicateGrantId, now), DuplicateId);
  }

  lemma RequestOpen(trust: Trust, s: Store, r: BreakGlassRequest, p: Principal, currentEpoch: int, now: Instant)
    requires GuardBreakGlass(s, p, r.tenantId, r.restoreEpoch, currentEpoch, now).None? && Obstacle(s, r, now).None?
    ensures
      var (t, out) := RequestBreakGlass(trust, s, r, p, currentEpoch, now);
      && (out.Ok? <==> Unused(s, r.grantId) && Unused(s, r.eventId)
                       && "" !in [s.tenantId, p.principalId, r.resourceId, s.policy.version])
      && (out.Ok? ==>
            && out.value == RequestedGrant(s, r, p, now)
            && t == Recorded1(s, now, RecordOf(trust, s, AskedFor(r, p, now)))
                      .(grants := s.grants[r.grantId := out.value],
                        usedIds := s.usedIds + {r.eventId} + {r.grantId}))
      && (out.Err? ==> t.grants == s.grants)
  {
    assert RecordOf(trust, s, AskedFor(r, p, now)).recordId == r.eventId;
    hide AppendEvent, RecordOf, Deny, GuardBreakGlass;
    EventIs(trust, s, now, AskedFor(r, p, now));
  }

  /** The grant was neither revoked nor expired. */
  predicate Open(g: Grant) { (g.revokedAt, g.expiredAt) == (None, None) }

  /** Whether this step may be taken on this grant by this operator now. */
  predicate MayMove(kind: Transition, g: Grant, p: Principal, now: Instant) {
    && Open(g)
    && (kind.Approve? ==> p.principalId != g.requesterId && g.approverId == None)
    && (if kind.Lapse? then g.expiresAt <= now else now < g.expiresAt)
  }

  function MovedGrant(kind: Transition, g: Grant, p: Principal, now: Instant): Grant {
    match kind
    case Approve => g.(approverId := Some(p.principalId))
    case Revoke => g.(revokedAt := Some(now))
    case Lapse => g.(expiredAt := Some(now))
  }

  function KindOf(kind: Transition, done: bool): EventKind {
    match kind
    case Approve => if done then GrantApproved else GrantApprovalDenied
    case Revoke => if done then GrantRevoked else GrantRevocationDenied
    case Lapse => if done then GrantExpired else GrantExpiryDenied
  }

  function MoveEvent(kind: Transition, done: bool, g: Grant, grantId: string, p: Principal, now: Instant,
                     eventId: string): Event {
    Event(eventId, KindOf(kind, done), p, grantId, g.resourceId, EpochExpiry(g.restoreEpoch, g.expiresAt), now)
  }

  /** A grant is approved, revoked or expired exactly by an operator, if it is known and the step may be taken, and if the
      step can be recorded; nothing else of it changes. A step that may not be taken is recorded as refused, if it can be,
      and no grant changes then. */
  lemma MoveGrantIff(trust: Trust, s: Store, kind: Transition, grantId: string, p: Principal, now: Instant,
                     eventId: string)
    requires MayAct(s, p, now) && grantId in s.grants
    ensures
      var g, (t, out) := s.grants[grantId], MoveGrant(trust, s, kind, grantId, p, now, eventId);
      && (out.Ok? <==> MayMove(kind, g, p, now) && Unused(s, eventId)
                       && "" !in [s.tenantId, p.principalId, grantId, g.resourceId, s.policy.version])
      && (out.Ok? ==>
            && out.value == MovedGrant(kind, g, p, now)
            && t == Recorded1(s, now, RecordOf(trust, s, MoveEvent(kind, true, g, grantId, p, now, eventId)))
                      .(grants := s.grants[grantId := out.value]))
      && (!MayMove(kind, g, p, now) ==>
            t == Attempted(trust, s, now, MoveEvent(kind, false, g, grantId, p, now, eventId)))
      && (out.Err? ==> t.grants == s.grants)
  {
    hide AppendEvent, RecordOf, Deny, Guard;
    GuardIs(s, p, now);
    var g := s.grants[grantId];
    EventIs(trust, s, now, MoveEvent(kind, true, g, grantId, p, now, eventId));
    DenyIs<Grant>(trust, s, now, MoveEvent(kind, false, g, grantId, p, now, eventId), BreakGlassDenied);
  }

  lemma UnknownGrant(trust: Trust, s: Store, kind: Transition, grantId: string, p: Principal, now: Instant,
                     eventId: string)
    requires MayAct(s, p, now) && grantId !in s.grants
    ensures
      var (t, out) := MoveGrant(trust, s, kind, grantId, p, now, eventId);
      out.Err? && t == Attempted(trust, s, now,
                                 Event(eventId, KindOf(kind, false), p, grantId, "break_glass", GrantNotFound, now))
  {
    hide AppendEvent, RecordOf, Deny, Guard;
    GuardIs(s, p, now);
    DenyIs<Grant>(trust, s, now, Event(eventId, KindOf(kind, false), p, grantId, "break_glass", GrantNotFound, now),
                  NotFound);
  }

  /** The grant covers this very use: approved, open, not over, and the user, tenant, resource, action and epoch are its
      own. */
  predicate Covers(s: Store, use: BreakGlassUse, p: Principal, now: Instant) {
    use.grantId in s.grants &&
    var g := s.grants[use.grantId];
    && g.approverId != None && Open(g) && now < g.expiresAt
    && (p.principalId, use.tenantId, use.resourceId, use.action, use.restoreEpoch)
       == (g.requesterId, g.tenantId, g.resourceId, g.action, g.restoreEpoch)
  }

  /** A grant is used exactly by an operator of the tenant at the current epoch for what it covers, if that can be recorded.
      Every such attempt, covered or not, leaves its record if it can be kept, and nothing else. */
  lemma UseIff(trust: Trust, s: Store, use: BreakGlassUse, p: Principal, currentEpoch: int, now: Instant)
    ensures
      var (t, out) := UseBreakGlass(trust, s, use, p, currentEpoch, now);
      var e := Event(use.eventId, if Covers(s, use, p, now) then GrantUsed else GrantUseDenied, p, use.grantId,
                     use.resourceId, EpochState(use.restoreEpoch), now);
      && (out.Ok? <==>
            && MayBreak(s, p, use.tenantId, use.restoreEpoch, currentEpoch, now) && Covers(s, use, p, now)
            && Unused(s, use.eventId)
            && "" !in [s.tenantId, p.principalId, use.grantId, use.resourceId, s.policy.version])
      && t == if MayBreak(s, p, use.tenantId, use.restoreEpoch, currentEpoch, now)
              then Attempted(trust, s, now, e) else s
  {
    hide AppendEvent, RecordOf, GuardBreakGlass, MayBreak;
    BreakGuardIs(s, p, use.tenantId, use.restoreEpoch, currentEpoch, now);
    EventIs(trust, s, now, Event(use.eventId, GrantUsed, p, use.grantId, use.resourceId, EpochState(use.restoreEpoch),
                                 now));
    EventIs(trust, s, now, Event(use.eventId, GrantUseDenied, p, use.grantId, use.resourceId,
                                 EpochState(use.restoreEpoch), now));
    SameCover(s, use, p, now);
  }

  lemma SameCover(s: Store, use: BreakGlassUse, p: Principal, now: Instant)
    ensures UseAllowed(Tick(s, now), use, p, now) <==> Covers(s, use, p, now)
  {}
}
