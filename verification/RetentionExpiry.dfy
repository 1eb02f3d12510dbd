/** What expiry and the start of a retention run pick, said of the records themselves (retention.py:413-433, 685-726,
    1033-1082). */
module RetentionExpiry {
  import opened RetentionModels
  import opened RetentionOps
  import opened RetentionSafety
  import opened RetentionTheorems

  /** A hold on this scope was placed and is not released. */
  predicate UnderHold(s: Store, scopeId: string) {
    var key := (s.tenantId, scopeId);
    key in s.holds && s.holds[key].releasedAt.None?
  }

  /** The period of its kind lies between this record and `now`: 90 days, or 365 for an audit record. */
  predicate OldEnough(r: Record, now: Instant) {
    now - r.occurredAt >= (if r.Audit? then 365 else 90) * 86_400_000_000
  }

  // ----- what a list of identifiers picks -----

  predicate Ascending(at: seq<nat>, bound: nat) {
    (forall i, j :: 0 <= i < j < |at| ==> at[i] < at[j]) && forall i :: 0 <= i < |at| ==> at[i] < bound
  }

  predicate PicksAt(records: seq<Record>, ids: seq<string>, chosen: set<string>, at: seq<nat>) {
    && |at| == |ids| && Ascending(at, |records|)
    && (forall i :: 0 <= i < |at| ==> records[at[i]].recordId == ids[i] && ids[i] in chosen)
    && (forall k :: 0 <= k < |records| && records[k].recordId in chosen ==> k in at)
  }

  /** These identifiers are, in list order, exactly those of the records with a chosen identifier. */
  ghost predicate Picks(records: seq<Record>, ids: seq<string>, chosen: set<string>) {
    exists at :: PicksAt(records, ids, chosen, at)
  }

  function Moved(at: seq<nat>): (r: seq<nat>)
    ensures |r| == |at| && forall i :: 0 <= i < |at| ==> r[i] == at[i] + 1
    ensures forall k: nat :: k + 1 in r <==> k in at
  {
    var r: seq<nat> := seq(|at|, i requires 0 <= i < |at| => at[i] + 1);
    assert forall i :: 0 <= i < |at| ==> r[i] in r && at[i] in at;
    r
  }

  /** One record in front of a list of which `at` picks these identifiers. */
  lemma PicksAfter(first: Record, rest: seq<Record>, ids: seq<string>, chosen: set<string>, at: seq<nat>)
    requires PicksAt(rest, ids, chosen, at) && first.recordId !in chosen
    ensures PicksAt([first] + rest, ids, chosen, Moved(at))
  {
    var records := [first] + rest;
    forall k | 0 <= k < |records| && records[k].recordId in chosen ensures k in Moved(at) {
      assert k > 0 && rest[k - 1].recordId in chosen;
      assert (k - 1) + 1 in Moved(at);
    }
  }

  lemma AscendingFirst(at: seq<nat>, bound: nat)
    requires Ascending(at, bound)
    ensures Ascending([0] + Moved(at), bound + 1)
  {
    var all: seq<nat> := [0] + Moved(at);
    assert forall i :: 0 < i < |all| ==> all[i] == at[i - 1] + 1;
  }

  lemma PicksFirst(first: Record, rest: seq<Record>, ids: seq<string>, chosen: set<string>, at: seq<nat>)
    requires PicksAt(rest, ids, chosen, at) && first.recordId in chosen
    ensures PicksAt([first] + rest, [first.recordId] + ids, chosen, [0] + Moved(at))
  {
    hide Ascending;
    var records, all: seq<nat> := [first] + rest, [0] + Moved(at);
    AscendingFirst(at, |rest|);
    forall k | 0 <= k < |records| && records[k].recordId in chosen ensures k in all {
      if k > 0 {
        assert rest[k - 1].recordId in chosen;
        assert (k - 1) + 1 in Moved(at);
      } else {
        assert all[0] == 0;
      }
    }
    forall i | 0 <= i < |all|
      ensures all[i] < |records| && records[all[i]].recordId == ([first.recordId] + ids)[i]
    {
      FirstPick(first, rest, ids, chosen, at, i);
    }
  }

  lemma FirstPick(first: Record, rest: seq<Record>, ids: seq<string>, chosen: set<string>, at: seq<nat>, i: nat)
    requires PicksAt(rest, ids, chosen, at) && i <= |at|
    ensures
      var all: seq<nat> := [0] + Moved(at);
      all[i] <= |rest| && ([first] + rest)[all[i]].recordId == ([first.recordId] + ids)[i]
  {
    if i > 0 {
      assert ([0] + Moved(at))[i] == at[i - 1] + 1;
      assert ([first] + rest)[at[i - 1] + 1] == rest[at[i - 1]];
    }
  }

  lemma {:induction false} SelectPicks(records: seq<Record>, wanted: Record -> bool, chosen: set<string>)
    returns (at: seq<nat>)
    requires forall r :: r in records ==> (wanted(r) <==> r.recordId in chosen)
    ensures PicksAt(records, Select(records, wanted), chosen, at)
  {
    hide PicksAt;
    if records == [] {
      at := [];
      NothingPicked(chosen);
    } else {
      assert records == [records[0]] + records[1..];
      var rest := SelectPicks(records[1..], wanted, chosen);
      if wanted(records[0]) {
        PicksFirst(records[0], records[1..], Select(records[1..], wanted), chosen, rest);
        at := [0] + Moved(rest);
      } else {
        PicksAfter(records[0], records[1..], Select(records[1..], wanted), chosen, rest);
        at := Moved(rest);
        assert [] + Select(records[1..], wanted) == Select(records[1..], wanted);
      }
    }
  }

  lemma NothingPicked(chosen: set<string>)
    ensures PicksAt([], [], chosen, [])
  {}

  // ----- holds -----

  /** In a reachable store the clock is past every instant of every hold, so a scope is held now exactly when the hold on
      it is unreleased. */
  lemma HeldNow(trust: Trust, w: World, now: Instant, scopeId: string)
    requires Inv(trust, w) && ValidateNow(w.store, now).None?
    ensures scopeId in HeldScopes(Tick(w.store, now), now) <==> UnderHold(w.store, scopeId)
  {
    var key := (w.store.tenantId, scopeId);
    if key in w.store.holds {
      CurrentHold(trust, w, key);
      assert key.1 == scopeId;
    }
  }

  // ----- expiry -----

  /** Membership in the two lists a sweep makes, for a record of an unambiguous list. */
  lemma ExpiringMember(s: Store, records: seq<Record>, now: Instant, days: int, r: Record)
    requires UniqueIds(Elements(records)) && r in records
    ensures r.recordId in Expiring(s, records, now, days) <==>
              r.recordId !in s.expiredIds && r.scopeId !in HeldScopes(s, now) && r.occurredAt + days * DAY <= now
  {
    var held := HeldScopes(s, now);
    SelectMember(records, (x: Record) =>
      x.recordId !in s.expiredIds && x.scopeId !in held && x.occurredAt <= now - days * DAY, r.recordId);
  }

  lemma ExpiringNames(s: Store, records: seq<Record>, now: Instant, days: int, id: string)
    requires id in Expiring(s, records, now, days)
    ensures exists r :: r in records && r.recordId == id
  {
    var held := HeldScopes(s, now);
    SelectMember(records, (x: Record) =>
      x.recordId !in s.expiredIds && x.scopeId !in held && x.occurredAt <= now - days * DAY, id);
  }

  lemma ExpiringPicks(s: Store, records: seq<Record>, now: Instant, days: int, chosen: set<string>)
    requires UniqueIds(Elements(records))
    requires forall r :: r in records ==> (r.recordId in Expiring(s, records, now, days) <==> r.recordId in chosen)
    ensures Picks(records, Expiring(s, records, now, days), chosen)
  {
    var held := HeldScopes(s, now);
    var wanted := (x: Record) =>
      x.recordId !in s.expiredIds && x.scopeId !in held && x.occurredAt <= now - days * DAY;
    forall r | r in records ensures wanted(r) <==> r.recordId in chosen {
      ExpiringMember(s, records, now, days, r);
    }
    var at := SelectPicks(records, wanted, chosen);
  }

  /** The two lists of a store keep identifiers apart. */
  lemma ListsApart(trust: Trust, w: World)
    requires Inv(trust, w)
    ensures UniqueIds(Elements(w.store.operational)) && UniqueIds(Elements(w.store.audits))
    ensures forall q, r :: q in Records(w.store) && r in Records(w.store) && q.recordId == r.recordId ==> q == r
    ensures forall r :: r in w.store.operational ==> r.Operational?
    ensures forall r :: r in w.store.audits ==> r.Audit?
  {
    hide Holds, Runs, Conserved, HoldSafe, Grants;
    assert Elements(w.store.operational) <= w.ever && Elements(w.store.audits) <= w.ever;
  }

  /** What a sweep does to one record: it is expired afterwards exactly when it was before, or no unreleased hold is on
      its scope and its period is over. */
  lemma ExpiredIff(trust: Trust, w: World, p: Principal, now: Instant, r: Record)
    requires Reached(trust, w) && Guard(w.store, p, now).None? && r in Records(w.store)
    ensures r.recordId in Next(trust, w.store, CExpire(p, now)).expiredIds <==>
              r.recordId in w.store.expiredIds || (!UnderHold(w.store, r.scopeId) && OldEnough(r, now))
  {
    hide Reached, Inv, Expiring, UnderHold, HeldScopes, UniqueIds;
    ReachedKeeps(trust, w);
    ListsApart(trust, w);
    HeldNow(trust, w, now, r.scopeId);
    var t := Tick(w.store, now);
    SweptRecord(t, now, r);
    assert Next(trust, w.store, CExpire(p, now)).expiredIds == Swept(t, now);
  }

  function Swept(t: Store, now: Instant): set<string> {
    t.expiredIds + Elements(Expiring(t, t.operational, now, t.policy.operationalDays))
    + Elements(Expiring(t, t.audits, now, t.policy.auditDays))
  }

  lemma SweptRecord(t: Store, now: Instant, r: Record)
    requires r in Records(t) && UniqueIds(Elements(t.operational)) && UniqueIds(Elements(t.audits))
    requires forall x, y :: x in Records(t) && y in Records(t) && x.recordId == y.recordId ==> x == y
    requires forall x :: x in t.operational ==> x.Operational?
    requires forall x :: x in t.audits ==> x.Audit?
    ensures r.recordId in Swept(t, now) <==>
              r.recordId in t.expiredIds || (r.scopeId !in HeldScopes(t, now) && OldEnough(r, now))
  {
    hide Expiring, HeldScopes, UniqueIds;
    var days := if r.Audit? then t.policy.auditDays else t.policy.operationalDays;
    var own := if r.Audit? then t.audits else t.operational;
    var other := if r.Audit? then t.operational else t.audits;
    var otherDays := if r.Audit? then t.policy.operationalDays else t.policy.auditDays;
    ExpiringMember(t, own, now, days, r);
    if r.recordId in Expiring(t, other, now, otherDays) {
      ExpiringNames(t, other, now, otherDays, r.recordId);
      assert false;
    }
  }

  /** What a sweep reports: of each list of records, in its order, exactly the identifiers that it newly expired. */
  lemma ReceiptIsExact(trust: Trust, w: World, p: Principal, now: Instant)
    requires Reached(trust, w) && Guard(w.store, p, now).None?
    ensures
      var s, t, out := w.store, Next(trust, w.store, CExpire(p, now)), Expire(trust, w.store, p, now).1;
      && out.Ok? && out.value.tenantId == s.tenantId && out.value.policyVersion == s.policy.version
      && out.value.occurredAt == now
      && Picks(s.operational, out.value.operationalIds, t.expiredIds - s.expiredIds)
      && Picks(s.audits, out.value.auditIds, t.expiredIds - s.expiredIds)
  {
    hide Reached, Inv, Expiring, UniqueIds, Picks;
    ReachedKeeps(trust, w);
    ListsApart(trust, w);
    var s, t := w.store, Tick(w.store, now);
    var chosen := Swept(t, now) - s.expiredIds;
    forall r | r in s.operational
      ensures r.recordId in Expiring(t, s.operational, now, t.policy.operationalDays) <==> r.recordId in chosen
    {
      NewlyIn(t, now, r);
    }
    forall r | r in s.audits
      ensures r.recordId in Expiring(t, s.audits, now, t.policy.auditDays) <==> r.recordId in chosen
    {
      NewlyIn(t, now, r);
    }
    ExpiringPicks(t, s.operational, now, t.policy.operationalDays, chosen);
    ExpiringPicks(t, s.audits, now, t.policy.auditDays, chosen);
    assert Next(trust, s, CExpire(p, now)).expiredIds == Swept(t, now);
  }

  lemma NewlyIn(t: Store, now: Instant, r: Record)
    requires r in Records(t) && UniqueIds(Elements(t.operational)) && UniqueIds(Elements(t.audits))
    requires forall x, y :: x in Records(t) && y in Records(t) && x.recordId == y.recordId ==> x == y
    requires forall x :: x in t.operational ==> x.Operational?
    requires forall x :: x in t.audits ==> x.Audit?
    ensures
      var chosen := Swept(t, now) - t.expiredIds;
      && (r.Operational? ==>
            (r.recordId in Expiring(t, t.operational, now, t.policy.operationalDays) <==> r.recordId in chosen))
      && (r.Audit? ==> (r.recordId in Expiring(t, t.audits, now, t.policy.auditDays) <==> r.recordId in chosen))
  {
    hide Expiring, HeldScopes, UniqueIds;
    SweptRecord(t, now, r);
    ExpiringMember(t, if r.Audit? then t.audits else t.operational, now,
                   if r.Audit? then t.policy.auditDays else t.policy.operationalDays, r);
  }

  lemma EventKeepsExpired(trust: Trust, s: Store, e: Event)
    ensures AppendEvent(trust, s, e).Ok? ==> AppendEvent(trust, s, e).value.expiredIds == s.expiredIds
  {}

  lemma DenyKeepsExpired<T>(trust: Trust, s: Store, e: Event, refusal: Error)
    ensures Deny<T>(trust, s, e, refusal).0.expiredIds == s.expiredIds
  {}

  lemma GrantsKeepExpired(trust: Trust, s: Store, c: Command)
    requires c.CRequest? || c.CMove? || c.CUse?
    ensures Next(trust, s, c).expiredIds == s.expiredIds
  {
    hide AppendEvent, Deny, Guard, GuardBreakGlass, TransitionAllowed, UseAllowed, GrantValid;
    forall e ensures AppendEvent(trust, Tick(s, c.now), e).Ok? ==>
                       AppendEvent(trust, Tick(s, c.now), e).value.expiredIds == s.expiredIds {
      EventKeepsExpired(trust, Tick(s, c.now), e);
    }
    forall e, refusal ensures Deny<Grant>(trust, Tick(s, c.now), e, refusal).0.expiredIds == s.expiredIds {
      DenyKeepsExpired<Grant>(trust, Tick(s, c.now), e, refusal);
    }
  }

  lemma OnlySweepsExpire(trust: Trust, s: Store, c: Command)
    requires !c.CExpire?
    ensures Next(trust, s, c).expiredIds <= s.expiredIds
  {
    hide Blocked, ExactlyCovers, ReceiptBound, FindHold, HoldValid, AuditValid, PolicyEvidenceMatches, Guard;
    if c.CRequest? || c.CMove? || c.CUse? {
      GrantsKeepExpired(trust, s, c);
    }
  }

  /** While a hold on a scope is unreleased, no operation at all expires a record of that scope. */
  lemma HeldNeverExpires(trust: Trust, w: World, c: Command, r: Record)
    requires Reached(trust, w) && r in Records(w.store) && UnderHold(w.store, r.scopeId)
    requires r.recordId !in w.store.expiredIds
    ensures r.recordId !in Next(trust, w.store, c).expiredIds
  {
    hide Reached, UnderHold;
    if c.CExpire? {
      if Guard(w.store, c.p, c.now).None? { ExpiredIff(trust, w, c.p, c.now, r); }
    } else {
      OnlySweepsExpire(trust, w.store, c);
    }
  }

  // ----- the start of a run -----

  /** A new run takes this record: it is expired, no incomplete run has it, no unreleased hold is on its scope, and its
      period is over. */
  ghost predicate Due(s: Store, r: Record, now: Instant) {
    && r in Records(s) && r.recordId in s.expiredIds
    && (forall k :: Candidate(s.runs, k, r.recordId) ==> s.runs[k].completedAt.Some?)
    && !UnderHold(s, r.scopeId) && OldEnough(r, now)
  }

  ghost function DueIds(s: Store, now: Instant): set<string> { set r | r in Records(s) && Due(s, r, now) :: r.recordId }

  lemma EligibleMember(s: Store, records: seq<Record>, now: Instant, days: int, r: Record)
    requires UniqueIds(Elements(records)) && r in records
    ensures r.recordId in Eligible(s, records, now, days) <==>
              r.recordId in s.expiredIds && r.recordId !in s.reservedIds && r.scopeId !in HeldScopes(s, now)
              && r.occurredAt + days * DAY <= now
  {
    var held := HeldScopes(s, now);
    SelectMember(records, (x: Record) =>
      x.recordId in s.expiredIds && x.recordId !in s.reservedIds && x.scopeId !in held
      && x.occurredAt <= now - days * DAY, r.recordId);
  }

  lemma EligiblePicks(s: Store, records: seq<Record>, now: Instant, days: int, chosen: set<string>)
    requires UniqueIds(Elements(records))
    requires forall r :: r in records ==> (r.recordId in Eligible(s, records, now, days) <==> r.recordId in chosen)
    ensures Picks(records, Eligible(s, records, now, days), chosen)
  {
    var held := HeldScopes(s, now);
    var wanted := (x: Record) =>
      x.recordId in s.expiredIds && x.recordId !in s.reservedIds && x.scopeId !in held
      && x.occurredAt <= now - days * DAY;
    forall r | r in records ensures wanted(r) <==> r.recordId in chosen {
      EligibleMember(s, records, now, days, r);
    }
    var at := SelectPicks(records, wanted, chosen);
  }

  lemma NotReserved(trust: Trust, w: World, id: string)
    requires Inv(trust, w)
    ensures id !in w.store.reservedIds
            <==> forall k :: Candidate(w.store.runs, k, id) ==> w.store.runs[k].completedAt.Some?
  {
    hide Ids, Holds, Runs, HoldSafe, Grants;
    var s := w.store;
    if id in s.reservedIds {
      assert id in Taken(s, false);
      var k :| k in s.runs && s.runs[k].completedAt.None? && id in s.runs[k].Candidates();
      assert Candidate(s.runs, k, id);
    } else {
      forall k | Candidate(s.runs, k, id) ensures s.runs[k].completedAt.Some? {
        assert id !in Taken(s, false);
      }
    }
  }

  lemma DueRecord(trust: Trust, w: World, now: Instant, r: Record)
    requires Inv(trust, w) && ValidateNow(w.store, now).None? && r in Records(w.store)
    ensures
      var t := Tick(w.store, now);
      && (r.Operational? ==>
            (r.recordId in Eligible(t, t.operational, now, t.policy.operationalDays) <==> Due(w.store, r, now)))
      && (r.Audit? ==> (r.recordId in Eligible(t, t.audits, now, t.policy.auditDays) <==> Due(w.store, r, now)))
      && (r.recordId in DueIds(w.store, now) <==> Due(w.store, r, now))
  {
    hide Inv, Eligible, UnderHold, HeldScopes, UniqueIds;
    ListsApart(trust, w);
    HeldNow(trust, w, now, r.scopeId);
    NotReserved(trust, w, r.recordId);
    var t := Tick(w.store, now);
    EligibleMember(t, if r.Audit? then t.audits else t.operational, now,
                   if r.Audit? then t.policy.auditDays else t.policy.operationalDays, r);
  }

  /** The candidates of a new run are, of each list in its order, exactly the records that are due. */
  lemma CandidatesAreDue(trust: Trust, w: World, id: string, key: string, challenge: string, now: Instant)
    requires Inv(trust, w) && ValidateNow(w.store, now).None?
    ensures
      var run := NewRun(trust, Tick(w.store, now), id, key, challenge, now);
      && Picks(w.store.operational, run.operationalIds, DueIds(w.store, now))
      && Picks(w.store.audits, run.auditIds, DueIds(w.store, now))
      && (run.Candidates() == [] <==> DueIds(w.store, now) == {})
  {
    hide Inv, Eligible, UniqueIds, Picks, Due;
    var s, t := w.store, Tick(w.store, now);
    var run := NewRun(trust, t, id, key, challenge, now);
    ListsApart(trust, w);
    forall r | r in Records(s)
      ensures r in s.operational ==> (r.recordId in run.operationalIds <==> r.recordId in DueIds(s, now))
      ensures r in s.audits ==> (r.recordId in run.auditIds <==> r.recordId in DueIds(s, now))
    {
      DueRecord(trust, w, now, r);
    }
    EligiblePicks(t, s.operational, now, t.policy.operationalDays, DueIds(s, now));
    EligiblePicks(t, s.audits, now, t.policy.auditDays, DueIds(s, now));
    PicksSome(s.operational, run.operationalIds, DueIds(s, now));
    PicksSome(s.audits, run.auditIds, DueIds(s, now));
  }

  lemma PicksSome(records: seq<Record>, ids: seq<string>, chosen: set<string>)
    requires Picks(records, ids, chosen)
    ensures ids == [] <==> forall r :: r in records ==> r.recordId !in chosen
  {
    var at :| PicksAt(records, ids, chosen, at);
    if ids != [] {
      assert records[at[0]] in records;
    }
  }

  /** Starting a run under an unknown key and an unused identifier succeeds exactly when some record is due and nothing
      it is given is empty; it takes exactly the records that are due, and reserves exactly those. */
  lemma StartTakesWhatIsDue(trust: Trust, w: World, id: string, key: string, challenge: string, p: Principal,
                            now: Instant)
    requires Reached(trust, w) && Guard(w.store, p, now).None?
    requires key !in w.store.idempotencyKeys && id != "" && id !in w.store.usedIds
    ensures
      var s, (t, out) := w.store, StartRun(trust, w.store, id, key, challenge, p, now);
      && (out.Ok? <==> DueIds(s, now) != {} && s.tenantId != "" && key != "" && challenge != ""
                       && NewRun(trust, Tick(s, now), id, key, challenge, now).manifestDigest != "")
      && (DueIds(s, now) == {} ==> out == Err(NoCandidates))
      && (out.Ok? ==>
            && t.runs == s.runs[id := out.value] && t.reservedIds == s.reservedIds + DueIds(s, now)
            && Picks(s.operational, out.value.operationalIds, DueIds(s, now))
            && Picks(s.audits, out.value.auditIds, DueIds(s, now))
            && out.value.cutoffAt == now && out.value.attempts == 1 && out.value.completedAt.None?)
  {
    hide Reached, Inv, Eligible, Picks, DueIds, Candidate;
    ReachedKeeps(trust, w);
    var s, t := w.store, Tick(w.store, now);
    CandidatesAreDue(trust, w, id, key, challenge, now);
    TickKeeps(trust, w, now);
    NewRunMayBeAdded(trust, At(w, t), id, key, challenge, now);
    var run := NewRun(trust, t, id, key, challenge, now);
    PickedIds(trust, w, run.operationalIds, run.auditIds, now);
  }

  lemma PickedIds(trust: Trust, w: World, operationalIds: seq<string>, auditIds: seq<string>, now: Instant)
    requires Picks(w.store.operational, operationalIds, DueIds(w.store, now))
    requires Picks(w.store.audits, auditIds, DueIds(w.store, now))
    ensures Elements(operationalIds) + Elements(auditIds) == DueIds(w.store, now)
  {
    hide Due;
    var s, chosen := w.store, DueIds(w.store, now);
    PickedElements(s.operational, operationalIds, chosen);
    PickedElements(s.audits, auditIds, chosen);
    forall d | d in chosen ensures d in Elements(operationalIds) + Elements(auditIds) {
      var r :| r in Records(s) && r.recordId == d;
    }
  }

  lemma PickedElements(records: seq<Record>, ids: seq<string>, chosen: set<string>)
    requires Picks(records, ids, chosen)
    ensures Elements(ids) <= chosen
    ensures forall r :: r in records && r.recordId in chosen ==> r.recordId in Elements(ids)
  {
    var at :| PicksAt(records, ids, chosen, at);
    forall r | r in records && r.recordId in chosen ensures r.recordId in ids {
      var k :| 0 <= k < |records| && records[k] == r;
      var i :| 0 <= i < |at| && at[i] == k;
      assert ids[i] == r.recordId;
    }
  }
}
