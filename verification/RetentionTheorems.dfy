/** What the invariant means to a reader: safety over every run of the store. */
module RetentionTheorems {
  import opened RetentionModels
  import opened RetentionOps
  import opened RetentionSafety

  /** Some sequence of commands, given to an empty store, leads here. */
  ghost predicate Reached(trust: Trust, w: World) {
    exists tenantId, policy, commands :: w == Play(trust, Empty(tenantId, policy), commands)
  }

  lemma ReachedKeeps(trust: Trust, w: World)
    requires Reached(trust, w)
    ensures Inv(trust, w)
  {
    hide Inv, Play;
    var tenantId, policy, commands :| w == Play(trust, Empty(tenantId, policy), commands);
    PlayKeeps(trust, tenantId, policy, commands);
  }

  // ----- identifiers and reservations -----

  /** In every reachable store an identifier is reserved exactly when it is the candidate of an incomplete run. That run
      is the only run that ever names it, so no record is deleted by two; and its record is still held, in one place,
      under one scope. */
  lemma ReservedIffIncompleteCandidate(trust: Trust, tenantId: string, policy: Policy, commands: seq<Command>,
                                       id: string)
    ensures
      var s := Play(trust, Empty(tenantId, policy), commands).store;
      && (id in s.reservedIds <==> exists k :: Candidate(s.runs, k, id) && s.runs[k].completedAt.None?)
      && (forall k, l :: Candidate(s.runs, k, id) && Candidate(s.runs, l, id) ==> k == l)
      && (id in s.reservedIds ==> id in s.expiredIds && exists r :: r in Records(s) && r.recordId == id)
      && (forall q, r :: q in Records(s) && r in Records(s) && q.recordId == r.recordId == id ==> q == r)
  {
    var w := Play(trust, Empty(tenantId, policy), commands);
    var s := w.store;
    PlayKeeps(trust, tenantId, policy, commands);
    hide HoldSafe, Grants, Holds;
    if id in s.reservedIds {
      assert id in Taken(s, false) && id in IdsOf(Records(s));
      var k :| k in s.runs && s.runs[k].completedAt.None? && id in s.runs[k].Candidates();
      assert Candidate(s.runs, k, id);
    }
    forall k | Candidate(s.runs, k, id) && s.runs[k].completedAt.None?
      ensures id in s.reservedIds
    {
      assert id in Taken(s, false);
    }
  }

  /** No identifier ever names two things: a record ever held, a hold ever placed, a grant and a run share none, and two
      records ever held under one identifier are the same record. */
  lemma IdentifiersNameOneThing(trust: Trust, tenantId: string, policy: Policy, commands: seq<Command>, q: Record,
                                r: Record, k: (string, string), h: LegalHold)
    requires
      var w := Play(trust, Empty(tenantId, policy), commands);
      q in w.ever && r in w.ever && h in Recorded(w.store.holdHistory, k)
    ensures
      var w := Play(trust, Empty(tenantId, policy), commands);
      && (q.recordId == r.recordId ==> q == r)
      && q.recordId !in w.store.grants && q.recordId !in w.store.runs && q.recordId != h.holdId
      && h.holdId !in w.store.grants && h.holdId !in w.store.runs && w.store.grants.Keys !! w.store.runs.Keys
  {
    var w := Play(trust, Empty(tenantId, policy), commands);
    PlayKeeps(trust, tenantId, policy, commands);
    hide Conserved, HoldSafe, Grants, Holds, Runs;
    HoldIdsPlaced(w.store.holdHistory, h.holdId);
    assert Placed(w.store.holdHistory, k, h.holdId);
    assert q.recordId in IdsOf(w.ever) && h.holdId in HoldIds(w.store.holdHistory);
  }

  // ----- holds -----

  /** In every reachable store, no receipt of a completed run falls after the placement and at or before
      the release of any hold ever recorded on the scope of any record the run deleted. */
  lemma NothingDeletedDuringAHold(trust: Trust, tenantId: string, policy: Policy, commands: seq<Command>, k: string,
                                  r: Record, i: int, a: Attestation)
    requires
      var w := Play(trust, Empty(tenantId, policy), commands);
      && k in w.store.runs && w.store.runs[k].completedAt.Some? && a in w.store.runs[k].receipts
      && r in w.ever && r.recordId in w.store.runs[k].Candidates()
      && Latest(History(w.store, (tenantId, r.scopeId)), i)
    ensures
      var hold := History(Play(trust, Empty(tenantId, policy), commands).store, (tenantId, r.scopeId))[i];
      a.deletedAt <= hold.placedAt || (hold.releasedAt.Some? && hold.releasedAt.value < a.deletedAt)
  {
    var w := Play(trust, Empty(tenantId, policy), commands);
    PlayKeeps(trust, tenantId, policy, commands);
    TenantNeverChanges(trust, Empty(tenantId, policy), commands);
    assert Clear(History(w.store, (w.store.tenantId, r.scopeId)), w.store.runs[k].receipts);
  }

  lemma StepKeepsTenant(trust: Trust, w: World, c: Command)
    ensures Step(trust, w, c).store.tenantId == w.store.tenantId
  {}

  lemma {:induction false} TenantNeverChanges(trust: Trust, start: Store, commands: seq<Command>)
    ensures Play(trust, start, commands).store.tenantId == start.tenantId
  {
    hide Step;
    if commands != [] {
      TenantNeverChanges(trust, start, commands[..|commands| - 1]);
      StepKeepsTenant(trust, Play(trust, start, commands[..|commands| - 1]), commands[|commands| - 1]);
    }
  }

  predicate CompletionOf(trust: Trust, s: Store, c: Command, id: string) {
    && c.CCompleteRun?
    && var result := CompleteRun(trust, s, c.id, c.receipts, c.p, c.now).1;
       result.Ok? && result.value.completedAt.Some? && id in result.value.Candidates()
  }

  /** A record leaves the store only as a candidate of the run a completion just finished. */
  lemma OnlyCompletionRemoves(trust: Trust, w: World, c: Command, r: Record)
    requires r in Records(w.store) && r !in Records(Next(trust, w.store, c))
    ensures CompletionOf(trust, w.store, c, r.recordId)
    ensures ValidateNow(w.store, c.now).None? && c.id in w.store.runs && w.store.runs[c.id].completedAt.None?
    ensures r.recordId in w.store.runs[c.id].Candidates()
    ensures !Blocked(Tick(w.store, c.now), r.recordId, c.receipts, c.now)
  {
    hide VerifyRun, ExactlyCovers, ReceiptBound, Blocked;
    var s := w.store;
    if c.CCompleteRun? {
      if ValidateNow(s, c.now).None? && c.id in s.runs && s.runs[c.id].completedAt.None? {
        CommitRecords(Tick(s, c.now), Completed(trust, s.runs[c.id], c.receipts, c.now));
      }
    } else {
      NextExtendsLists(trust, s, c);
    }
  }

  lemma NextExtendsLists(trust: Trust, s: Store, c: Command)
    requires !c.CCompleteRun?
    ensures s.operational <= Next(trust, s, c).operational
    ensures s.audits <= Next(trust, s, c).audits
  {
  }

  /** On a held scope every candidate record blocks its run. */
  lemma HeldCandidateBlocks(trust: Trust, w: World, k: string, r: Record, receipts: seq<Attestation>, now: Instant)
    requires Inv(trust, w) && w.store.lastNow == Some(now)
    requires k in w.store.runs && w.store.runs[k].completedAt.None?
    requires r in w.ever && r.recordId in w.store.runs[k].Candidates()
    requires
      var key := (w.store.tenantId, r.scopeId);
      key in w.store.holds && w.store.holds[key].releasedAt.None?
    ensures Blocked(w.store, r.recordId, receipts, now)
  {
    var key := (w.store.tenantId, r.scopeId);
    CurrentHoldKnown(w, key);
    assert key.1 in HeldScopes(w.store, now);
    CandidateScopeFound(trust, w, k, r);
  }

  /** While a hold on a scope is unreleased, no operation removes a record of that scope. */
  lemma ActiveHoldKeepsRecords(trust: Trust, w: World, c: Command, r: Record)
    requires Reached(trust, w) && r in Records(w.store)
    requires
      var key := (w.store.tenantId, r.scopeId);
      key in w.store.holds && w.store.holds[key].releasedAt.None?
    ensures r in Records(Next(trust, w.store, c))
  {
    hide Reached;
    ReachedKeeps(trust, w);
    if r !in Records(Next(trust, w.store, c)) {
      OnlyCompletionRemoves(trust, w, c, r);
      TickKeeps(trust, w, c.now);
      HeldCandidateBlocks(trust, At(w, Tick(w.store, c.now)), c.id, r, c.receipts, c.now);
      assert false;
    }
  }

  // ----- conservation and finality -----

  /** A record that is gone was deleted by exactly one run: one that is complete and verifies, whose cutoff
      lies the full retention period after the record, with exactly one receipt per system for it, each
      verified, bound to the run's challenge and manifest and dated after the cutoff. */
  lemma GoneMeansAccountedFor(trust: Trust, w: World, r: Record) returns (k: string)
    requires Reached(trust, w) && r in w.ever && r !in Records(w.store)
    ensures k in w.store.runs && w.store.runs[k].completedAt.Some? && VerifyRun(trust, w.store.runs[k])
    ensures r.recordId in w.store.runs[k].Candidates()
    ensures forall l :: l in w.store.runs && r.recordId in w.store.runs[l].Candidates() ==> l == k
    ensures r.occurredAt + (if r.Audit? then AUDIT_DAYS else OPERATIONAL_DAYS) * DAY <= w.store.runs[k].cutoffAt
    ensures forall system :: system in REQUIRED_SYSTEMS ==>
              exists i :: OnlyReceipt(w.store.runs[k].receipts, i, r.recordId, system)
    ensures forall a :: a in w.store.runs[k].receipts ==>
              trust.verify(a) && a.challenge == w.store.runs[k].challenge
              && a.manifestDigest == w.store.runs[k].manifestDigest && w.store.runs[k].cutoffAt < a.deletedAt
  {
    hide Reached;
    ReachedKeeps(trust, w);
    var s := w.store;
    assert r.recordId in Taken(s, true);
    k :| k in s.runs && s.runs[k].completedAt.Some? && r.recordId in s.runs[k].Candidates();
    var run := s.runs[k];
    assert Candidate(s.runs, k, r.recordId);
    forall l | l in s.runs && r.recordId in s.runs[l].Candidates() ensures l == k {
      assert Candidate(s.runs, l, r.recordId);
    }
    assert RunSound(w, run);
    if r.recordId in run.operationalIds {
      assert Aged(w.ever, r.recordId, false, run.cutoffAt, OPERATIONAL_DAYS);
    } else {
      assert Aged(w.ever, r.recordId, true, run.cutoffAt, AUDIT_DAYS);
    }
    forall system | system in REQUIRED_SYSTEMS ensures exists i :: OnlyReceipt(run.receipts, i, r.recordId, system) {
      CoveredOnce(run.receipts, run.Candidates(), r.recordId, system);
    }
  }

  /** Entry `i` is the one receipt for this record on this system. */
  predicate OnlyReceipt(receipts: seq<Attestation>, i: int, id: string, system: System) {
    && 0 <= i < |receipts| && receipts[i].recordId == id && receipts[i].system == system
    && forall j :: 0 <= j < |receipts| && receipts[j].recordId == id && receipts[j].system == system ==> j == i
  }

  lemma CoveredOnce(receipts: seq<Attestation>, ids: seq<string>, id: string, system: System)
    requires ExactlyCovers(receipts, ids) && id in ids && system in REQUIRED_SYSTEMS
    ensures exists i :: OnlyReceipt(receipts, i, id, system)
  {
    var coordinates := ReceiptCoordinates(receipts);
    assert (id, system) in Coordinates(ids);
    assert (id, system) in Elements(coordinates);
    var i :| 0 <= i < |coordinates| && coordinates[i] == (id, system);
    assert OnlyReceipt(receipts, i, id, system) by {
      forall j | 0 <= j < |receipts| && receipts[j].recordId == id && receipts[j].system == system ensures j == i {
        assert coordinates[j] == coordinates[i];
      }
    }
  }

  ghost predicate Preserves(s: Store, t: Store, k: string) { k in s.runs && k in t.runs && t.runs[k] == s.runs[k] }

  lemma ResumePreserves(s: Store, id: string, p: Principal, now: Instant, k: string)
    requires k in s.runs && s.runs[k].completedAt.Some? && forall j :: j in s.runs ==> s.runs[j].runId == j
    ensures Preserves(s, ResumeRun(s, id, p, now).0, k)
  {
  }

  lemma CompletePreserves(trust: Trust, s: Store, id: string, receipts: seq<Attestation>, p: Principal, now: Instant,
                          k: string)
    requires k in s.runs && s.runs[k].completedAt.Some? && forall j :: j in s.runs ==> s.runs[j].runId == j
    ensures Preserves(s, CompleteRun(trust, s, id, receipts, p, now).0, k)
  {
  }

  /** Once completed, a run's stored value never changes and never stops verifying. */
  lemma CompletedRunIsFinal(trust: Trust, w: World, c: Command, k: string)
    requires Reached(trust, w) && k in w.store.runs && w.store.runs[k].completedAt.Some?
    ensures Preserves(w.store, Next(trust, w.store, c), k)
    ensures VerifyRun(trust, w.store.runs[k])
  {
    hide Reached;
    ReachedKeeps(trust, w);
    FinalStep(trust, w, c, k);
  }

  lemma FinalStep(trust: Trust, w: World, c: Command, k: string)
    requires Inv(trust, w) && k in w.store.runs && w.store.runs[k].completedAt.Some?
    ensures Preserves(w.store, Next(trust, w.store, c), k)
    ensures VerifyRun(trust, w.store.runs[k])
  {
    if c.CResumeRun? {
      ResumePreserves(w.store, c.id, c.p, c.now, k);
    } else if c.CCompleteRun? {
      CompletePreserves(trust, w.store, c.id, c.receipts, c.p, c.now, k);
    } else {
      OthersPreserve(trust, w.store, c, k);
    }
  }

  lemma OthersPreserve(trust: Trust, s: Store, c: Command, k: string)
    requires k in s.runs && s.runs.Keys <= s.usedIds && !c.CResumeRun? && !c.CCompleteRun?
    ensures Preserves(s, Next(trust, s, c), k)
  {
  }

  lemma PlayLast(trust: Trust, start: Store, commands: seq<Command>, c: Command)
    ensures Play(trust, start, commands + [c]) == Step(trust, Play(trust, start, commands), c)
  {
    assert (commands + [c])[..|commands + [c]| - 1] == commands;
  }

  lemma StepStore(trust: Trust, w: World, c: Command)
    ensures Step(trust, w, c).store == Next(trust, w.store, c)
  {
  }

  /** After these commands the run stored under `k` is `run`, complete and verifying. */
  ghost predicate FinishedAs(trust: Trust, tenantId: string, policy: Policy, commands: seq<Command>, k: string,
                             run: Run)
  {
    var s := Play(trust, Empty(tenantId, policy), commands).store;
    k in s.runs && s.runs[k] == run && run.completedAt.Some? && VerifyRun(trust, run)
  }

  /** Every run that is ever complete verifies. */
  lemma CompletedVerify(trust: Trust, tenantId: string, policy: Policy, commands: seq<Command>, k: string)
    requires
      var s := Play(trust, Empty(tenantId, policy), commands).store;
      k in s.runs && s.runs[k].completedAt.Some?
    ensures FinishedAs(trust, tenantId, policy, commands, k,
        Play(trust, Empty(tenantId, policy), commands).store.runs[k])
  {
    PlayKeeps(trust, tenantId, policy, commands);
  }

  lemma FinishedSurvives(trust: Trust, tenantId: string, policy: Policy, commands: seq<Command>, c: Command, k: string,
                         run: Run)
    requires FinishedAs(trust, tenantId, policy, commands, k, run)
    ensures FinishedAs(trust, tenantId, policy, commands + [c], k, run)
  {
    var w := Play(trust, Empty(tenantId, policy), commands);
    PlayKeeps(trust, tenantId, policy, commands);
    FinalStep(trust, w, c, k);
    PlayLast(trust, Empty(tenantId, policy), commands, c);
    StepStore(trust, w, c);
  }

  /** A completed run is the same run, and verifies, in every later state of every run of the store. */
  lemma {:induction false} CompletedForever(trust: Trust, tenantId: string, policy: Policy, before: seq<Command>,
                                            after: seq<Command>, k: string, run: Run)
    requires FinishedAs(trust, tenantId, policy, before, k, run)
    ensures FinishedAs(trust, tenantId, policy, before + after, k, run)
    decreases |after|
  {
    hide FinishedAs;
    if after == [] {
      assert before + after == before;
    } else {
      FinishedSurvives(trust, tenantId, policy, before, after[0], k, run);
      CompletedForever(trust, tenantId, policy, before + [after[0]], after[1..], k, run);
      assert before + after == before + [after[0]] + after[1..];
    }
  }

  // ----- break-glass -----

  /** Every use that ever succeeded was by the requester of a grant that someone else had approved, exactly
      once, before its expiry, at the authority's epoch of that moment, and that nobody had revoked or expired. */
  lemma EveryUseWasLawful(trust: Trust, tenantId: string, policy: Policy, commands: seq<Command>, j: int)
    returns (q: int, i: int)
    requires
      var trace := Play(trust, Empty(tenantId, policy), commands).trace;
      0 <= j < |trace| && trace[j].Used?
    ensures
      var trace := Play(trust, Empty(tenantId, policy), commands).trace;
      && 0 <= q < j && 0 <= i < j
      && trace[q].Requested? && trace[q].grantId == trace[j].grantId && trace[q].actor == trace[j].actor
      && trace[q].epoch == trace[j].epoch && trace[j].at < trace[q].expiresAt
      && trace[i].Stepped? && trace[i].kind == Approve && trace[i].grantId == trace[j].grantId
      && trace[i].actor != trace[j].actor
      && (forall n :: 0 <= n < |trace| && n != i && trace[n].grantId == trace[j].grantId && trace[n].Stepped? ==>
            trace[n].kind != Approve && n > j)
      && (forall n :: 0 <= n < |trace| && trace[n].grantId == trace[j].grantId && trace[n].Requested? ==> n == q)
  {
    var trace := Play(trust, Empty(tenantId, policy), commands).trace;
    PlayKeeps(trust, tenantId, policy, commands);
    var m := trace[j];
    assert Lawful(trace[..j], m);
    var expiresAt :| RequestedAs(trace[..j], m.grantId, m.actor, expiresAt, m.epoch) && m.at < expiresAt;
    q :| 0 <= q < j && trace[..j][q] == Requested(m.grantId, m.actor, expiresAt, m.epoch);
    i :| 0 <= i < j && trace[..j][i].Stepped? && trace[..j][i].kind == Approve && trace[..j][i].grantId == m.grantId
         && trace[..j][i].actor != m.actor;
    forall n | 0 <= n < |trace| && n != i && trace[n].grantId == m.grantId && trace[n].Stepped?
      ensures trace[n].kind != Approve && n > j
    {
      StepsAreSeparate(trace, i, n, j);
    }
    forall n | 0 <= n < |trace| && trace[n].grantId == m.grantId && trace[n].Requested? ensures n == q {
      RequestsAreFirst(trace, n, q);
    }
  }

  /** What two steps about one grant, in this order, can be. */
  lemma InOrder(trace: seq<Moment>, n: int, q: int)
    requires LawfulTrace(trace) && 0 <= n < q < |trace| && trace[n].grantId == trace[q].grantId
    ensures !trace[q].Requested?
    ensures trace[n].Stepped? ==> trace[n].kind == Approve
    ensures !(trace[n].Stepped? && trace[q].Stepped? && trace[q].kind == Approve)
  {
    var before := trace[..q];
    assert before[n] == trace[n];
    assert Lawful(before, trace[q]);
  }

  lemma RequestsAreFirst(trace: seq<Moment>, n: int, q: int)
    requires LawfulTrace(trace) && 0 <= n < |trace| && 0 <= q < |trace|
    requires trace[n].Requested? && trace[q].Requested? && trace[n].grantId == trace[q].grantId
    ensures n == q
  {
    if n < q { InOrder(trace, n, q); } else if q < n { InOrder(trace, q, n); }
  }

  /** Around a use at `j`, an approval at `i` is the only one and no closing step precedes the use. */
  lemma StepsAreSeparate(trace: seq<Moment>, i: int, n: int, j: int)
    requires LawfulTrace(trace) && 0 <= i < j < |trace| && 0 <= n < |trace| && n != i
    requires trace[i].Stepped? && trace[i].kind == Approve && trace[j].Used?
    requires trace[n].Stepped? && trace[n].grantId == trace[i].grantId == trace[j].grantId
    ensures trace[n].kind != Approve && n > j
  {
    if n < i { InOrder(trace, n, i); } else { InOrder(trace, i, n); }
    if n < j { InOrder(trace, n, j); }
  }

  /** Revocation and expiry are final and exclude each other: after either, nothing more happens to the grant. */
  lemma ClosingIsAbsorbing(trust: Trust, tenantId: string, policy: Policy, commands: seq<Command>, i: int, j: int)
    requires
      var trace := Play(trust, Empty(tenantId, policy), commands).trace;
      0 <= i < j < |trace| && trace[i].Stepped? && trace[i].kind != Approve
    ensures
      var trace := Play(trust, Empty(tenantId, policy), commands).trace;
      trace[j].grantId != trace[i].grantId
  {
    var trace := Play(trust, Empty(tenantId, policy), commands).trace;
    PlayKeeps(trust, tenantId, policy, commands);
    if trace[i].grantId == trace[j].grantId { InOrder(trace, i, j); }
  }
}
