/** The hold claim with the placement instant included: which operations keep it, and of exactly which runs it is true.
    Completion rejects a deletion at the very instant of a hold it can see, but a hold may still be placed at the
    instant of an earlier deletion (retention.py:383-411, 592-682, 1119-1204). */
module RetentionClosed {
  import opened RetentionModels
  import opened RetentionOps
  import opened RetentionSafety
  import opened RetentionTheorems

  /** No receipt falls inside any hold of this history, the placement instant included. */
  ghost predicate ClosedClear(history: seq<LegalHold>, receipts: seq<Attestation>) {
    forall i, a :: Latest(history, i) && a in receipts ==> !WithinHold(history[i], a.deletedAt)
  }

  /** The hold claim with the placement instant included, as the completion check itself has it. */
  ghost predicate ClosedSafe(w: World) {
    forall k, r | k in w.store.runs && w.store.runs[k].completedAt.Some? && r in w.ever
                  && r.recordId in w.store.runs[k].Candidates()
      :: ClosedClear(History(w.store, (w.store.tenantId, r.scopeId)), w.store.runs[k].receipts)
  }

  ghost predicate ReceiptAt(receipts: seq<Attestation>, at: Instant) {
    exists a :: a in receipts && a.deletedAt == at
  }

  /** A completed run already holds a receipt for this scope dated exactly now. */
  ghost predicate DeletedAtThisInstant(w: World, scopeId: string, now: Instant) {
    exists k, r :: k in w.store.runs && w.store.runs[k].completedAt.Some? && r in w.ever
      && r.recordId in w.store.runs[k].Candidates() && r.scopeId == scopeId && ReceiptAt(w.store.runs[k].receipts, now)
  }

  lemma ClosedClearExtends(history: seq<LegalHold>, h: LegalHold, receipts: seq<Attestation>)
    requires h.releasedAt.None?
    requires forall i :: 0 <= i < |history| ==> history[i].holdId != h.holdId
    requires forall a :: a in receipts ==> a.deletedAt <= h.placedAt
    ensures ClosedClear(history + [h], receipts)
            <==> ClosedClear(history, receipts) && !ReceiptAt(receipts, h.placedAt)
  {
    var grown := history + [h];
    forall i ensures Latest(grown, i) <==> Latest(history, i) || i == |history| {
      assert forall j :: 0 <= j < |history| ==> grown[j] == history[j];
      if Latest(history, i) {
        assert forall j :: i < j < |grown| ==> grown[j].holdId != grown[i].holdId;
      }
    }
    if ClosedClear(grown, receipts) {
      assert Latest(grown, |history|);
      forall i, a | Latest(history, i) && a in receipts ensures !WithinHold(history[i], a.deletedAt) {
        assert Latest(grown, i) && grown[i] == history[i];
      }
    }
    if ClosedClear(history, receipts) && !ReceiptAt(receipts, h.placedAt) {
      forall i, a | Latest(grown, i) && a in receipts ensures !WithinHold(grown[i], a.deletedAt) {
        if i < |history| { assert Latest(history, i) && grown[i] == history[i]; }
      }
    }
  }

  function PlaceEvent(c: HoldPlace, p: Principal, now: Instant): Event {
    Event(c.eventId, HoldPlaced, p, c.holdId, c.scopeId, HoldState(c.caseId, c.authority, 1), now)
  }

  lemma PlaceHoldShape(trust: Trust, s: Store, c: HoldPlace, p: Principal, now: Instant)
    requires PlaceHold(trust, s, c, p, now).1.Ok?
    ensures
      var t := PlaceHold(trust, s, c, p, now).0;
      var x := AuditOf(trust, Tick(s, now), PlaceEvent(c, p, now));
      && t.runs == s.runs && t.tenantId == s.tenantId && x.recordId !in s.usedIds && c.holdId !in s.usedIds
      && t.operational == s.operational && t.audits == s.audits + [x]
      && t.holdHistory == s.holdHistory[(s.tenantId, c.scopeId) :=
           History(s, (s.tenantId, c.scopeId)) + [NewHold(s, c, now)]]
      && (s.lastNow.Some? ==> s.lastNow.value <= now)
  {
  }

  /** What one placement means for one run and one record. */
  lemma PlacingForRun(trust: Trust, w: World, c: HoldPlace, p: Principal, now: Instant, k: string, r: Record)
    requires Inv(trust, w) && PlaceHold(trust, w.store, c, p, now).1.Ok?
    requires k in w.store.runs && w.store.runs[k].completedAt.Some? && r in w.ever
    requires r.recordId in w.store.runs[k].Candidates()
    ensures
      var s, t, key := w.store, PlaceHold(trust, w.store, c, p, now).0, (w.store.tenantId, r.scopeId);
      ClosedClear(History(t, key), s.runs[k].receipts)
      <==> ClosedClear(History(s, key), s.runs[k].receipts)
           && !(r.scopeId == c.scopeId && ReceiptAt(s.runs[k].receipts, now))
  {
    hide Conserved, HoldSafe, Grants, UniqueIds, Distinct;
    var s := w.store;
    var key := (s.tenantId, r.scopeId);
    PlaceHoldShape(trust, s, c, p, now);
    if r.scopeId == c.scopeId {
      var history := History(s, key);
      forall i | 0 <= i < |history| ensures history[i].holdId != c.holdId {
        HoldIdsPlaced(s.holdHistory, history[i].holdId);
        assert Placed(s.holdHistory, key, history[i].holdId);
      }
      assert VerifyRun(trust, s.runs[k]) && RunSound(w, s.runs[k]);
      ClosedClearExtends(history, NewHold(s, c, now), s.runs[k].receipts);
    }
  }

  lemma PlacingStep(trust: Trust, w: World, c: HoldPlace, p: Principal, now: Instant)
    requires Inv(trust, w) && PlaceHold(trust, w.store, c, p, now).1.Ok?
    ensures ClosedSafe(At(w, PlaceHold(trust, w.store, c, p, now).0))
            <==> ClosedSafe(w) && !DeletedAtThisInstant(w, c.scopeId, now)
  {
    hide Holds, HoldSafe, Grants, Conserved, ClosedClear;
    var s := w.store;
    var t := PlaceHold(trust, s, c, p, now).0;
    var v := At(w, t);
    PlaceHoldShape(trust, s, c, p, now);
    forall k, r: Record | k in s.runs && r.recordId in s.runs[k].Candidates() && r in v.ever ensures r in w.ever {
      assert r !in w.ever ==> r == t.audits[|s.audits|];
      CandidatesWereRecords(trust, w, k, r.recordId);
    }
    forall k, r | k in s.runs && s.runs[k].completedAt.Some? && r in w.ever && r.recordId in s.runs[k].Candidates()
      ensures ClosedClear(History(t, (t.tenantId, r.scopeId)), s.runs[k].receipts)
        <==> ClosedClear(History(s, (s.tenantId, r.scopeId)), s.runs[k].receipts)
             && !(r.scopeId == c.scopeId && ReceiptAt(s.runs[k].receipts, now))
    {
      PlacingForRun(trust, w, c, p, now, k, r);
    }
    ClosedSafeStep(w, v, c.scopeId, now);
  }

  lemma ClosedSafeStep(w: World, v: World, scopeId: string, now: Instant)
    requires v.store.runs == w.store.runs && v.store.tenantId == w.store.tenantId && w.ever <= v.ever
    requires forall k, r: Record | k in w.store.runs && r.recordId in w.store.runs[k].Candidates() && r in v.ever
               :: r in w.ever
    requires forall k, r | k in w.store.runs && w.store.runs[k].completedAt.Some? && r in w.ever
                           && r.recordId in w.store.runs[k].Candidates()
      :: ClosedClear(History(v.store, (v.store.tenantId, r.scopeId)), w.store.runs[k].receipts)
         <==> ClosedClear(History(w.store, (w.store.tenantId, r.scopeId)), w.store.runs[k].receipts)
              && !(r.scopeId == scopeId && ReceiptAt(w.store.runs[k].receipts, now))
    ensures ClosedSafe(v) <==> ClosedSafe(w) && !DeletedAtThisInstant(w, scopeId, now)
  {
  }

  // ----- everything but a placement -----

  /** The completed runs of both stores are the same. */
  ghost predicate SameDone(s: Store, t: Store) {
    && (forall k :: k in s.runs && s.runs[k].completedAt.Some? ==> k in t.runs && t.runs[k] == s.runs[k])
    && (forall k :: k in t.runs && t.runs[k].completedAt.Some? ==> k in s.runs && t.runs[k] == s.runs[k])
  }

  /** A record that came later is no candidate of an earlier run. */
  lemma NoNewCandidate(trust: Trust, w: World, v: World, k: string, r: Record)
    requires Inv(trust, w) && Inv(trust, v) && w.ever <= v.ever && r in v.ever
    requires k in w.store.runs && r.recordId in w.store.runs[k].Candidates()
    ensures r in w.ever
  {
    hide Holds, HoldSafe, Grants, Conserved;
    CandidatesWereRecords(trust, w, k, r.recordId);
    var x :| x in w.ever && x.recordId == r.recordId;
    assert x in v.ever;
  }

  /** The claim depends on the completed runs and, for each, on the histories of its scopes. */
  lemma ClosedFrame(trust: Trust, w: World, v: World)
    requires Inv(trust, w) && Inv(trust, v) && w.ever <= v.ever && v.store.tenantId == w.store.tenantId
    requires SameDone(w.store, v.store)
    requires forall k, r | k in w.store.runs && w.store.runs[k].completedAt.Some? && r in w.ever
                           && r.recordId in w.store.runs[k].Candidates()
      :: ClosedClear(History(v.store, (v.store.tenantId, r.scopeId)), w.store.runs[k].receipts)
         <==> ClosedClear(History(w.store, (w.store.tenantId, r.scopeId)), w.store.runs[k].receipts)
    ensures ClosedSafe(v) <==> ClosedSafe(w)
  {
    hide Inv, ClosedClear;
    forall k, r: Record | k in w.store.runs && r.recordId in w.store.runs[k].Candidates() && r in v.ever
      ensures r in w.ever
    {
      NoNewCandidate(trust, w, v, k, r);
    }
  }

  lemma HistoriesStay(trust: Trust, s: Store, c: Command)
    requires !c.CPlaceHold? && !c.CReleaseHold?
    ensures Next(trust, s, c).holdHistory == s.holdHistory
  {
    hide AppendOperational, AppendAudit, ReadAudit, ChangePolicy, Expire, StartRun, ResumeRun, CompleteRun,
         RequestBreakGlass, MoveGrant, UseBreakGlass;
    match c
    case CAppendOperational(_, _, _) => RecordsOnly(trust, s, c);
    case CAppendAudit(_, _, _) => RecordsOnly(trust, s, c);
    case CReadAudit(_, _, _, _) => RecordsOnly(trust, s, c);
    case CChangePolicy(_, _, _, _) => RecordsOnly(trust, s, c);
    case CRequest(_, _, _, _) => GrantsOnly(trust, s, c);
    case CMove(_, _, _, _, _) => GrantsOnly(trust, s, c);
    case CUse(_, _, _, _) => GrantsOnly(trust, s, c);
    case CRead(_, _) =>
    case _ => RunsOnly(trust, s, c);
  }

  lemma RecordsOnly(trust: Trust, s: Store, c: Command)
    requires c.CAppendOperational? || c.CAppendAudit? || c.CReadAudit? || c.CChangePolicy?
    ensures Next(trust, s, c).holdHistory == s.holdHistory
  {
    hide Guard, Authorize, ValidateNow, RequireUnused, AuditOf, AuditValid, PolicyEvidenceMatches, FindRecord;
  }

  lemma GrantsOnly(trust: Trust, s: Store, c: Command)
    requires c.CRequest? || c.CMove? || c.CUse?
    ensures Next(trust, s, c).holdHistory == s.holdHistory
  {
    hide RequestBreakGlass, MoveGrant, UseBreakGlass;
  }

  lemma RunsOnly(trust: Trust, s: Store, c: Command)
    requires c.CExpire? || c.CStartRun? || c.CResumeRun? || c.CCompleteRun?
    ensures Next(trust, s, c).holdHistory == s.holdHistory
  {
    hide Expire, StartRun, ResumeRun, CompleteRun;
  }

  lemma RunsStay(trust: Trust, w: World, c: Command)
    requires Inv(trust, w) && !c.CCompleteRun?
    ensures SameDone(w.store, Next(trust, w.store, c))
  {
    hide Holds, HoldSafe, Grants, Conserved;
    if c.CStartRun? {
      StartingAdds(trust, w.store, c.id, c.key, c.challenge, c.p, c.now);
    }
  }

  lemma StartingAdds(trust: Trust, s: Store, id: string, key: string, challenge: string, p: Principal, now: Instant)
    requires s.runs.Keys <= s.usedIds
    ensures SameDone(s, StartRun(trust, s, id, key, challenge, p, now).0)
  {}

  lemma StepGrows(trust: Trust, w: World, c: Command)
    requires Inv(trust, w)
    ensures
      var v := Step(trust, w, c);
      && Inv(trust, v) && w.ever <= v.ever && v.store == Next(trust, w.store, c)
      && v.store.tenantId == w.store.tenantId
  {
    hide Inv;
    StepKeeps(trust, w, c);
    StepKeepsTenant(trust, w, c);
    StepStore(trust, w, c);
  }

  lemma QuietKeeps(trust: Trust, w: World, c: Command)
    requires Inv(trust, w) && !c.CPlaceHold? && !c.CReleaseHold? && !c.CCompleteRun?
    ensures ClosedSafe(Step(trust, w, c)) <==> ClosedSafe(w)
  {
    hide Inv, Step, Next, ClosedSafe, SameDone;
    StepGrows(trust, w, c);
    HistoriesStay(trust, w.store, c);
    RunsStay(trust, w, c);
    ClosedFrame(trust, w, Step(trust, w, c));
  }

  // ----- completion -----

  /** What a completion that deletes did. */
  ghost predicate Committing(trust: Trust, w: World, c: Command) {
    && c.CCompleteRun? && c.id in w.store.runs && w.store.runs[c.id].completedAt.None?
    && ValidateNow(w.store, c.now).None?
    && (forall id :: id in w.store.runs[c.id].Candidates() ==> !Blocked(Tick(w.store, c.now), id, c.receipts, c.now))
    && Next(trust, w.store, c) == Commit(Tick(w.store, c.now), Completed(trust, w.store.runs[c.id], c.receipts, c.now))
  }

  lemma CompletionCases(trust: Trust, w: World, c: Command)
    requires Inv(trust, w) && c.CCompleteRun?
    ensures Committing(trust, w, c) || SameDone(w.store, Next(trust, w.store, c))
  {
    hide Ids, Holds, HoldSafe, Grants, Conserved, CompleteRun, Committing, SameDone;
    assert forall k :: k in w.store.runs ==> w.store.runs[k].runId == k;
    StoreCompletes(trust, w, c);
    assert Next(trust, w.store, c) == CompleteRun(trust, w.store, c.id, c.receipts, c.p, c.now).0;
  }

  lemma StoreCompletes(trust: Trust, w: World, c: Command)
    requires c.CCompleteRun? && forall k :: k in w.store.runs ==> w.store.runs[k].runId == k
    ensures Committing(trust, w, c) || SameDone(w.store, CompleteRun(trust, w.store, c.id, c.receipts, c.p, c.now).0)
  {
    hide CompleteIncomplete, Blocked, Commit, Completed, Authorize, CompletionDigest;
    var s, t := w.store, Tick(w.store, c.now);
    if c.id in s.runs && s.runs[c.id].completedAt.None? {
      IncompleteCases(trust, t, s.runs[c.id], c.receipts, c.now);
    }
  }

  lemma IncompleteCases(trust: Trust, t: Store, run: Run, receipts: seq<Attestation>, now: Instant)
    requires run.runId in t.runs && t.runs[run.runId] == run && run.completedAt.None?
    ensures
      var u := CompleteIncomplete(trust, t, run, receipts, now).0;
      || SameDone(t, u)
      || (&& u == Commit(t, Completed(trust, run, receipts, now))
          && forall id :: id in run.Candidates() ==> !Blocked(t, id, receipts, now))
  {
    hide Blocked, ExactlyCovers, ReceiptBound, Commit, Completed;
  }

  /** Whatever a completion deletes, its receipts fall in no hold that its records' scopes ever had. */
  lemma CommittedIsClear(trust: Trust, w: World, c: Command, r: Record)
    requires Inv(trust, w) && Committing(trust, w, c)
    requires r in w.ever && r.recordId in w.store.runs[c.id].Candidates()
    ensures ClosedClear(History(w.store, (w.store.tenantId, r.scopeId)), c.receipts)
  {
    hide Inv, WithinHold, Next;
    var t := Tick(w.store, c.now);
    TickKeeps(trust, w, c.now);
    CandidateScopeFound(trust, At(w, t), c.id, r);
    assert !Blocked(t, r.recordId, c.receipts, c.now);
    assert !DeletionIntersectsHold(t, r.scopeId, c.receipts);
    assert History(t, (t.tenantId, r.scopeId)) == History(w.store, (w.store.tenantId, r.scopeId));
  }

  lemma CompletingKeeps(trust: Trust, w: World, c: Command)
    requires Inv(trust, w) && c.CCompleteRun?
    ensures ClosedSafe(Step(trust, w, c)) <==> ClosedSafe(w)
  {
    hide Inv, Step, Next, ClosedClear, Blocked, Committing;
    StepGrows(trust, w, c);
    HistoriesStay(trust, w.store, c);
    CompletionCases(trust, w, c);
    var v := Step(trust, w, c);
    if SameDone(w.store, v.store) {
      ClosedFrame(trust, w, v);
    } else {
      CommittingKeeps(trust, w, v, c);
    }
  }

  lemma CommittingKeeps(trust: Trust, w: World, v: World, c: Command)
    requires Inv(trust, w) && Inv(trust, v) && w.ever <= v.ever && Committing(trust, w, c)
    requires v.store == Next(trust, w.store, c) && v.store.tenantId == w.store.tenantId
    ensures ClosedSafe(v) <==> ClosedSafe(w)
  {
    hide Next, ClosedClear, Blocked, Ids, Holds, HoldSafe, Grants, Conserved, ManifestDigest, VerifyRun;
    var s, t := w.store, v.store;
    assert s.runs[c.id].runId == c.id;
    forall k, r | k in t.runs && t.runs[k].completedAt.Some? && r in v.ever && r.recordId in t.runs[k].Candidates()
      ensures k in s.runs && r in w.ever && r.recordId in s.runs[k].Candidates()
      ensures k != c.id ==> t.runs[k] == s.runs[k]
      ensures k == c.id ==>
                ClosedClear(History(t, (t.tenantId, r.scopeId)), t.runs[k].receipts)
    {
      NoNewCandidate(trust, w, v, k, r);
      if k == c.id {
        CommittedIsClear(trust, w, c, r);
      }
    }
  }

  // ----- release -----

  /** Releasing a hold changes nothing for a receipt that was not already strictly inside it. */
  lemma ReleasedClear(history: seq<LegalHold>, h: LegalHold, receipts: seq<Attestation>)
    requires history != [] && Closes(history[|history| - 1], h) && h.placedAt <= h.releasedAt.value
    requires Clear(history, receipts)
    requires forall i :: 0 <= i < |history| - 1 ==> history[i].holdId != h.holdId
    ensures ClosedClear(history + [h], receipts) <==> ClosedClear(history, receipts)
  {
    var n, grown := |history|, history + [h];
    assert forall j :: 0 <= j < n ==> grown[j] == history[j];
    assert grown[n] == h && Latest(grown, n) && Latest(history, n - 1);
    forall i | 0 <= i < n - 1
      ensures Latest(grown, i) <==> Latest(history, i)
    {
      if Latest(history, i) {
        assert forall j :: i < j < |grown| ==> grown[j].holdId != grown[i].holdId;
      }
      if Latest(grown, i) {
        assert forall j :: i < j < n ==> history[j].holdId == grown[j].holdId;
      }
    }
    assert !Latest(grown, n - 1) by {
      assert grown[n].holdId == grown[n - 1].holdId;
    }
    forall a | a in receipts
      ensures WithinHold(h, a.deletedAt) <==> WithinHold(history[n - 1], a.deletedAt)
    {
      assert !StrictlyWithin(history[n - 1], a.deletedAt);
    }
    if ClosedClear(grown, receipts) {
      forall i, a | Latest(history, i) && a in receipts
        ensures !WithinHold(history[i], a.deletedAt)
      {
        assert if i == n - 1 then Latest(grown, n) else Latest(grown, i);
      }
    }
    if ClosedClear(history, receipts) {
      forall i, a | Latest(grown, i) && a in receipts
        ensures !WithinHold(grown[i], a.deletedAt)
      {
        assert if i == n then Latest(history, n - 1) else Latest(history, i);
      }
    }
  }

  /** The current hold under this key was released by `h`. */
  ghost predicate ReleasedAt(s: Store, t: Store, key: (string, string), h: LegalHold) {
    && key in s.holds && s.holds[key].releasedAt.None? && HoldValid(h) && Closes(s.holds[key], h)
    && t.holdHistory == s.holdHistory[key := History(s, key) + [h]]
  }

  lemma ReleaseCases(trust: Trust, w: World, id: string, p: Principal, now: Instant, eventId: string, reason: string)
    returns (key: (string, string), h: LegalHold)
    requires Inv(trust, w)
    ensures
      var t := ReleaseHold(trust, w.store, id, p, now, eventId, reason).0;
      t.holdHistory == w.store.holdHistory || ReleasedAt(w.store, t, key, h)
  {
    hide Ids, Holds, Runs, Conserved, HoldSafe, Grants, AuditOf, AuditValid, HoldValid;
    var s, hold := w.store, FindHold(w.store, id);
    key, h := ("", ""), LegalHold("", "", "", 0, None, "", "", "", 1);
    if hold.Some? && hold.value.releasedAt.None? {
      var k :| k in HoldKeys(s, id) && s.holds[k] == hold.value;
      key, h := k, Released(hold.value, reason, now);
      CurrentHold(trust, w, k);
      assert key == (s.tenantId, hold.value.scopeId);
    }
  }

  lemma HistoryOfCurrent(trust: Trust, w: World, key: (string, string))
    requires Inv(trust, w) && key in w.store.holds
    ensures
      var history := History(w.store, key);
      && history != [] && history[|history| - 1] == w.store.holds[key]
      && forall i :: 0 <= i < |history| - 1 && w.store.holds[key].releasedAt.None? ==>
           history[i].holdId != w.store.holds[key].holdId
  {
    hide Ids, Runs, Conserved, HoldSafe, Grants;
    assert HistorySound(w.store, key, History(w.store, key));
  }

  lemma DoneIsClear(trust: Trust, w: World, k: string, r: Record)
    requires Inv(trust, w) && k in w.store.runs && w.store.runs[k].completedAt.Some? && r in w.ever
    requires r.recordId in w.store.runs[k].Candidates()
    ensures Clear(History(w.store, (w.store.tenantId, r.scopeId)), w.store.runs[k].receipts)
  {
    hide Ids, Holds, Runs, Conserved, Grants, Clear;
  }

  /** What one release means for the history of one scope. */
  lemma ReleasedForRun(trust: Trust, w: World, t: Store, key: (string, string), h: LegalHold, k: string, r: Record)
    requires Inv(trust, w) && ReleasedAt(w.store, t, key, h)
    requires k in w.store.runs && w.store.runs[k].completedAt.Some? && r in w.ever
    requires r.recordId in w.store.runs[k].Candidates()
    ensures
      var own := (w.store.tenantId, r.scopeId);
      ClosedClear(History(t, own), w.store.runs[k].receipts)
      <==> ClosedClear(History(w.store, own), w.store.runs[k].receipts)
  {
    hide Inv, Clear, ClosedClear;
    if (w.store.tenantId, r.scopeId) == key {
      HistoryOfCurrent(trust, w, key);
      DoneIsClear(trust, w, k, r);
      ReleasedClear(History(w.store, key), h, w.store.runs[k].receipts);
    }
  }

  lemma ReleasingKeeps(trust: Trust, w: World, c: Command)
    requires Inv(trust, w) && c.CReleaseHold?
    ensures ClosedSafe(Step(trust, w, c)) <==> ClosedSafe(w)
  {
    hide Inv, Step, ClosedClear, ReleaseHold, ReleasedAt;
    StepGrows(trust, w, c);
    RunsStay(trust, w, c);
    var v := Step(trust, w, c);
    var key, h := ReleaseCases(trust, w, c.id, c.p, c.now, c.eventId, c.reason);
    forall k, r | k in w.store.runs && w.store.runs[k].completedAt.Some? && r in w.ever
                  && r.recordId in w.store.runs[k].Candidates()
      ensures ClosedClear(History(v.store, (v.store.tenantId, r.scopeId)), w.store.runs[k].receipts)
         <==> ClosedClear(History(w.store, (w.store.tenantId, r.scopeId)), w.store.runs[k].receipts)
    {
      if v.store.holdHistory != w.store.holdHistory {
        ReleasedForRun(trust, w, v.store, key, h, k, r);
      }
    }
    ClosedFrame(trust, w, v);
  }

  // ----- placement -----

  lemma RefusedPlacementKeeps(trust: Trust, w: World, c: Command)
    requires Inv(trust, w) && c.CPlaceHold? && PlaceHold(trust, w.store, c.place, c.p, c.now).1.Err?
    ensures ClosedSafe(Step(trust, w, c)) <==> ClosedSafe(w)
  {
    hide Inv, Step, ClosedSafe, SameDone;
    StepGrows(trust, w, c);
    RunsStay(trust, w, c);
    assert Next(trust, w.store, c).holdHistory == w.store.holdHistory;
    ClosedFrame(trust, w, Step(trust, w, c));
  }

  lemma PlacementStep(trust: Trust, w: World, c: Command)
    requires Inv(trust, w) && c.CPlaceHold? && PlaceHold(trust, w.store, c.place, c.p, c.now).1.Ok?
    ensures ClosedSafe(Step(trust, w, c)) <==> ClosedSafe(w) && !DeletedAtThisInstant(w, c.place.scopeId, c.now)
  {
    hide Inv, PlaceHold, DeletedAtThisInstant;
    PlacingStep(trust, w, c.place, c.p, c.now);
    var u := At(w, PlaceHold(trust, w.store, c.place, c.p, c.now).0);
    assert Step(trust, w, c).store == u.store && Step(trust, w, c).ever == u.ever;
  }

  // ----- the theorems -----

  /** No operation but a placement makes or breaks the closed claim. */
  lemma OnlyPlacementMatters(trust: Trust, w: World, c: Command)
    requires Reached(trust, w) && !c.CPlaceHold?
    ensures ClosedSafe(Step(trust, w, c)) <==> ClosedSafe(w)
  {
    hide Inv, Step, ClosedSafe, Reached;
    ReachedKeeps(trust, w);
    OtherStep(trust, w, c);
  }

  lemma OtherStep(trust: Trust, w: World, c: Command)
    requires Inv(trust, w) && !c.CPlaceHold?
    ensures ClosedSafe(Step(trust, w, c)) <==> ClosedSafe(w)
  {
    hide Inv, Step, ClosedSafe;
    if c.CReleaseHold? {
      ReleasingKeeps(trust, w, c);
    } else if c.CCompleteRun? {
      CompletingKeeps(trust, w, c);
    } else {
      QuietKeeps(trust, w, c);
    }
  }

  /** Placing a hold keeps the closed claim exactly when nothing of its scope was deleted at that instant. */
  lemma PlacingKeepsClosedIff(trust: Trust, w: World, c: HoldPlace, p: Principal, now: Instant)
    requires Reached(trust, w) && PlaceHold(trust, w.store, c, p, now).1.Ok?
    ensures ClosedSafe(Step(trust, w, CPlaceHold(c, p, now)))
            <==> ClosedSafe(w) && !DeletedAtThisInstant(w, c.scopeId, now)
  {
    hide Inv, Step, ClosedSafe, Reached, PlaceHold, DeletedAtThisInstant;
    ReachedKeeps(trust, w);
    PlacementStep(trust, w, CPlaceHold(c, p, now));
  }

  /** The command at `n` places a hold on a scope of which something was deleted at that very instant. */
  ghost predicate TieAt(trust: Trust, start: Store, commands: seq<Command>, n: int) {
    && 0 <= n < |commands| && commands[n].CPlaceHold?
    && var w, c := Play(trust, start, commands[..n]), commands[n];
    && PlaceHold(trust, w.store, c.place, c.p, c.now).1.Ok?
    && DeletedAtThisInstant(w, c.place.scopeId, c.now)
  }

  ghost predicate NoTies(trust: Trust, start: Store, commands: seq<Command>) {
    forall n :: !TieAt(trust, start, commands, n)
  }

  lemma TiesOfPrefix(trust: Trust, start: Store, commands: seq<Command>, n: int)
    requires commands != [] && n < |commands| - 1
    ensures TieAt(trust, start, commands, n) <==> TieAt(trust, start, commands[..|commands| - 1], n)
  {
    hide Play, PlaceHold, DeletedAtThisInstant;
    if 0 <= n {
      assert commands[..|commands| - 1][..n] == commands[..n];
    }
  }

  /** A store keeps the closed claim exactly until a hold is placed on a scope at the instant of a deletion there: the
      claim holds after a run of commands if and only if none of them is such a placement. */
  lemma {:induction false} ClosedSafeIff(trust: Trust, tenantId: string, policy: Policy, commands: seq<Command>)
    ensures ClosedSafe(Play(trust, Empty(tenantId, policy), commands))
            <==> NoTies(trust, Empty(tenantId, policy), commands)
  {
    var start, m := Empty(tenantId, policy), |commands| - 1;
    if commands == [] {
      assert forall n :: !TieAt(trust, start, commands, n);
    } else {
      var before, c := commands[..m], commands[m];
      var w := Play(trust, start, before);
      ClosedSafeIff(trust, tenantId, policy, before);
      PlayKeeps(trust, tenantId, policy, before);
      LastStep(trust, start, commands);
    }
  }

  /** What the last command adds. */
  lemma LastStep(trust: Trust, start: Store, commands: seq<Command>)
    requires commands != [] && Inv(trust, Play(trust, start, commands[..|commands| - 1]))
    requires ClosedSafe(Play(trust, start, commands[..|commands| - 1]))
             <==> NoTies(trust, start, commands[..|commands| - 1])
    ensures ClosedSafe(Play(trust, start, commands)) <==> NoTies(trust, start, commands)
  {
    var m := |commands| - 1;
    var before, c := commands[..m], commands[m];
    var w := Play(trust, start, before);
    assert Play(trust, start, commands) == Step(trust, w, c);
    hide Inv, Step, ClosedSafe, PlaceHold, DeletedAtThisInstant, Play;
    if !c.CPlaceHold? {
      OtherStep(trust, w, c);
    } else if PlaceHold(trust, w.store, c.place, c.p, c.now).1.Ok? {
      PlacementStep(trust, w, c);
    } else {
      RefusedPlacementKeeps(trust, w, c);
    }
    assert TieAt(trust, start, commands, m) <==>
             c.CPlaceHold? && PlaceHold(trust, w.store, c.place, c.p, c.now).1.Ok?
             && DeletedAtThisInstant(w, c.place.scopeId, c.now);
    hide TieAt;
    forall n
      ensures TieAt(trust, start, commands, n)
              <==> TieAt(trust, start, before, n) || (n == m && TieAt(trust, start, commands, m))
    {
      if n < m {
        TiesOfPrefix(trust, start, commands, n);
      } else {
        NoTie(trust, start, before, n);
        if n > m { NoTie(trust, start, commands, n); }
      }
    }
  }

  lemma NoTie(trust: Trust, start: Store, commands: seq<Command>, n: int)
    requires n >= |commands|
    ensures !TieAt(trust, start, commands, n)
  {}
}
