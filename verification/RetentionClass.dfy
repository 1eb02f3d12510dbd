/** The store itself: one object whose operations update its fields in place (retention.py). Every
    method performs exactly the operation of RetentionOps and one step of RetentionSafety. */
module RetentionClass {
  import opened RetentionModels
  import opened RetentionOps
  import opened RetentionSafety

  lemma StartIsNext(trust: Trust, s: Store, id: string, key: string, challenge: string, p: Principal, now: Instant)
    ensures Next(trust, s, CStartRun(id, key, challenge, p, now)) == StartRun(trust, s, id, key, challenge, p, now).0
  {
  }

  lemma ChangeIsNext(trust: Trust, s: Store, c: PolicyChange, evidence: Option<AuditRecord>, p: Principal, now: Instant)
    ensures Next(trust, s, CChangePolicy(c, evidence, p, now))
        == RetentionOps.ChangePolicy(trust, s, c, evidence, p, now).0
  {}

  lemma MoveIsNext(trust: Trust, s: Store, kind: Transition, id: string, p: Principal, now: Instant, eventId: string)
    ensures Next(trust, s, CMove(kind, id, p, now, eventId)) == MoveGrant(trust, s, kind, id, p, now, eventId).0
    ensures Guard(s, p, now).Some? ==>
              MoveGrant(trust, s, kind, id, p, now, eventId) == (s, Err(Guard(s, p, now).value))
  {}

  lemma RequestIsNext(trust: Trust, s: Store, r: BreakGlassRequest, p: Principal, epoch: int, now: Instant)
    ensures Next(trust, s, CRequest(r, p, epoch, now)) == RequestBreakGlass(trust, s, r, p, epoch, now).0
    ensures
      var denied := GuardBreakGlass(s, p, r.tenantId, r.restoreEpoch, epoch, now);
      denied.Some? ==> RequestBreakGlass(trust, s, r, p, epoch, now) == (s, Err(denied.value))
  {}

  lemma ReadIsNext(trust: Trust, s: Store, id: string, p: Principal, now: Instant, requestId: string)
    ensures Next(trust, s, CReadAudit(id, p, now, requestId))
        == RetentionOps.ReadAudit(trust, s, id, p, now, requestId).0
  {}

  lemma KeysHeld(s: Store, id: string)
    ensures forall k :: k in HoldKeys(s, id) ==> k in s.holds
  {
  }

  class RetentionStore {
    const tenantId: string
    const trust: Trust
    var policy: Policy
    var operational: seq<Record>
    var audits: seq<Record>
    var holds: map<(string, string), LegalHold>
    var holdHistory: map<(string, string), seq<LegalHold>>
    var grants: map<string, Grant>
    var runs: map<string, Run>
    var idempotencyKeys: map<string, string>
    var usedIds: set<string>
    var expiredIds: set<string>
    var reservedIds: set<string>
    var lastNow: Option<Instant>

    ghost var ever: set<Record>
    ghost var trace: seq<Moment>

    function State(): Store
      reads this
    {
      Store(tenantId, policy, operational, audits, holds, holdHistory, grants, runs, idempotencyKeys, usedIds,
            expiredIds, reservedIds, lastNow)
    }

    ghost function Now(): World
      reads this
    {
      World(State(), ever, trace)
    }

    ghost predicate Valid()
      reads this
    {
      Inv(trust, Now())
    }

    constructor (tenantId: string, policy: Policy, trust: Trust)
      ensures Valid()
      ensures this.trust == trust && Now() == World(Empty(tenantId, policy), {}, [])
    {
      this.tenantId, this.policy, this.trust := tenantId, policy, trust;
      operational, audits := [], [];
      holds, holdHistory, grants, runs, idempotencyKeys := map[], map[], map[], map[], map[];
      usedIds, expiredIds, reservedIds, lastNow := {}, {}, {}, None;
      ever, trace := {}, [];
      new;
      assert Play(trust, Empty(tenantId, policy), []) == Now();
      PlayKeeps(trust, tenantId, policy, []);
    }

    /** Close one operation: the history takes in what the state now holds. */
    ghost method Remember(before: World, c: Command)
      requires Inv(trust, before) && State() == Next(trust, before.store, c)
      requires ever == before.ever && trace == before.trace
      modifies this`ever, this`trace
      ensures Valid() && Now() == Step(trust, before, c)
    {
      StepKeeps(trust, before, c);
      ever := ever + Records(State());
      trace := trace + Moments(trust, before.store, c);
    }

    /** Consume a valid, monotonic time. */
    method Consume(now: Instant) returns (refused: Option<Error>)
      modifies this`lastNow
      ensures refused == ValidateNow(old(State()), now)
      ensures State() == if refused.None? then Tick(old(State()), now) else old(State())
    {
      refused := ValidateNow(State(), now);
      if refused.None? {
        lastNow := Some(now);
      }
    }

    method AppendEvent(e: Event) returns (refused: Option<Error>)
      modifies this`audits, this`usedIds
      ensures
        match RetentionOps.AppendEvent(trust, old(State()), e)
        case Err(error) => refused == Some(error) && State() == old(State())
        case Ok(t) => refused.None? && State() == t
    {
      refused := RequireUnused(State(), e.eventId);
      if refused.None? {
        var record := AuditOf(trust, State(), e);
        if AuditValid(record.recordId, record.tenantId, record.scopeId, record.body) {
          audits := audits + [record];
          usedIds := usedIds + {e.eventId};
        } else {
          refused := Some(InvalidValue);
        }
      }
    }

    method AppendOperational(record: OperationalLog, p: Principal, now: Instant) returns (r: Result<()>)
      requires Valid()
      modifies this
      ensures Valid() && Now() == Step(trust, old(Now()), CAppendOperational(record, p, now))
      ensures r == RetentionOps.AppendOperational(old(State()), record, p, now).1
    {
      hide Inv, Step;
      ghost var before := Now();
      var refused := Authorize(State(), p);
      if refused.None? && record.tenantId != tenantId {
        refused := Some(WrongTenant);
      }
      if refused.None? {
        refused := Consume(now);
        if refused.None? {
          refused := RequireUnused(State(), record.recordId);
          if refused.None? {
            operational := operational + [record];
            usedIds := usedIds + {record.recordId};
          }
        }
      }
      r := if refused.Some? then Err(refused.value) else Ok(());
      Remember(before, CAppendOperational(record, p, now));
    }

    method AppendAudit(record: AuditRecord, p: Principal, now: Instant) returns (r: Result<()>)
      requires Valid()
      modifies this
      ensures Valid() && Now() == Step(trust, old(Now()), CAppendAudit(record, p, now))
      ensures r == RetentionOps.AppendAudit(trust, old(State()), record, p, now).1
    {
      hide Inv, Step;
      ghost var before := Now();
      var refused := Authorize(State(), p);
      if refused.None? && record.tenantId != tenantId {
        refused := Some(WrongTenant);
      }
      if refused.None? {
        refused := Consume(now);
        if refused.None? {
          if !AuditValid(record.recordId, record.tenantId, record.scopeId, record.body) {
            refused := Some(InvalidValue);
          } else if record.checksum != AuditChecksum(trust, record) {
            refused := Some(AuditIntegrity);
          } else {
            refused := RequireUnused(State(), record.recordId);
          }
          if refused.None? {
            audits := audits + [record];
            usedIds := usedIds + {record.recordId};
          }
        }
      }
      r := if refused.Some? then Err(refused.value) else Ok(());
      Remember(before, CAppendAudit(record, p, now));
    }

    /** What every read begins with: authorization, then the clock. */
    method Read(p: Principal, now: Instant) returns (r: Result<()>)
      requires Valid()
      modifies this
      ensures Valid() && Now() == Step(trust, old(Now()), CRead(p, now))
      ensures r == RetentionOps.Read(old(State()), p, now).1
    {
      hide Inv, Step;
      ghost var before := Now();
      var refused := Authorize(State(), p);
      if refused.None? {
        refused := Consume(now);
      }
      r := if refused.Some? then Err(refused.value) else Ok(());
      Remember(before, CRead(p, now));
    }

    method LegalHoldHistory(scopeId: string, p: Principal, now: Instant) returns (r: Result<seq<LegalHold>>)
      requires Valid()
      modifies this
      ensures Valid() && Now() == Step(trust, old(Now()), CRead(p, now))
      ensures r.Ok? ==> r.value == History(old(State()), (tenantId, scopeId))
      ensures r.Ok? <==> Guard(old(State()), p, now).None?
    {
      var read := Read(p, now);
      match read
      case Err(e) => r := Err(e);
      case Ok(_) => r := Ok(History(State(), (tenantId, scopeId)));
    }

    /** verify_run: a run passes only as the stored value, and every completed stored run passes. */
    method VerifyStored(run: Run, p: Principal, now: Instant) returns (r: Result<bool>)
      requires Valid()
      modifies this
      ensures Valid() && Now() == Step(trust, old(Now()), CRead(p, now))
      ensures r.Ok? <==> Guard(old(State()), p, now).None?
      ensures r.Ok? ==> (r.value <==> run.runId in old(runs) && old(runs)[run.runId] == run && run.completedAt.Some?)
    {
      var read := Read(p, now);
      match read
      case Err(e) => r := Err(e);
      case Ok(_) =>
        r := Ok(run.tenantId == tenantId && run.runId in runs && runs[run.runId] == run && VerifyRun(trust, run));
        assert run.runId in runs ==> RunSound(Now(), runs[run.runId]);
    }

    method ReadAudit(id: string, p: Principal, now: Instant, requestId: string) returns (r: Result<Record>)
      requires Valid()
      modifies this
      ensures Valid() && Now() == Step(trust, old(Now()), CReadAudit(id, p, now, requestId))
      ensures r == RetentionOps.ReadAudit(trust, old(State()), id, p, now, requestId).1
    {
      hide Inv, Step, RetentionOps.AppendEvent, FindRecord, Next;
      ghost var before := Now();
      ReadIsNext(trust, before.store, id, p, now, requestId);
      var refused := Authorize(State(), p);
      if refused.None? {
        refused := Consume(now);
      }
      if refused.Some? {
        r := Err(refused.value);
      } else {
        var found := Search(audits, id);
        if found.Some? && id !in expiredIds {
          refused := AppendEvent(Event(requestId, AuditAccessed, p, id, found.value.scopeId, ReadState, now));
          r := if refused.Some? then Err(refused.value) else Ok(found.value);
        } else {
          r := Err(NotFound);
        }
      }
      Remember(before, CReadAudit(id, p, now, requestId));
    }

    /** The first record carrying this identifier. */
    static method Search(records: seq<Record>, id: string) returns (found: Option<Record>)
      ensures found == FindRecord(records, id)
    {
      var i := 0;
      while i < |records|
        invariant 0 <= i <= |records|
        invariant FindRecord(records, id) == FindRecord(records[i..], id)
      {
        if records[i].recordId == id {
          return Some(records[i]);
        }
        assert records[i..][1..] == records[i + 1..];
        i := i + 1;
      }
      return None;
    }

    method ChangePolicy(change: PolicyChange, evidence: Option<AuditRecord>, p: Principal, now: Instant)
      returns (r: Result<()>)
      requires Valid()
      modifies this
      ensures Valid() && Now() == Step(trust, old(Now()), CChangePolicy(change, evidence, p, now))
      ensures r == RetentionOps.ChangePolicy(trust, old(State()), change, evidence, p, now).1
    {
      hide Inv, Step, AuditValid, AuditChecksum, PolicyEvidenceMatches, Guard, Next;
      ghost var before := Now();
      ChangeIsNext(trust, before.store, change, evidence, p, now);
      var refused := Guard(State(), p, now);
      if refused.None? && (evidence.None? || !PolicyEvidenceMatches(State(), change, evidence.value, p, now)) {
        refused := Some(PolicyAuditRequired);
      }
      if refused.None? {
        var record := evidence.value;
        if !AuditValid(record.recordId, record.tenantId, record.scopeId, record.body) {
          refused := Some(InvalidValue);
        } else if record.checksum != AuditChecksum(trust, record)
                  || change.policyDigest != trust.sha(PolicyDocument(change.policy)) {
          refused := Some(PolicyAuditRequired);
        } else {
          refused := RequireUnused(State(), record.recordId);
        }
        if refused.None? {
          lastNow := Some(now);
          audits := audits + [record];
          usedIds := usedIds + {record.recordId};
          policy := change.policy;
        }
      }
      r := if refused.Some? then Err(refused.value) else Ok(());
      Remember(before, CChangePolicy(change, evidence, p, now));
    }

    method PlaceLegalHold(c: HoldPlace, p: Principal, now: Instant)
      returns (r: Result<LegalHold>)
      requires Valid()
      modifies this
      ensures Valid() && Now() == Step(trust, old(Now()), CPlaceHold(c, p, now))
      ensures r == PlaceHold(trust, old(State()), c, p, now).1
    {
      hide Inv, Step;
      ghost var before := Now();
      r := Place(c, p, now);
      Remember(before, CPlaceHold(c, p, now));
    }

    /** Every check a placement makes before it changes anything. */
    method RefusePlacement(c: HoldPlace, p: Principal, now: Instant) returns (refused: Option<Error>)
      ensures refused.Some? ==> PlaceHold(trust, State(), c, p, now) == (State(), Err(refused.value))
      ensures refused.None? ==> PlaceHold(trust, State(), c, p, now) == AfterPlacement(c, p, now)
    {
      var key := (tenantId, c.scopeId);
      refused := Guard(State(), p, now);
      if refused.None? {
        if c.tenantId != tenantId {
          refused := Some(WrongTenant);
        } else if key in holds && holds[key].releasedAt.None? {
          refused := Some(ActiveHold);
        } else if c.holdId == c.eventId {
          refused := Some(DuplicateId);
        } else {
          refused := RequireUnused(State(), c.holdId);
          if refused.None? {
            refused := RequireUnused(State(), c.eventId);
          }
          if refused.None? && !HoldValid(NewHold(State(), c, now)) {
            refused := Some(InvalidValue);
          }
        }
      }
    }

    function PlacementEvent(c: HoldPlace, p: Principal, now: Instant): Event {
      Event(c.eventId, HoldPlaced, p, c.holdId, c.scopeId, HoldState(c.caseId, c.authority, 1), now)
    }

    function AfterPlacement(c: HoldPlace, p: Principal, now: Instant): (Store, Result<LegalHold>)
      reads this
    {
      var hold := NewHold(State(), c, now);
      match RetentionOps.AppendEvent(trust, Tick(State(), now), PlacementEvent(c, p, now))
      case Err(e) => (Tick(State(), now), Err(e))
      case Ok(t) => (PutHold(t, (tenantId, c.scopeId), hold).(usedIds := t.usedIds + {c.holdId}), Ok(hold))
    }

    method Place(c: HoldPlace, p: Principal, now: Instant) returns (r: Result<LegalHold>)
      modifies this`lastNow, this`audits, this`usedIds, this`holds, this`holdHistory
      ensures (State(), r) == PlaceHold(trust, old(State()), c, p, now)
    {
      hide RetentionOps.AppendEvent, PlaceHold, HoldValid;
      var key := (tenantId, c.scopeId);
      var hold := NewHold(State(), c, now);
      var refused := RefusePlacement(c, p, now);
      if refused.None? {
        lastNow := Some(now);
        refused := AppendEvent(PlacementEvent(c, p, now));
        if refused.None? {
          holds := holds[key := hold];
          holdHistory := holdHistory[key := (if key in holdHistory then holdHistory[key] else []) + [hold]];
          usedIds := usedIds + {c.holdId};
        }
      }
      r := if refused.Some? then Err(refused.value) else Ok(hold);
    }

    method ReleaseLegalHold(id: string, p: Principal, now: Instant, eventId: string, reason: string)
      returns (r: Result<LegalHold>)
      requires Valid()
      modifies this
      ensures Valid() && Now() == Step(trust, old(Now()), CReleaseHold(id, p, now, eventId, reason))
      ensures r == ReleaseHold(trust, old(State()), id, p, now, eventId, reason).1
    {
      hide Inv, Step;
      ghost var before := Now();
      r := ReleaseNamed(id, p, now, eventId, reason);
      Remember(before, CReleaseHold(id, p, now, eventId, reason));
    }

    method ReleaseNamed(id: string, p: Principal, now: Instant, eventId: string, reason: string)
      returns (r: Result<LegalHold>)
      requires Valid()
      modifies this`lastNow, this`audits, this`usedIds, this`holds, this`holdHistory
      ensures (State(), r) == ReleaseHold(trust, old(State()), id, p, now, eventId, reason)
    {
      hide Ids, Runs, Conserved, HoldSafe, Grants, Guard, HoldKeys, FindHold;
      FindHoldFinds(Now(), id);
      var refused := Guard(State(), p, now);
      if refused.Some? {
        r := Err(refused.value);
      } else if HoldKeys(State(), id) == {} {
        r := Err(NotFound);
      } else {
        var k :| k in HoldKeys(State(), id);
        assert k in holds by { KeysHeld(State(), id); }
        r := Release(holds[k], id, p, now, eventId, reason);
      }
    }

    method Release(hold: LegalHold, id: string, p: Principal, now: Instant, eventId: string, reason: string)
      returns (r: Result<LegalHold>)
      modifies this`lastNow, this`audits, this`usedIds, this`holds, this`holdHistory
      ensures (State(), r) == ReleaseHoldFound(trust, old(State()), Some(hold), id, p, now, eventId, reason)
    {
      var key := (tenantId, hold.scopeId);
      var released := Released(hold, reason, now);
      if hold.releasedAt.Some? {
        return Err(NotFound);
      }
      if !HoldValid(released) {
        return Err(InvalidValue);
      }
      var refused := RequireUnused(State(), eventId);
      if refused.None? {
        lastNow := Some(now);
        refused := AppendEvent(Event(eventId, HoldReleased, p, id, hold.scopeId,
                                     HoldState(hold.caseId, hold.authority, released.revision), now));
        if refused.None? {
          holds := holds[key := released];
          holdHistory := holdHistory[key := (if key in holdHistory then holdHistory[key] else []) + [released]];
        }
      }
      r := if refused.Some? then Err(refused.value) else Ok(released);
    }

    method Expire(p: Principal, now: Instant) returns (r: Result<ExpiryReceipt>)
      requires Valid()
      modifies this
      ensures Valid() && Now() == Step(trust, old(Now()), CExpire(p, now))
      ensures r == RetentionOps.Expire(trust, old(State()), p, now).1
    {
      hide Inv, Step;
      ghost var before := Now();
      var refused := Authorize(State(), p);
      if refused.None? {
        refused := Consume(now);
      }
      if refused.Some? {
        r := Err(refused.value);
      } else {
        var operationalIds := Expiring(State(), operational, now, policy.operationalDays);
        var auditIds := Expiring(State(), audits, now, policy.auditDays);
        expiredIds := expiredIds + Elements(operationalIds);
        expiredIds := expiredIds + Elements(auditIds);
        r := Ok(ExpiryReceipt(tenantId, policy.version, now, operationalIds, auditIds,
                trust.sha(ExpiryDocument(tenantId, policy.version, now, operationalIds, auditIds))));
      }
      Remember(before, CExpire(p, now));
    }

    /** `challenge` is the random token drawn for the run. */
    method StartRetentionRun(id: string, key: string, challenge: string, p: Principal, now: Instant)
      returns (r: Result<Run>)
      requires Valid()
      modifies this
      ensures Valid() && Now() == Step(trust, old(Now()), CStartRun(id, key, challenge, p, now))
      ensures r == StartRun(trust, old(State()), id, key, challenge, p, now).1
    {
      hide Inv, Step;
      ghost var before := Now();
      r := Start(id, key, challenge, p, now);
      StartIsNext(trust, before.store, id, key, challenge, p, now);
      Remember(before, CStartRun(id, key, challenge, p, now));
    }

    method Start(id: string, key: string, challenge: string, p: Principal, now: Instant) returns (r: Result<Run>)
      modifies this`lastNow, this`runs, this`idempotencyKeys, this`usedIds, this`reservedIds
      ensures (State(), r) == StartRun(trust, old(State()), id, key, challenge, p, now)
    {
      var refused := Authorize(State(), p);
      if refused.None? {
        refused := Consume(now);
      }
      if refused.Some? {
        r := Err(refused.value);
      } else if key in idempotencyKeys {
        if idempotencyKeys[key] != id {
          r := Err(DuplicateId);
        } else if id in runs {
          r := Ok(runs[id]);
        } else {
          r := Err(NotFound);
        }
      } else {
        refused := RequireUnused(State(), id);
        var run := NewRun(trust, State(), id, key, challenge, now);
        if refused.Some? {
          r := Err(refused.value);
        } else if run.Candidates() == [] {
          r := Err(NoCandidates);
        } else if !RunConstructible(run) {
          r := Err(InvalidValue);
        } else {
          runs := runs[id := run];
          idempotencyKeys := idempotencyKeys[key := id];
          usedIds := usedIds + {id};
          reservedIds := reservedIds + Elements(run.operationalIds);
          reservedIds := reservedIds + Elements(run.auditIds);
          r := Ok(run);
        }
      }
    }

    method ResumeRetentionRun(id: string, p: Principal, now: Instant) returns (r: Result<Run>)
      requires Valid()
      modifies this
      ensures Valid() && Now() == Step(trust, old(Now()), CResumeRun(id, p, now))
      ensures r == ResumeRun(old(State()), id, p, now).1
    {
      hide Ids, Holds, Conserved, HoldSafe, Grants, Step;
      ghost var before := Now();
      var refused := Authorize(State(), p);
      if refused.None? {
        refused := Consume(now);
      }
      if refused.Some? {
        r := Err(refused.value);
      } else if id !in runs {
        r := Err(NotFound);
      } else if runs[id].completedAt.Some? {
        r := Ok(runs[id]);
      } else {
        assert runs[id].runId == id;
        var resumed := Retried(runs[id]);
        runs := runs[id := resumed];
        r := Ok(resumed);
      }
      Remember(before, CResumeRun(id, p, now));
    }

    /** Whether some candidate may not be deleted on this evidence, looking at them in order. */
    method AnyBlocked(ids: seq<string>, receipts: seq<Attestation>, now: Instant) returns (blocked: bool)
      ensures blocked <==> exists id :: id in ids && Blocked(State(), id, receipts, now)
    {
      var i := 0;
      while i < |ids|
        invariant 0 <= i <= |ids|
        invariant forall j :: 0 <= j < i ==> !Blocked(State(), ids[j], receipts, now)
      {
        var found := Search(operational, ids[i]);
        if found.None? {
          found := Search(audits, ids[i]);
        }
        if found.None? || found.value.scopeId in HeldScopes(State(), now)
           || DeletionIntersectsHold(State(), found.value.scopeId, receipts) {
          assert Blocked(State(), ids[i], receipts, now);
          return true;
        }
        i := i + 1;
      }
      return false;
    }

    method CompleteRetentionRun(id: string, receipts: seq<Attestation>, p: Principal, now: Instant)
      returns (r: Result<Run>)
      requires Valid()
      modifies this
      ensures Valid() && Now() == Step(trust, old(Now()), CCompleteRun(id, receipts, p, now))
      ensures r == CompleteRun(trust, old(State()), id, receipts, p, now).1
    {
      hide Ids, Holds, Conserved, HoldSafe, Grants, Step;
      ghost var before := Now();
      r := Complete(id, receipts, p, now);
      Remember(before, CCompleteRun(id, receipts, p, now));
    }

    method Complete(id: string, receipts: seq<Attestation>, p: Principal, now: Instant) returns (r: Result<Run>)
      requires forall k :: k in runs ==> runs[k].runId == k
      modifies this`lastNow, this`operational, this`audits, this`expiredIds, this`reservedIds, this`runs
      ensures (State(), r) == CompleteRun(trust, old(State()), id, receipts, p, now)
    {
      var refused := Authorize(State(), p);
      if refused.None? && exists a :: a in receipts && a.tenantId != tenantId {
        refused := Some(CompletionRejected);
      }
      if refused.None? {
        refused := Consume(now);
      }
      if refused.Some? {
        r := Err(refused.value);
      } else if id !in runs {
        r := Err(NotFound);
      } else if runs[id].completedAt.Some? {
        r := if runs[id].completionDigest != CompletionDigest(trust, receipts) then Err(CompletionRejected)
             else Ok(runs[id]);
      } else {
        r := Finish(id, receipts, now);
      }
    }

    /** The part of a completion that may delete: delay, reject, or commit. */
    method Finish(id: string, receipts: seq<Attestation>, now: Instant) returns (r: Result<Run>)
      requires id in runs && runs[id].runId == id
      modifies this`operational, this`audits, this`expiredIds, this`reservedIds, this`runs
      ensures (State(), r) == CompleteIncomplete(trust, old(State()), old(runs)[id], receipts, now)
    {
      hide Blocked, ReceiptBound, ExactlyCovers;
      var run := runs[id];
      var candidates := run.Candidates();
      var delayed := AnyBlocked(candidates, receipts, now);
      if delayed {
        runs := runs[id := Retried(run)];
        return Ok(Retried(run));
      }
      if !ExactlyCovers(receipts, candidates)
         || exists a :: a in receipts && !(a.tenantId == tenantId && ReceiptBound(trust, run, now, a)) {
        return Err(CompletionRejected);
      }
      var done := Completed(trust, run, receipts, now);
      operational := Without(operational, Elements(candidates));
      audits := Without(audits, Elements(candidates));
      expiredIds := expiredIds - Elements(candidates);
      reservedIds := reservedIds - Elements(candidates);
      runs := runs[id := done];
      return Ok(done);
    }

    method RequestBreakGlass(request: BreakGlassRequest, p: Principal, epoch: int, now: Instant)
      returns (r: Result<Grant>)
      requires Valid()
      modifies this
      ensures Valid() && Now() == Step(trust, old(Now()), CRequest(request, p, epoch, now))
      ensures r == RetentionOps.RequestBreakGlass(trust, old(State()), request, p, epoch, now).1
    {
      hide Inv, Step, Next, RetentionOps.RequestBreakGlass;
      ghost var before := Now();
      RequestIsNext(trust, before.store, request, p, epoch, now);
      var refused := GuardBreakGlass(State(), p, request.tenantId, request.restoreEpoch, epoch, now);
      if refused.None? {
        lastNow := Some(now);
        r := Request(request, p, now);
      } else {
        r := Err(refused.value);
      }
      Remember(before, CRequest(request, p, epoch, now));
    }

    method Request(request: BreakGlassRequest, p: Principal, now: Instant) returns (r: Result<Grant>)
      modifies this`audits, this`usedIds, this`grants
      ensures forall s, epoch ::
        GuardBreakGlass(s, p, request.tenantId, request.restoreEpoch, epoch, now).None?
            && Tick(s, now) == old(State()) ==>
          (State(), r) == RetentionOps.RequestBreakGlass(trust, s, request, p, epoch, now)
    {
      var why, refusal := None, BreakGlassDenied;
      if request.action != ReadMetadata {
        why := Some(UnsupportedAction);
      } else if request.expiresAt <= now {
        why := Some(ExpiredRequest);
      } else if request.grantId == request.eventId || request.grantId in usedIds {
        why, refusal := Some(DuplicateGrantId), DuplicateId;
      }
      if why.Some? {
        var refused := AppendEvent(RequestRefused(request, p, why.value, now));
        r := Err(if refused.Some? then refused.value else refusal);
      } else {
        var refused := AppendEvent(RequestEvent(request, p, now));
        var grant := NewGrant(State(), request, p, now);
        if refused.Some? {
          r := Err(refused.value);
        } else if !GrantValid(grant) {
          r := Err(InvalidValue);
        } else {
          grants := grants[request.grantId := grant];
          usedIds := usedIds + {request.grantId};
          r := Ok(grant);
        }
      }
    }

    method ApproveBreakGlass(id: string, p: Principal, now: Instant, eventId: string) returns (r: Result<Grant>)
      requires Valid()
      modifies this
      ensures Valid() && Now() == Step(trust, old(Now()), CMove(Approve, id, p, now, eventId))
      ensures r == MoveGrant(trust, old(State()), Approve, id, p, now, eventId).1
    {
      r := MoveBreakGlass(Approve, id, p, now, eventId);
    }

    method RevokeBreakGlass(id: string, p: Principal, now: Instant, eventId: string) returns (r: Result<Grant>)
      requires Valid()
      modifies this
      ensures Valid() && Now() == Step(trust, old(Now()), CMove(Revoke, id, p, now, eventId))
      ensures r == MoveGrant(trust, old(State()), Revoke, id, p, now, eventId).1
    {
      r := MoveBreakGlass(Revoke, id, p, now, eventId);
    }

    method ExpireBreakGlass(id: string, p: Principal, now: Instant, eventId: string) returns (r: Result<Grant>)
      requires Valid()
      modifies this
      ensures Valid() && Now() == Step(trust, old(Now()), CMove(Lapse, id, p, now, eventId))
      ensures r == MoveGrant(trust, old(State()), Lapse, id, p, now, eventId).1
    {
      r := MoveBreakGlass(Lapse, id, p, now, eventId);
    }

    method MoveBreakGlass(kind: Transition, id: string, p: Principal, now: Instant, eventId: string)
      returns (r: Result<Grant>)
      requires Valid()
      modifies this
      ensures Valid() && Now() == Step(trust, old(Now()), CMove(kind, id, p, now, eventId))
      ensures r == MoveGrant(trust, old(State()), kind, id, p, now, eventId).1
    {
      hide Inv, Step, Next, MoveGrant;
      ghost var before := Now();
      MoveIsNext(trust, before.store, kind, id, p, now, eventId);
      var refused := Authorize(State(), p);
      if refused.None? {
        refused := Consume(now);
      }
      if refused.Some? {
        r := Err(refused.value);
      } else {
        r := Move(kind, id, p, now, eventId);
      }
      Remember(before, CMove(kind, id, p, now, eventId));
    }

    method Move(kind: Transition, id: string, p: Principal, now: Instant, eventId: string) returns (r: Result<Grant>)
      modifies this`audits, this`usedIds, this`grants
      ensures forall s :: Guard(s, p, now).None? && Tick(s, now) == old(State()) ==>
        (State(), r) == MoveGrant(trust, s, kind, id, p, now, eventId)
    {
      var (done, denied) := TransitionName(kind);
      if id !in grants {
        var refused := AppendEvent(Event(eventId, denied, p, id, "break_glass", GrantNotFound, now));
        r := Err(if refused.Some? then refused.value else NotFound);
      } else {
        var grant := grants[id];
        var state := EpochExpiry(grant.restoreEpoch, grant.expiresAt);
        var allowed := TransitionAllowed(kind, grant, p, now);
        var refused := AppendEvent(Event(eventId, if allowed then done
            else denied, p, id, grant.resourceId, state, now));
        if refused.Some? {
          r := Err(refused.value);
        } else if !allowed {
          r := Err(BreakGlassDenied);
        } else {
          grants := grants[id := Moved(kind, grant, p, now)];
          r := Ok(grants[id]);
        }
      }
    }

    method UseBreakGlass(use: BreakGlassUse, p: Principal, epoch: int, now: Instant)
      returns (r: Result<()>)
      requires Valid()
      modifies this
      ensures Valid() && Now() == Step(trust, old(Now()), CUse(use, p, epoch, now))
      ensures r == RetentionOps.UseBreakGlass(trust, old(State()), use, p, epoch, now).1
    {
      hide Inv, Step;
      ghost var before := Now();
      r := Use(use, p, epoch, now);
      Remember(before, CUse(use, p, epoch, now));
    }

    method Use(use: BreakGlassUse, p: Principal, epoch: int, now: Instant) returns (r: Result<()>)
      modifies this`lastNow, this`audits, this`usedIds
      ensures (State(), r) == RetentionOps.UseBreakGlass(trust, old(State()), use, p, epoch, now)
    {
      var refused := GuardBreakGlass(State(), p, use.tenantId, use.restoreEpoch, epoch, now);
      if refused.Some? {
        r := Err(refused.value);
      } else {
        lastNow := Some(now);
        var allowed := UseAllowed(State(), use, p, now);
        refused := AppendEvent(Event(use.eventId, if allowed then GrantUsed else GrantUseDenied, p, use.grantId,
                                     use.resourceId, EpochState(use.restoreEpoch), now));
        r := if refused.Some? then Err(refused.value) else if allowed then Ok(()) else Err(BreakGlassDenied);
      }
    }
  }
}
