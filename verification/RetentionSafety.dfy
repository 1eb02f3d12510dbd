/** What every run of the retention store keeps. */
module RetentionSafety {
  import opened RetentionModels
  import opened RetentionOps

  datatype Command =
    | CAppendOperational(record: OperationalLog, p: Principal, now: Instant)
    | CAppendAudit(audit: AuditRecord, p: Principal, now: Instant)
    | CRead(p: Principal, now: Instant)
    | CReadAudit(id: string, p: Principal, now: Instant, eventId: string)
    | CChangePolicy(change: PolicyChange, evidence: Option<AuditRecord>, p: Principal, now: Instant)
    | CPlaceHold(place: HoldPlace, p: Principal, now: Instant)
    | CReleaseHold(id: string, p: Principal, now: Instant, eventId: string, reason: string)
    | CExpire(p: Principal, now: Instant)
    | CStartRun(id: string, key: string, challenge: string, p: Principal, now: Instant)
    | CResumeRun(id: string, p: Principal, now: Instant)
    | CCompleteRun(id: string, receipts: seq<Attestation>, p: Principal, now: Instant)
    | CRequest(request: BreakGlassRequest, p: Principal, epoch: int, now: Instant)
    | CMove(kind: Transition, id: string, p: Principal, now: Instant, eventId: string)
    | CUse(use: BreakGlassUse, p: Principal, epoch: int, now: Instant)

  /** The successful break-glass steps, in order. `epoch` is the authority's at that moment. */
  datatype Moment =
    | Requested(grantId: string, actor: string, expiresAt: Instant, epoch: int)
    | Stepped(kind: Transition, grantId: string, actor: string, at: Instant)
    | Used(grantId: string, actor: string, at: Instant, epoch: int)

  /** A store, every record it ever held, and every successful break-glass step. */
  datatype World = World(store: Store, ever: set<Record>, trace: seq<Moment>)

  ghost function Next(trust: Trust, s: Store, c: Command): Store {
    match c
    case CAppendOperational(r, p, now) => AppendOperational(s, r, p, now).0
    case CAppendAudit(r, p, now) => AppendAudit(trust, s, r, p, now).0
    case CRead(p, now) => Read(s, p, now).0
    case CReadAudit(id, p, now, eventId) => ReadAudit(trust, s, id, p, now, eventId).0
    case CChangePolicy(change, evidence, p, now) => ChangePolicy(trust, s, change, evidence, p, now).0
    case CPlaceHold(place, p, now) => PlaceHold(trust, s, place, p, now).0
    case CReleaseHold(id, p, now, eventId, reason) => ReleaseHold(trust, s, id, p, now, eventId, reason).0
    case CExpire(p, now) => Expire(trust, s, p, now).0
    case CStartRun(id, key, challenge, p, now) => StartRun(trust, s, id, key, challenge, p, now).0
    case CResumeRun(id, p, now) => ResumeRun(s, id, p, now).0
    case CCompleteRun(id, receipts, p, now) => CompleteRun(trust, s, id, receipts, p, now).0
    case CRequest(request, p, epoch, now) => RequestBreakGlass(trust, s, request, p, epoch, now).0
    case CMove(kind, id, p, now, eventId) => MoveGrant(trust, s, kind, id, p, now, eventId).0
    case CUse(use, p, epoch, now) => UseBreakGlass(trust, s, use, p, epoch, now).0
  }

  ghost function Moments(trust: Trust, s: Store, c: Command): seq<Moment> {
    match c
    case CRequest(request, p, epoch, now) =>
      if RequestBreakGlass(trust, s, request, p, epoch, now).1.Ok?
      then [Requested(request.grantId, p.principalId, request.expiresAt, epoch)] else []
    case CMove(kind, id, p, now, eventId) =>
      if MoveGrant(trust, s, kind, id, p, now, eventId).1.Ok? then [Stepped(kind, id, p.principalId, now)] else []
    case CUse(use, p, epoch, now) =>
      if UseBreakGlass(trust, s, use, p, epoch, now).1.Ok? then [Used(use.grantId, p.principalId, now, epoch)] else []
    case _ => []
  }

  ghost function Records(s: Store): set<Record> { Elements(s.operational) + Elements(s.audits) }

  ghost function At(w: World, s: Store): World { w.(store := s, ever := w.ever + Records(s)) }

  ghost function Step(trust: Trust, w: World, c: Command): World {
    var next := At(w, Next(trust, w.store, c));
    next.(trace := w.trace + Moments(trust, w.store, c))
  }

  function Empty(tenantId: string, policy: Policy): Store {
    Store(tenantId, policy, [], [], map[], map[], map[], map[], map[], {}, {}, {}, None)
  }

  ghost function Play(trust: Trust, start: Store, commands: seq<Command>): World {
    if commands == [] then World(start, Records(start), [])
    else Step(trust, Play(trust, start, commands[..|commands| - 1]), commands[|commands| - 1])
  }

  // ----- the invariant -----

  ghost function IdsOf(records: set<Record>): set<string> { set r | r in records :: r.recordId }

  function NamesIn(history: seq<LegalHold>): set<string> { set h | h in history :: h.holdId }

  /** This hold was placed under this scope key. */
  predicate Placed(histories: map<(string, string), seq<LegalHold>>, key: (string, string), id: string) {
    id in NamesIn(Recorded(histories, key))
  }

  ghost function HoldIds(histories: map<(string, string), seq<LegalHold>>): set<string> {
    set k, id | k in histories && id in NamesIn(Recorded(histories, k)) :: id
  }

  ghost predicate OneOwner(histories: map<(string, string), seq<LegalHold>>) {
    forall k, l, id :: Placed(histories, k, id) && Placed(histories, l, id) ==> k == l
  }

  ghost predicate UniqueIds(records: set<Record>) {
    forall x, y :: x in records && y in records && x.recordId == y.recordId ==> x == y
  }

  /** Every identifier names one thing, for ever. */
  ghost predicate Ids(w: World) {
    var s := w.store;
    && UniqueIds(w.ever)
    && Records(s) <= w.ever
    && Distinct(s.operational) && (forall r :: r in s.operational ==> r.Operational?)
    && Distinct(s.audits) && (forall r :: r in s.audits ==> r.Audit?)
    && s.usedIds == IdsOf(w.ever) + HoldIds(s.holdHistory) + s.grants.Keys + s.runs.Keys
    && IdsOf(w.ever) !! HoldIds(s.holdHistory) !! s.grants.Keys !! s.runs.Keys
  }

  predicate Past(s: Store, at: Instant) { s.lastNow.Some? && at <= s.lastNow.value }

  ghost predicate HoldSound(s: Store, key: (string, string), h: LegalHold) {
    && h.tenantId == key.0 == s.tenantId && h.scopeId == key.1
    && HoldValid(h)
    && Past(s, h.placedAt)
    && (h.releasedAt.Some? ==> h.placedAt <= h.releasedAt.value && Past(s, h.releasedAt.value))
  }

  /** Entry j closes entry i: the same hold, placed at the same instant, now released. */
  predicate Closes(h: LegalHold, later: LegalHold) {
    h.releasedAt.None? && later.releasedAt.Some? && later.placedAt == h.placedAt && later.holdId == h.holdId
  }

  ghost predicate HistorySound(s: Store, key: (string, string), history: seq<LegalHold>) {
    && history != []
    && (forall i :: 0 <= i < |history| ==> HoldSound(s, key, history[i]))
    && (forall i, j :: 0 <= i < j < |history| && history[i].holdId == history[j].holdId ==>
          j == i + 1 && Closes(history[i], history[j]))
    && (forall i :: 0 <= i < |history| - 1 && history[i].releasedAt.None? ==> Closes(history[i], history[i + 1]))
  }

  ghost predicate Holds(s: Store) {
    && s.holds.Keys == s.holdHistory.Keys
    && (forall k :: k in s.holdHistory ==>
          HistorySound(s, k, s.holdHistory[k]) && s.holds[k] == s.holdHistory[k][|s.holdHistory[k]| - 1])
    && OneOwner(s.holdHistory)
  }

  ghost function Taken(s: Store, completed: bool): set<string> {
    set k, id | k in s.runs && s.runs[k].completedAt.Some? == completed && id in s.runs[k].Candidates() :: id
  }

  /** The record under this identifier was at least `days` old at the cutoff. */
  ghost predicate Aged(ever: set<Record>, id: string, audit: bool, cutoff: Instant, days: int) {
    exists r :: r in ever && r.recordId == id && r.Audit? == audit && r.occurredAt + days * DAY <= cutoff
  }

  ghost predicate RunSound(w: World, run: Run) {
    && run.tenantId == w.store.tenantId
    && run.attempts >= 1
    && Distinct(run.Candidates()) && run.Candidates() != []
    && Past(w.store, run.cutoffAt)
    && (run.completedAt.Some? ==> Past(w.store, run.completedAt.value))
    && (forall id :: id in run.operationalIds ==> Aged(w.ever, id, false, run.cutoffAt, OPERATIONAL_DAYS))
    && (forall id :: id in run.auditIds ==> Aged(w.ever, id, true, run.cutoffAt, AUDIT_DAYS))
  }

  predicate Candidate(runs: map<string, Run>, k: string, id: string) {
    k in runs && id in runs[k].Candidates()
  }

  /** No record is a candidate of two runs. */
  ghost predicate OneRunEach(runs: map<string, Run>) {
    forall k, l, id :: Candidate(runs, k, id) && Candidate(runs, l, id) ==> k == l
  }

  ghost predicate Runs(trust: Trust, w: World) {
    var s := w.store;
    && (forall k :: k in s.runs ==> s.runs[k].runId == k && RunSound(w, s.runs[k]))
    && OneRunEach(s.runs)
    && (forall k :: k in s.runs ==> s.runs[k].manifestDigest == ManifestDigest(trust, s.runs[k]))
    && (forall k :: k in s.runs && s.runs[k].completedAt.Some? ==> VerifyRun(trust, s.runs[k]))
    && (forall key :: key in s.idempotencyKeys ==>
          s.idempotencyKeys[key] in s.runs && s.runs[s.idempotencyKeys[key]].idempotencyKey == key)
  }

  /** Conservation: nothing leaves the records except as the candidate of a completed run. */
  ghost predicate Conserved(w: World) {
    var s := w.store;
    && Records(s) == (set r | r in w.ever && r.recordId !in Taken(s, true))
    && s.reservedIds == Taken(s, false)
    && s.reservedIds <= s.expiredIds <= IdsOf(Records(s))
  }

  predicate StrictlyWithin(h: LegalHold, at: Instant) {
    h.placedAt < at && (h.releasedAt.None? || at <= h.releasedAt.value)
  }

  /** No receipt falls strictly inside any hold of this history. */
  ghost predicate Clear(history: seq<LegalHold>, receipts: seq<Attestation>) {
    forall i, a :: Latest(history, i) && a in receipts ==> !StrictlyWithin(history[i], a.deletedAt)
  }

  ghost predicate HoldSafe(w: World) {
    forall k, r | k in w.store.runs && w.store.runs[k].completedAt.Some? && r in w.ever
                  && r.recordId in w.store.runs[k].Candidates()
      :: Clear(History(w.store, (w.store.tenantId, r.scopeId)), w.store.runs[k].receipts)
  }

  // ----- break-glass -----

  ghost predicate Happened(trace: seq<Moment>, kind: Transition, grantId: string) {
    exists i :: 0 <= i < |trace| && trace[i].Stepped? && trace[i].kind == kind && trace[i].grantId == grantId
  }

  ghost predicate Closed(trace: seq<Moment>, grantId: string) {
    Happened(trace, Revoke, grantId) || Happened(trace, Lapse, grantId)
  }

  ghost predicate Mentioned(trace: seq<Moment>, grantId: string) {
    exists i :: 0 <= i < |trace| && trace[i].grantId == grantId
  }

  ghost predicate RequestedAs(trace: seq<Moment>, grantId: string, actor: string, expiresAt: Instant, epoch: int) {
    Requested(grantId, actor, expiresAt, epoch) in trace
  }

  ghost predicate ApprovedByOther(trace: seq<Moment>, grantId: string, requester: string) {
    exists i :: 0 <= i < |trace| && trace[i].Stepped? && trace[i].kind == Approve && trace[i].grantId == grantId
      && trace[i].actor != requester
  }

  /** What must already have happened, and not happened, when `m` happens. */
  ghost predicate Lawful(before: seq<Moment>, m: Moment) {
    match m
    case Requested(g, actor, expiresAt, epoch) => !Mentioned(before, g)
    case Stepped(kind, g, actor, at) =>
      && !Closed(before, g)
      && (exists requester, expiresAt, epoch ::
            && RequestedAs(before, g, requester, expiresAt, epoch)
            && (kind == Approve ==> actor != requester && !Happened(before, Approve, g))
            && (if kind == Lapse then at >= expiresAt else at < expiresAt))
    case Used(g, actor, at, epoch) =>
      && !Closed(before, g)
      && ApprovedByOther(before, g, actor)
      && exists expiresAt :: RequestedAs(before, g, actor, expiresAt, epoch) && at < expiresAt
  }

  ghost predicate LawfulTrace(trace: seq<Moment>) {
    forall i :: 0 <= i < |trace| ==> Lawful(trace[..i], trace[i])
  }

  ghost predicate GrantSound(s: Store, trace: seq<Moment>, g: Grant) {
    && g.tenantId == s.tenantId
    && RequestedAs(trace, g.grantId, g.requesterId, g.expiresAt, g.restoreEpoch)
    && (g.approverId.Some? <==> Happened(trace, Approve, g.grantId))
    && (g.approverId.Some? ==> ApprovedByOther(trace, g.grantId, g.requesterId))
    && (g.revokedAt.Some? <==> Happened(trace, Revoke, g.grantId))
    && (g.expiredAt.Some? <==> Happened(trace, Lapse, g.grantId))
  }

  ghost predicate Grants(w: World) {
    && LawfulTrace(w.trace)
    && (forall k :: k in w.store.grants ==>
          w.store.grants[k].grantId == k && GrantSound(w.store, w.trace, w.store.grants[k]))
    && (forall g :: Mentioned(w.trace, g) ==> g in w.store.grants)
  }

  ghost predicate Inv(trust: Trust, w: World) {
    && Ids(w)
    && Holds(w.store)
    && Runs(trust, w)
    && Conserved(w)
    && HoldSafe(w)
    && Grants(w)
  }

  // ----- what each part of the invariant depends on -----

  predicate Later(s: Store, t: Store) {
    t.tenantId == s.tenantId && (s.lastNow.Some? ==> Past(t, s.lastNow.value))
  }

  lemma IdsFrame(w: World, v: World)
    requires Ids(w)
    requires v.ever == w.ever
    requires v.store.operational == w.store.operational && v.store.audits == w.store.audits
    requires v.store.holdHistory == w.store.holdHistory && v.store.usedIds == w.store.usedIds
    requires v.store.grants.Keys == w.store.grants.Keys && v.store.runs.Keys == w.store.runs.Keys
    ensures Ids(v)
  {
  }

  lemma HoldsFrame(s: Store, t: Store)
    requires Holds(s) && Later(s, t)
    requires t.holds == s.holds && t.holdHistory == s.holdHistory
    ensures Holds(t)
  {
    forall k | k in t.holdHistory ensures HistorySound(t, k, t.holdHistory[k]) {
      HistoryFrame(s, t, k, s.holdHistory[k]);
    }
  }

  lemma HistoryFrame(s: Store, t: Store, key: (string, string), history: seq<LegalHold>)
    requires HistorySound(s, key, history) && Later(s, t)
    ensures HistorySound(t, key, history)
  {
    assert forall i :: 0 <= i < |history| ==> HoldSound(s, key, history[i]);
  }

  lemma RunFrame(w: World, v: World, run: Run)
    requires RunSound(w, run) && Later(w.store, v.store) && w.ever <= v.ever
    ensures RunSound(v, run)
  {
    forall id, audit, cutoff, days | Aged(w.ever, id, audit, cutoff, days)
        ensures Aged(v.ever, id, audit, cutoff, days) {
      var r :| r in w.ever && r.recordId == id && r.Audit? == audit && r.occurredAt + days * DAY <= cutoff;
      assert r in v.ever;
    }
  }

  lemma RunsFrame(trust: Trust, w: World, v: World)
    requires Runs(trust, w) && Later(w.store, v.store) && w.ever <= v.ever
    requires v.store.runs == w.store.runs && v.store.idempotencyKeys == w.store.idempotencyKeys
    ensures Runs(trust, v)
  {
    forall k | k in v.store.runs ensures RunSound(v, v.store.runs[k]) { RunFrame(w, v, w.store.runs[k]); }
  }

  lemma ConservedFrame(w: World, v: World)
    requires Conserved(w)
    requires v.ever == w.ever && v.store.runs == w.store.runs
    requires v.store.operational == w.store.operational && v.store.audits == w.store.audits
    requires v.store.reservedIds == w.store.reservedIds && v.store.expiredIds == w.store.expiredIds
    ensures Conserved(v)
  {
    assert Taken(v.store, true) == Taken(w.store, true) && Taken(v.store, false) == Taken(w.store, false);
  }

  lemma HoldSafeFrame(w: World, v: World)
    requires HoldSafe(w)
    requires v.ever == w.ever && v.store.runs == w.store.runs
    requires v.store.holdHistory == w.store.holdHistory && v.store.tenantId == w.store.tenantId
    ensures HoldSafe(v)
  {
    assert forall k :: History(v.store, k) == History(w.store, k);
  }

  lemma GrantsFrame(w: World, v: World)
    requires Grants(w)
    requires v.store.grants == w.store.grants && v.store.tenantId == w.store.tenantId && v.trace == w.trace
    ensures Grants(v)
  {
    assert forall k :: k in w.store.grants ==> GrantSound(w.store, w.trace, w.store.grants[k]);
  }

  // ----- what each primitive change keeps -----

  lemma TickKeeps(trust: Trust, w: World, now: Instant)
    requires Inv(trust, w) && ValidateNow(w.store, now).None?
    ensures Inv(trust, At(w, Tick(w.store, now)))
    ensures At(w, Tick(w.store, now)) == w.(store := Tick(w.store, now))
  {
    var v := w.(store := Tick(w.store, now));
    assert At(w, v.store) == v;
    IdsFrame(w, v);
    HoldsFrame(w.store, v.store);
    RunsFrame(trust, w, v);
    ConservedFrame(w, v);
    HoldSafeFrame(w, v);
    GrantsFrame(w, v);
  }

  function Added(s: Store, r: Record): Store {
    if r.Audit? then AddAudit(s, r) else s.(operational := s.operational + [r], usedIds := s.usedIds + {r.recordId})
  }

  lemma CandidatesWereRecords(trust: Trust, w: World, k: string, id: string)
    requires Runs(trust, w) && k in w.store.runs && id in w.store.runs[k].Candidates()
    ensures id in IdsOf(w.ever)
  {
    var run := w.store.runs[k];
    if id in run.operationalIds {
      assert Aged(w.ever, id, false, run.cutoffAt, OPERATIONAL_DAYS);
    } else {
      assert Aged(w.ever, id, true, run.cutoffAt, AUDIT_DAYS);
    }
  }

  lemma AddRecordKeeps(trust: Trust, w: World, r: Record)
    requires Inv(trust, w) && r.recordId !in w.store.usedIds
    ensures Inv(trust, At(w, Added(w.store, r)))
    ensures At(w, Added(w.store, r)) == World(Added(w.store, r), w.ever + {r}, w.trace)
  {
    var s := w.store;
    var t := Added(s, r);
    var v := World(t, w.ever + {r}, w.trace);
    assert Records(t) == Records(s) + {r};
    assert w.ever + Records(t) == v.ever;
    AddRecordIds(w, r);
    HoldsFrame(s, t);
    RunsFrame(trust, w, v);
    AddRecordConserved(trust, w, r);
    AddRecordHoldSafe(trust, w, r);
    GrantsFrame(w, v);
  }

  lemma AddRecordConserved(trust: Trust, w: World, r: Record)
    requires Ids(w) && Runs(trust, w) && Conserved(w) && r.recordId !in w.store.usedIds
    ensures Conserved(World(Added(w.store, r), w.ever + {r}, w.trace))
  {
    var s := w.store;
    var t := Added(s, r);
    assert Records(t) == Records(s) + {r};
    assert Taken(t, true) == Taken(s, true) && Taken(t, false) == Taken(s, false);
    assert r.recordId !in Taken(s, true) by {
      if r.recordId in Taken(s, true) {
        var k :| k in s.runs && s.runs[k].completedAt.Some? && r.recordId in s.runs[k].Candidates();
        CandidatesWereRecords(trust, w, k, r.recordId);
      }
    }
    assert IdsOf(Records(s)) <= IdsOf(Records(t));
  }

  lemma AddRecordHoldSafe(trust: Trust, w: World, r: Record)
    requires Ids(w) && Runs(trust, w) && HoldSafe(w) && r.recordId !in w.store.usedIds
    ensures HoldSafe(World(Added(w.store, r), w.ever + {r}, w.trace))
  {
    var s := w.store;
    var t := Added(s, r);
    forall k, x | k in t.runs && t.runs[k].completedAt.Some? && x in w.ever + {r}
        && x.recordId in t.runs[k].Candidates()
      ensures Clear(History(t, (t.tenantId, x.scopeId)), t.runs[k].receipts)
    {
      CandidatesWereRecords(trust, w, k, x.recordId);
      assert x in w.ever;
      assert History(t, (t.tenantId, x.scopeId)) == History(s, (s.tenantId, x.scopeId));
    }
  }

  lemma AddRecordIds(w: World, r: Record)
    requires Ids(w) && r.recordId !in w.store.usedIds
    ensures Ids(World(Added(w.store, r), w.ever + {r}, w.trace))
  {
    var s := w.store;
    var t := Added(s, r);
    assert Records(t) == Records(s) + {r};
    assert IdsOf(w.ever + {r}) == IdsOf(w.ever) + {r.recordId};
    assert r !in w.ever;
  }

  lemma PolicyKeeps(trust: Trust, w: World, policy: Policy)
    requires Inv(trust, w)
    ensures Inv(trust, w.(store := w.store.(policy := policy)))
  {
    var v := w.(store := w.store.(policy := policy));
    IdsFrame(w, v);
    HoldsFrame(w.store, v.store);
    RunsFrame(trust, w, v);
    ConservedFrame(w, v);
    HoldSafeFrame(w, v);
    GrantsFrame(w, v);
  }

  // ----- legal holds -----

  lemma HistoryExtends(s: Store, key: (string, string), history: seq<LegalHold>, h: LegalHold)
    requires history == [] || HistorySound(s, key, history)
    requires HoldSound(s, key, h)
    requires
      || (h.releasedAt.None? && (forall i :: 0 <= i < |history| ==> history[i].holdId != h.holdId)
          && (history != [] ==> history[|history| - 1].releasedAt.Some?))
      || (history != [] && Closes(history[|history| - 1], h))
    ensures HistorySound(s, key, history + [h])
  {
    var grown := history + [h];
    forall i, j | 0 <= i < j < |grown| && grown[i].holdId == grown[j].holdId
      ensures j == i + 1 && Closes(grown[i], grown[j])
    {
      if j == |history| && i < |history| - 1 {
        assert history[i].holdId != history[|history| - 1].holdId;
      }
    }
  }

  lemma ClearExtends(history: seq<LegalHold>, h: LegalHold, receipts: seq<Attestation>)
    requires Clear(history, receipts)
    requires
      || (forall a :: a in receipts ==> a.deletedAt <= h.placedAt)
      || (history != [] && Closes(history[|history| - 1], h))
    ensures Clear(history + [h], receipts)
  {
    var grown := history + [h];
    forall i, a | Latest(grown, i) && a in receipts ensures !StrictlyWithin(grown[i], a.deletedAt) {
      if i < |history| {
        assert forall j :: i < j < |history| ==> grown[j].holdId == history[j].holdId;
        assert Latest(history, i);
      } else if history != [] && Closes(history[|history| - 1], h) {
        assert Latest(history, |history| - 1);
      }
    }
  }

  /** A hold newly placed under a fresh identifier, or the release of the hold that is current. */
  ghost predicate MayPut(s: Store, key: (string, string), h: LegalHold) {
    var history := History(s, key);
    && HoldSound(s, key, h)
    && (|| (&& h.holdId !in s.usedIds && h.releasedAt.None?
            && s.lastNow == Some(h.placedAt)
            && (key in s.holds ==> s.holds[key].releasedAt.Some?))
        || (history != [] && Closes(history[|history| - 1], h)))
  }

  function AfterPut(s: Store, key: (string, string), h: LegalHold): Store {
    PutHold(s, key, h).(usedIds := s.usedIds + {h.holdId})
  }

  lemma PutHoldKeeps(trust: Trust, w: World, key: (string, string), h: LegalHold)
    requires Inv(trust, w) && MayPut(w.store, key, h)
    ensures Inv(trust, At(w, AfterPut(w.store, key, h)))
    ensures At(w, AfterPut(w.store, key, h)) == w.(store := AfterPut(w.store, key, h))
  {
    var s := w.store;
    var t := AfterPut(s, key, h);
    var v := w.(store := t);
    assert At(w, t) == v;
    PutHoldIds(w, key, h);
    PutHoldHolds(w, key, h);
    RunsFrame(trust, w, v);
    ConservedFrame(w, v);
    PutHoldSafe(trust, w, key, h);
    GrantsFrame(w, v);
  }

  lemma PutHoldPlaces(s: Store, key: (string, string), h: LegalHold, k: (string, string), id: string)
    ensures Placed(AfterPut(s, key, h).holdHistory, k, id)
            <==> Placed(s.holdHistory, k, id) || (k == key && id == h.holdId)
  {
    if k == key {
      var history := History(s, key);
      assert NamesIn(history + [h]) == NamesIn(history) + {h.holdId} by {
        assert (history + [h])[|history|] == h;
        forall x | x in history ensures x in history + [h] {}
      }
    }
  }

  lemma HoldIdsPlaced(histories: map<(string, string), seq<LegalHold>>, id: string)
    ensures id in HoldIds(histories) <==> exists k :: Placed(histories, k, id)
  {
    forall k | Placed(histories, k, id) ensures k in histories && id in HoldIds(histories) {}
    if id in HoldIds(histories) {
      var k :| k in histories && id in NamesIn(Recorded(histories, k));
      assert Placed(histories, k, id);
    }
  }

  lemma PutHoldNames(s: Store, key: (string, string), h: LegalHold)
    ensures HoldIds(AfterPut(s, key, h).holdHistory) == HoldIds(s.holdHistory) + {h.holdId}
  {
    var after := AfterPut(s, key, h).holdHistory;
    forall id ensures id in HoldIds(after) <==> id in HoldIds(s.holdHistory) + {h.holdId} {
      HoldIdsPlaced(s.holdHistory, id);
      HoldIdsPlaced(after, id);
      forall k ensures Placed(after, k, id) <==> Placed(s.holdHistory, k, id) || (k == key && id == h.holdId) {
        PutHoldPlaces(s, key, h, k, id);
      }
      PutHoldPlaces(s, key, h, key, id);
    }
  }

  /** Where a put hold's identifier may already be known: nowhere, or under the same key. */
  lemma PutHoldOwner(w: World, key: (string, string), h: LegalHold)
    requires Ids(w) && Holds(w.store) && MayPut(w.store, key, h)
    ensures h.holdId in w.store.usedIds ==> Placed(w.store.holdHistory, key, h.holdId)
    ensures forall k :: Placed(w.store.holdHistory, k, h.holdId) ==> k == key
    ensures h.holdId in w.store.usedIds <==> h.holdId in HoldIds(w.store.holdHistory)
  {
    hide HistorySound, UniqueIds, Distinct;
    var s := w.store;
    var history := History(s, key);
    HoldIdsPlaced(s.holdHistory, h.holdId);
    if history != [] && Closes(history[|history| - 1], h) {
      assert history[|history| - 1] in history;
      assert Placed(s.holdHistory, key, h.holdId);
    }
  }

  lemma PutHoldIds(w: World, key: (string, string), h: LegalHold)
    requires Ids(w) && Holds(w.store) && MayPut(w.store, key, h)
    ensures Ids(w.(store := AfterPut(w.store, key, h)))
  {
    PutHoldOwner(w, key, h);
    PutHoldNames(w.store, key, h);
  }

  lemma PutHoldOneOwner(w: World, key: (string, string), h: LegalHold)
    requires Ids(w) && Holds(w.store) && MayPut(w.store, key, h)
    ensures OneOwner(AfterPut(w.store, key, h).holdHistory)
  {
    var s := w.store;
    var after := AfterPut(s, key, h).holdHistory;
    PutHoldOwner(w, key, h);
    forall k, l, id | Placed(after, k, id) && Placed(after, l, id) ensures k == l {
      PutHoldPlaces(s, key, h, k, id);
      PutHoldPlaces(s, key, h, l, id);
    }
  }

  lemma PutHoldHistory(w: World, key: (string, string), h: LegalHold)
    requires Ids(w) && Holds(w.store) && MayPut(w.store, key, h)
    ensures HistorySound(w.store, key, History(w.store, key) + [h])
  {
    var s := w.store;
    var history := History(s, key);
    if h.holdId !in s.usedIds {
      PutHoldOwner(w, key, h);
      forall i | 0 <= i < |history| ensures history[i].holdId != h.holdId {
        HoldIdsPlaced(s.holdHistory, history[i].holdId);
        assert Placed(s.holdHistory, key, history[i].holdId);
      }
    }
    HistoryExtends(s, key, history, h);
  }

  lemma PutHoldCurrent(s: Store, key: (string, string), h: LegalHold, k: (string, string))
    requires Holds(s) && HistorySound(s, key, History(s, key) + [h])
    requires k in AfterPut(s, key, h).holdHistory
    ensures
      var t := AfterPut(s, key, h);
      k in t.holds && HistorySound(t, k, t.holdHistory[k]) && t.holds[k] == t.holdHistory[k][|t.holdHistory[k]| - 1]
  {
    HistoryFrame(s, AfterPut(s, key, h), k, if k == key then History(s, key) + [h] else s.holdHistory[k]);
  }

  lemma PutHoldHolds(w: World, key: (string, string), h: LegalHold)
    requires Ids(w) && Holds(w.store) && MayPut(w.store, key, h)
    ensures Holds(AfterPut(w.store, key, h))
  {
    hide Ids, HoldSound, OneOwner;
    var t := AfterPut(w.store, key, h);
    PutHoldHistory(w, key, h);
    PutHoldOneOwner(w, key, h);
    forall k | k in t.holdHistory
      ensures HistorySound(t, k, t.holdHistory[k]) && t.holds[k] == t.holdHistory[k][|t.holdHistory[k]| - 1]
    {
      PutHoldCurrent(w.store, key, h, k);
    }
  }

  lemma PutHoldSafe(trust: Trust, w: World, key: (string, string), h: LegalHold)
    requires Runs(trust, w) && HoldSafe(w) && MayPut(w.store, key, h)
    ensures HoldSafe(w.(store := AfterPut(w.store, key, h)))
  {
    var s := w.store;
    var t := AfterPut(s, key, h);
    forall k, r | k in t.runs && t.runs[k].completedAt.Some? && r in w.ever && r.recordId in t.runs[k].Candidates()
      ensures Clear(History(t, (t.tenantId, r.scopeId)), t.runs[k].receipts)
    {
      assert Clear(History(s, (s.tenantId, r.scopeId)), s.runs[k].receipts);
      if (s.tenantId, r.scopeId) == key {
        assert RunSound(w, s.runs[k]);
        ClearExtends(History(s, key), h, s.runs[k].receipts);
      } else {
        assert History(t, (t.tenantId, r.scopeId)) == History(s, (s.tenantId, r.scopeId));
      }
    }
  }

  // ----- expiry and runs -----

  lemma {:induction false} SelectMember(records: seq<Record>, wanted: Record -> bool, id: string)
    ensures id in Select(records, wanted) <==> exists r :: r in records && wanted(r) && r.recordId == id
  {
    if records != [] {
      SelectMember(records[1..], wanted, id);
      assert records == [records[0]] + records[1..];
      assert forall r :: r in records <==> r == records[0] || r in records[1..];
      assert id in Select(records, wanted)
        <==> (wanted(records[0]) && id == records[0].recordId) || id in Select(records[1..], wanted);
    }
  }

  predicate DistinctIds(records: seq<Record>) {
    forall i, j :: 0 <= i < j < |records| ==> records[i].recordId != records[j].recordId
  }

  lemma {:induction false} SelectDistinct(records: seq<Record>, wanted: Record -> bool)
    requires DistinctIds(records)
    ensures Distinct(Select(records, wanted))
  {
    if records != [] {
      SelectDistinct(records[1..], wanted);
      if wanted(records[0]) {
        SelectMember(records[1..], wanted, records[0].recordId);
      }
    }
  }

  lemma {:induction false} WithoutMember(records: seq<Record>, ids: set<string>, r: Record)
    ensures r in Without(records, ids) <==> r in records && r.recordId !in ids
  {
    if records != [] {
      WithoutMember(records[1..], ids, r);
      assert r in records <==> r == records[0] || r in records[1..];
    }
  }

  lemma {:induction false} WithoutDistinct(records: seq<Record>, ids: set<string>)
    requires Distinct(records)
    ensures Distinct(Without(records, ids))
  {
    if records != [] {
      WithoutDistinct(records[1..], ids);
      WithoutMember(records[1..], ids, records[0]);
    }
  }

  lemma ExpireKeeps(trust: Trust, w: World, ids: set<string>)
    requires Inv(trust, w) && ids <= IdsOf(Records(w.store))
    ensures Inv(trust, w.(store := w.store.(expiredIds := w.store.expiredIds + ids)))
  {
    var v := w.(store := w.store.(expiredIds := w.store.expiredIds + ids));
    IdsFrame(w, v);
    HoldsFrame(w.store, v.store);
    RunsFrame(trust, w, v);
    assert Taken(v.store, true) == Taken(w.store, true) && Taken(v.store, false) == Taken(w.store, false);
    HoldSafeFrame(w, v);
    GrantsFrame(w, v);
  }

  /** Replace an incomplete run by one that differs only in its attempt count. */
  lemma RetryKeeps(trust: Trust, w: World, k: string)
    requires Inv(trust, w) && k in w.store.runs && w.store.runs[k].completedAt.None?
    ensures Inv(trust, w.(store := PutRun(w.store, Retried(w.store.runs[k]))))
  {
    var s := w.store;
    var v := w.(store := PutRun(s, Retried(s.runs[k])));
    assert v.store.runs.Keys == s.runs.Keys;
    IdsFrame(w, v);
    HoldsFrame(s, v.store);
    RetryRuns(trust, w, k);
    RetryTaken(s, k, true);
    RetryTaken(s, k, false);
    forall j, r | j in v.store.runs && v.store.runs[j].completedAt.Some? && r in v.ever
                  && r.recordId in v.store.runs[j].Candidates()
      ensures Clear(History(v.store, (v.store.tenantId, r.scopeId)), v.store.runs[j].receipts)
    {
      assert Clear(History(s, (s.tenantId, r.scopeId)), s.runs[j].receipts);
    }
    GrantsFrame(w, v);
  }

  lemma RetryTaken(s: Store, k: string, completed: bool)
    requires k in s.runs && s.runs[k].runId == k
    ensures Taken(PutRun(s, Retried(s.runs[k])), completed) == Taken(s, completed)
  {
    var t := PutRun(s, Retried(s.runs[k]));
    assert forall j :: j in s.runs ==>
      t.runs[j].completedAt == s.runs[j].completedAt && t.runs[j].Candidates() == s.runs[j].Candidates();
  }

  lemma RetriedSound(w: World, run: Run)
    requires RunSound(w, run)
    ensures RunSound(w, Retried(run))
  {}

  lemma RetryRuns(trust: Trust, w: World, k: string)
    requires Runs(trust, w) && k in w.store.runs && w.store.runs[k].completedAt.None?
    ensures Runs(trust, w.(store := PutRun(w.store, Retried(w.store.runs[k]))))
  {
    hide RunSound, VerifyRun;
    var s := w.store;
    var v := w.(store := PutRun(s, Retried(s.runs[k])));
    forall j | j in v.store.runs ensures v.store.runs[j].runId == j && RunSound(v, v.store.runs[j]) {
      RetriedSound(w, s.runs[j]);
      RunFrame(w, v, v.store.runs[j]);
    }
    assert forall j, id :: Candidate(v.store.runs, j, id) <==> Candidate(s.runs, j, id);
  }

  ghost predicate MayAddRun(trust: Trust, w: World, run: Run) {
    && run.runId !in w.store.usedIds
    && run.idempotencyKey !in w.store.idempotencyKeys
    && run.completedAt.None?
    && run.manifestDigest == ManifestDigest(trust, run)
    && RunSound(w, run)
    && (forall id :: id in run.Candidates() ==> id in w.store.expiredIds && id !in w.store.reservedIds)
  }

  lemma AddRunKeeps(trust: Trust, w: World, run: Run)
    requires Inv(trust, w) && MayAddRun(trust, w, run)
    ensures Inv(trust, w.(store := AddRun(w.store, run)))
  {
    var s := w.store;
    var v := w.(store := AddRun(s, run));
    AddRunIds(w, run);
    HoldsFrame(s, v.store);
    AddRunRuns(trust, w, run);
    AddRunConserved(trust, w, run);
    AddRunHoldSafe(w, run);
    GrantsFrame(w, v);
  }

  lemma AddRunHoldSafe(w: World, run: Run)
    requires HoldSafe(w) && run.completedAt.None?
    ensures HoldSafe(w.(store := AddRun(w.store, run)))
  {
    var s := w.store;
    var t := AddRun(s, run);
    forall j, r | j in t.runs && t.runs[j].completedAt.Some? && r in w.ever && r.recordId in t.runs[j].Candidates()
      ensures Clear(History(t, (t.tenantId, r.scopeId)), t.runs[j].receipts)
    {
      assert Clear(History(s, (s.tenantId, r.scopeId)), s.runs[j].receipts);
    }
  }

  /** A candidate that is expired and not reserved belongs to no run. */
  lemma UnreservedIsFree(w: World, id: string)
    requires Conserved(w) && id in w.store.expiredIds && id !in w.store.reservedIds
    ensures forall k :: !Candidate(w.store.runs, k, id)
  {
    var s := w.store;
    var r :| r in Records(s) && r.recordId == id;
    assert id !in Taken(s, true) && id !in Taken(s, false);
  }

  lemma AddRunSeparate(trust: Trust, w: World, run: Run)
    requires Conserved(w) && OneRunEach(w.store.runs) && MayAddRun(trust, w, run) && run.runId !in w.store.runs
    ensures OneRunEach(w.store.runs[run.runId := run])
  {
    var after := w.store.runs[run.runId := run];
    forall k, l, id | Candidate(after, k, id) && Candidate(after, l, id) ensures k == l {
      if id in run.Candidates() {
        UnreservedIsFree(w, id);
        assert !Candidate(w.store.runs, k, id) && !Candidate(w.store.runs, l, id);
      } else {
        assert Candidate(w.store.runs, k, id) && Candidate(w.store.runs, l, id);
      }
    }
  }

  lemma AddRunRuns(trust: Trust, w: World, run: Run)
    requires Runs(trust, w) && Conserved(w) && MayAddRun(trust, w, run) && run.runId !in w.store.runs
    ensures Runs(trust, w.(store := AddRun(w.store, run)))
  {
    var s := w.store;
    var v := w.(store := AddRun(s, run));
    forall j | j in v.store.runs ensures v.store.runs[j].runId == j && RunSound(v, v.store.runs[j]) {
      RunFrame(w, v, if j == run.runId then run else s.runs[j]);
    }
    AddRunSeparate(trust, w, run);
  }

  lemma AddRunIds(w: World, run: Run)
    requires Ids(w) && run.runId !in w.store.usedIds
    ensures Ids(w.(store := AddRun(w.store, run)))
  {
  }

  lemma AddRunConserved(trust: Trust, w: World, run: Run)
    requires Runs(trust, w) && Conserved(w) && MayAddRun(trust, w, run) && run.runId !in w.store.runs
    ensures Conserved(w.(store := AddRun(w.store, run)))
  {
    hide VerifyRun, RunSound;
    var s := w.store;
    var t := AddRun(s, run);
    assert Records(t) == Records(s);
    assert forall k :: k in s.runs ==> t.runs[k] == s.runs[k];
    assert Taken(t, true) == Taken(s, true);
    assert Elements(run.Candidates()) == Elements(run.operationalIds) + Elements(run.auditIds);
    assert Taken(t, false) == Taken(s, false) + Elements(run.Candidates()) by {
      forall id | id in Elements(run.Candidates()) ensures id in Taken(t, false) {
        assert t.runs[run.runId] == run;
      }
    }
  }

  // ----- completion -----

  /** `done` finishes the incomplete run stored under its identifier. */
  ghost predicate MayCommit(trust: Trust, w: World, done: Run) {
    var s := w.store;
    && done.runId in s.runs
    && s.runs[done.runId].completedAt.None?
    && s.runs[done.runId].idempotencyKey == done.idempotencyKey
    && s.runs[done.runId].operationalIds == done.operationalIds
    && s.runs[done.runId].auditIds == done.auditIds
    && RunSound(w, done)
    && VerifyRun(trust, done)
    && (forall r :: r in w.ever && r.recordId in done.Candidates() ==>
          Clear(History(s, (s.tenantId, r.scopeId)), done.receipts))
  }

  lemma CommitKeeps(trust: Trust, w: World, done: Run)
    requires Inv(trust, w) && MayCommit(trust, w, done)
    ensures Inv(trust, At(w, Commit(w.store, done)))
    ensures At(w, Commit(w.store, done)) == w.(store := Commit(w.store, done))
  {
    var s := w.store;
    var t := Commit(s, done);
    var v := w.(store := t);
    CommitRecords(s, done);
    assert At(w, t) == v;
    CommitIds(w, done);
    HoldsFrame(s, t);
    CommitRuns(trust, w, done);
    CommitConserved(trust, w, done);
    CommitHoldSafe(trust, w, done);
    GrantsFrame(w, v);
  }

  lemma CommitRecords(s: Store, done: Run)
    ensures Records(Commit(s, done)) == set r | r in Records(s) && r.recordId !in done.Candidates()
  {
    var t := Commit(s, done);
    forall r ensures r in Records(t) <==> r in Records(s) && r.recordId !in done.Candidates() {
      WithoutMember(s.operational, Elements(done.Candidates()), r);
      WithoutMember(s.audits, Elements(done.Candidates()), r);
    }
  }

  lemma CommitIds(w: World, done: Run)
    requires Ids(w) && done.runId in w.store.runs
    ensures Ids(w.(store := Commit(w.store, done)))
  {
    var s := w.store;
    var t := Commit(s, done);
    var gone := Elements(done.Candidates());
    CommitRecords(s, done);
    WithoutDistinct(s.operational, gone);
    WithoutDistinct(s.audits, gone);
    forall r | r in t.operational ensures r.Operational? { WithoutMember(s.operational, gone, r); }
    forall r | r in t.audits ensures r.Audit? { WithoutMember(s.audits, gone, r); }
    assert t.runs.Keys == s.runs.Keys;
  }

  lemma CommitRuns(trust: Trust, w: World, done: Run)
    requires Runs(trust, w) && MayCommit(trust, w, done)
    ensures Runs(trust, w.(store := Commit(w.store, done)))
  {
    hide RunSound;
    var s := w.store;
    var v := w.(store := Commit(s, done));
    forall j | j in v.store.runs ensures v.store.runs[j].runId == j && RunSound(v, v.store.runs[j]) {
      RunFrame(w, v, if j == done.runId then done else s.runs[j]);
    }
    assert forall j, id :: Candidate(v.store.runs, j, id) <==> Candidate(s.runs, j, id);
  }

  lemma CommitConserved(trust: Trust, w: World, done: Run)
    requires Conserved(w) && OneRunEach(w.store.runs) && MayCommit(trust, w, done)
    ensures Conserved(w.(store := Commit(w.store, done)))
  {
    var s := w.store;
    var t := Commit(s, done);
    var gone := Elements(done.Candidates());
    CommitRecords(s, done);
    CommitTaken(s, done);
    assert Records(t) == set r | r in w.ever && r.recordId !in Taken(t, true);
    forall id | id in t.expiredIds ensures id in IdsOf(Records(t)) {
      var r :| r in Records(s) && r.recordId == id;
      assert r in Records(t);
    }
  }

  lemma CommitTaken(s: Store, done: Run)
    requires done.runId in s.runs && s.runs[done.runId].completedAt.None? && done.completedAt.Some?
    requires s.runs[done.runId].Candidates() == done.Candidates()
    requires OneRunEach(s.runs)
    ensures Taken(Commit(s, done), true) == Taken(s, true) + Elements(done.Candidates())
    ensures Taken(Commit(s, done), false) == Taken(s, false) - Elements(done.Candidates())
  {
    var t := Commit(s, done);
    var gone := Elements(done.Candidates());
    forall k | k in s.runs && k != done.runId ensures t.runs[k] == s.runs[k] {}
    forall id ensures id in Taken(t, true) <==> id in Taken(s, true) + gone {
      if id in gone { assert id in t.runs[done.runId].Candidates(); }
    }
    forall id ensures id in Taken(t, false) <==> id in Taken(s, false) - gone {
      if id in Taken(t, false) {
        var k :| k in t.runs && t.runs[k].completedAt.None? && id in t.runs[k].Candidates();
        assert Candidate(s.runs, k, id) && k != done.runId;
        assert id in gone ==> Candidate(s.runs, done.runId, id);
      }
      if id in Taken(s, false) && id !in gone {
        var k :| k in s.runs && s.runs[k].completedAt.None? && id in s.runs[k].Candidates();
        assert k != done.runId;
      }
    }
  }

  lemma CommitHoldSafe(trust: Trust, w: World, done: Run)
    requires HoldSafe(w) && MayCommit(trust, w, done)
    ensures HoldSafe(w.(store := Commit(w.store, done)))
  {
    var s := w.store;
    var t := Commit(s, done);
    forall j, r | j in t.runs && t.runs[j].completedAt.Some? && r in w.ever && r.recordId in t.runs[j].Candidates()
      ensures Clear(History(t, (t.tenantId, r.scopeId)), t.runs[j].receipts)
    {
      if j != done.runId {
        assert Clear(History(s, (s.tenantId, r.scopeId)), s.runs[j].receipts);
      }
    }
  }

  lemma {:induction false} FindRecordFinds(records: seq<Record>, id: string)
    ensures FindRecord(records, id).Some? ==>
              FindRecord(records, id).value in records && FindRecord(records, id).value.recordId == id
    ensures FindRecord(records, id).None? ==> forall r :: r in records ==> r.recordId != id
  {
    if records != [] && records[0].recordId != id {
      FindRecordFinds(records[1..], id);
      assert forall r :: r in records <==> r == records[0] || r in records[1..];
    }
  }

  /** A candidate of an incomplete run is still stored, so its scope is always found. */
  lemma CandidateScopeFound(trust: Trust, w: World, k: string, r: Record)
    requires Inv(trust, w)
    requires k in w.store.runs && w.store.runs[k].completedAt.None?
    requires r in w.ever && r.recordId in w.store.runs[k].Candidates()
    ensures r in Records(w.store)
    ensures RecordScope(w.store, r.recordId) == Some(r.scopeId)
  {
    var s := w.store;
    assert r.recordId in Taken(s, false);
    var x :| x in Records(s) && x.recordId == r.recordId;
    assert x == r;
    FindRecordFinds(s.operational, r.recordId);
    FindRecordFinds(s.audits, r.recordId);
  }

  lemma UnblockedIsClear(s: Store, scopeId: string, receipts: seq<Attestation>)
    requires !DeletionIntersectsHold(s, scopeId, receipts)
    ensures Clear(History(s, (s.tenantId, scopeId)), receipts)
  {
    var history := History(s, (s.tenantId, scopeId));
    forall i, a | Latest(history, i) && a in receipts ensures !StrictlyWithin(history[i], a.deletedAt) {
      assert !WithinHold(history[i], a.deletedAt);
    }
  }

  /** Changing nothing that is recorded keeps the same set of records ever held. */
  lemma AtKeeps(w: World, s: Store)
    requires Ids(w) && s.operational == w.store.operational && s.audits == w.store.audits
    ensures At(w, s) == w.(store := s)
  {
    assert Records(s) == Records(w.store);
    assert w.ever + Records(s) == w.ever;
  }

  ghost predicate StoreKeeps(trust: Trust, w: World, s: Store) {
    Inv(trust, At(w, s)) && At(w, s).trace == w.trace
  }

  lemma CompleteKeeps(trust: Trust, w: World, k: string, receipts: seq<Attestation>, now: Instant)
    requires Inv(trust, w) && k in w.store.runs && w.store.runs[k].completedAt.None?
    requires w.store.lastNow == Some(now)
    ensures StoreKeeps(trust, w, CompleteIncomplete(trust, w.store, w.store.runs[k], receipts, now).0)
  {
    hide Ids, Holds, Runs, Conserved, HoldSafe, Grants;
    var s := w.store;
    var run := s.runs[k];
    AtKeeps(w, s);
    AtKeeps(w, PutRun(s, Retried(run)));
    if exists id :: id in run.Candidates() && Blocked(s, id, receipts, now) {
      RetryKeeps(trust, w, k);
    } else if ExactlyCovers(receipts, run.Candidates())
              && forall a :: a in receipts ==> a.tenantId == s.tenantId && ReceiptBound(trust, run, now, a) {
      CompletedMayCommit(trust, w, k, receipts, now);
      CommitKeeps(trust, w, Completed(trust, run, receipts, now));
    }
  }

  lemma CompletedMayCommit(trust: Trust, w: World, k: string, receipts: seq<Attestation>, now: Instant)
    requires Inv(trust, w) && k in w.store.runs && w.store.runs[k].completedAt.None?
    requires w.store.lastNow == Some(now)
    requires forall id :: id in w.store.runs[k].Candidates() ==> !Blocked(w.store, id, receipts, now)
    requires ExactlyCovers(receipts, w.store.runs[k].Candidates())
    requires forall a :: a in receipts ==> ReceiptBound(trust, w.store.runs[k], now, a)
    ensures MayCommit(trust, w, Completed(trust, w.store.runs[k], receipts, now))
  {
    var s := w.store;
    var run := s.runs[k];
    var done := Completed(trust, run, receipts, now);
    CompletedVerifies(trust, run, receipts, now);
    RunFrame(w, w, run);
    forall r | r in w.ever && r.recordId in done.Candidates()
      ensures Clear(History(s, (s.tenantId, r.scopeId)), done.receipts)
    {
      CandidateScopeFound(trust, w, k, r);
      assert !Blocked(s, r.recordId, receipts, now);
      UnblockedIsClear(s, r.scopeId, receipts);
    }
  }

  lemma CompletedVerifies(trust: Trust, run: Run, receipts: seq<Attestation>, now: Instant)
    requires run.Candidates() != [] && run.cutoffAt <= now && run.manifestDigest == ManifestDigest(trust, run)
    requires ExactlyCovers(receipts, run.Candidates())
    requires forall a :: a in receipts ==> ReceiptBound(trust, run, now, a)
    ensures VerifyRun(trust, Completed(trust, run, receipts, now))
  {
    var done := Completed(trust, run, receipts, now);
    assert done.(checksum := "") == run.(attempts := run.attempts + 1, receipts := receipts, completedAt := Some(now),
                     completionDigest := CompletionDigest(trust, receipts)).(checksum := "");
    assert forall a :: a in receipts ==> ReceiptBound(trust, done, now, a);
  }

  // ----- break-glass steps -----

  lemma TraceGrows(trace: seq<Moment>, m: Moment, grantId: string)
    ensures forall kind :: Happened(trace + [m], kind, grantId)
              <==> Happened(trace, kind, grantId) || (m.Stepped? && m.kind == kind && m.grantId == grantId)
    ensures Mentioned(trace + [m], grantId) <==> Mentioned(trace, grantId) || m.grantId == grantId
    ensures forall a, x, e :: RequestedAs(trace, grantId, a, x, e) ==> RequestedAs(trace + [m], grantId, a, x, e)
    ensures forall a :: ApprovedByOther(trace, grantId, a) ==> ApprovedByOther(trace + [m], grantId, a)
    ensures m.Stepped? && m.kind == Approve && m.grantId == grantId ==>
              forall a :: a != m.actor ==> ApprovedByOther(trace + [m], grantId, a)
  {
    var grown := trace + [m];
    assert grown[|trace|] == m;
    assert forall i :: 0 <= i < |trace| ==> grown[i] == trace[i];
  }

  lemma LawfulExtends(trace: seq<Moment>, m: Moment)
    requires LawfulTrace(trace) && Lawful(trace, m)
    ensures LawfulTrace(trace + [m])
  {
    var grown := trace + [m];
    forall i | 0 <= i < |grown| ensures Lawful(grown[..i], grown[i]) {
      assert grown[..i] == trace[..i];
      assert trace[..|trace|] == trace;
    }
  }

  /** A step in the trace about `m.grantId` leaves every other grant's account as it was. */
  lemma OtherGrantsFrame(s: Store, t: Store, trace: seq<Moment>, m: Moment, g: Grant)
    requires GrantSound(s, trace, g) && t.tenantId == s.tenantId && (m.Used? || m.grantId != g.grantId)
    ensures GrantSound(t, trace + [m], g)
  {
    TraceGrows(trace, m, g.grantId);
  }

  lemma GrantsExtend(w: World, grants: map<string, Grant>, m: Moment)
    requires Grants(w) && Lawful(w.trace, m) && m.grantId in grants
    requires grants.Keys == w.store.grants.Keys + {m.grantId}
    requires grants[m.grantId].grantId == m.grantId
    requires GrantSound(w.store, w.trace + [m], grants[m.grantId])
    requires forall k :: k in w.store.grants && k != m.grantId ==> grants[k] == w.store.grants[k]
    ensures LawfulTrace(w.trace + [m])
    ensures forall k :: k in grants ==> grants[k].grantId == k && GrantSound(w.store, w.trace + [m], grants[k])
    ensures forall g :: Mentioned(w.trace + [m], g) ==> g in grants
  {
    LawfulExtends(w.trace, m);
    forall k | k in grants ensures grants[k].grantId == k && GrantSound(w.store, w.trace + [m], grants[k]) {
      if k != m.grantId { OtherGrantsFrame(w.store, w.store, w.trace, m, grants[k]); }
    }
    forall g | Mentioned(w.trace + [m], g) ensures g in grants { TraceGrows(w.trace, m, g); }
  }

  /** Everything but the grants and the identifiers is as before. */
  lemma GrantsOnlyKeeps(trust: Trust, w: World, v: World)
    requires Inv(trust, w) && Ids(v) && Grants(v)
    requires v.ever == w.ever
    requires v.store == w.store.(grants := v.store.grants, usedIds := v.store.usedIds)
    ensures Inv(trust, v)
  {
    HoldsFrame(w.store, v.store);
    RunsFrame(trust, w, v);
    ConservedFrame(w, v);
    HoldSafeFrame(w, v);
  }

  lemma AddGrantKeeps(trust: Trust, w: World, g: Grant)
    requires Inv(trust, w) && g.grantId !in w.store.usedIds && g.tenantId == w.store.tenantId
    requires g.approverId.None? && g.revokedAt.None? && g.expiredAt.None?
    ensures
      var t := w.store.(grants := w.store.grants[g.grantId := g], usedIds := w.store.usedIds + {g.grantId});
      Inv(trust, World(t, w.ever, w.trace + [Requested(g.grantId, g.requesterId, g.expiresAt, g.restoreEpoch)]))
  {
    var t := w.store.(grants := w.store.grants[g.grantId := g], usedIds := w.store.usedIds + {g.grantId});
    var m := Requested(g.grantId, g.requesterId, g.expiresAt, g.restoreEpoch);
    var v := World(t, w.ever, w.trace + [m]);
    assert !Mentioned(w.trace, g.grantId);
    TraceGrows(w.trace, m, g.grantId);
    assert RequestedAs(v.trace, g.grantId, g.requesterId, g.expiresAt, g.restoreEpoch);
    NeverHappened(w.trace, g.grantId);
    GrantsExtend(w, t.grants, m);
    assert Grants(v);
    AddGrantIds(w, g);
    GrantsOnlyKeeps(trust, w, v);
  }

  lemma AddGrantIds(w: World, g: Grant)
    requires Ids(w) && g.grantId !in w.store.usedIds
    ensures Ids(World(w.store.(grants := w.store.grants[g.grantId := g], usedIds := w.store.usedIds + {g.grantId}),
        w.ever,
                      w.trace + [Requested(g.grantId, g.requesterId, g.expiresAt, g.restoreEpoch)]))
  {
  }

  lemma NeverHappened(trace: seq<Moment>, grantId: string)
    requires !Mentioned(trace, grantId)
    ensures forall kind :: !Happened(trace, kind, grantId)
  {
  }

  lemma MoveIsLawful(w: World, kind: Transition, id: string, p: Principal, now: Instant)
    requires Grants(w) && id in w.store.grants && TransitionAllowed(kind, w.store.grants[id], p, now)
    ensures Lawful(w.trace, Stepped(kind, id, p.principalId, now))
    ensures GrantSound(w.store, w.trace + [Stepped(kind, id, p.principalId, now)],
        Moved(kind, w.store.grants[id], p, now))
  {
    hide LawfulTrace;
    var g := w.store.grants[id];
    TraceGrows(w.trace, Stepped(kind, id, p.principalId, now), id);
    assert RequestedAs(w.trace, id, g.requesterId, g.expiresAt, g.restoreEpoch);
  }

  lemma MoveGrantKeeps(trust: Trust, w: World, kind: Transition, id: string, p: Principal, now: Instant)
    requires Inv(trust, w) && id in w.store.grants && TransitionAllowed(kind, w.store.grants[id], p, now)
    ensures
      var t := w.store.(grants := w.store.grants[id := Moved(kind, w.store.grants[id], p, now)]);
      Inv(trust, World(t, w.ever, w.trace + [Stepped(kind, id, p.principalId, now)]))
  {
    hide Ids, Holds, Runs, Conserved, HoldSafe, Lawful, LawfulTrace, GrantSound;
    var t := w.store.(grants := w.store.grants[id := Moved(kind, w.store.grants[id], p, now)]);
    var m := Stepped(kind, id, p.principalId, now);
    var v := World(t, w.ever, w.trace + [m]);
    MoveIsLawful(w, kind, id, p, now);
    GrantsExtend(w, t.grants, m);
    MovedGrants(w, v);
    assert t.grants.Keys == w.store.grants.Keys;
    IdsFrame(w, v);
    GrantsOnlyKeeps(trust, w, v);
  }

  lemma MovedGrants(w: World, v: World)
    requires v.store == w.store.(grants := v.store.grants) && LawfulTrace(v.trace)
    requires forall k :: k in v.store.grants ==>
      v.store.grants[k].grantId == k && GrantSound(w.store, v.trace, v.store.grants[k])
    requires forall g :: Mentioned(v.trace, g) ==> g in v.store.grants
    ensures Grants(v)
  {}

  lemma UseKeeps(trust: Trust, w: World, use: BreakGlassUse, p: Principal, now: Instant)
    requires Inv(trust, w) && UseAllowed(w.store, use, p, now)
    ensures Inv(trust, w.(trace := w.trace + [Used(use.grantId, p.principalId, now, use.restoreEpoch)]))
  {
    var g := w.store.grants[use.grantId];
    var m := Used(use.grantId, p.principalId, now, use.restoreEpoch);
    var v := w.(trace := w.trace + [m]);
    TraceGrows(w.trace, m, use.grantId);
    assert RequestedAs(w.trace, use.grantId, p.principalId, g.expiresAt, use.restoreEpoch);
    OtherGrantsFrame(w.store, w.store, w.trace, m, g);
    GrantsExtend(w, w.store.grants, m);
    assert Grants(v);
    GrantsOnlyKeeps(trust, w, v);
  }

  // ----- what each operation keeps -----

  lemma ThenKeeps(trust: Trust, w: World, s: Store, t: Store)
    requires StoreKeeps(trust, w, s) && StoreKeeps(trust, At(w, s), t) && Records(s) <= Records(t)
    ensures StoreKeeps(trust, w, t)
    ensures At(At(w, s), t) == At(w, t)
  {
    assert w.ever + Records(s) + Records(t) == w.ever + Records(t);
  }

  lemma SameKeeps(trust: Trust, w: World)
    requires Inv(trust, w)
    ensures StoreKeeps(trust, w, w.store)
    ensures At(w, w.store) == w
  {
    AtKeeps(w, w.store);
  }

  lemma AddedRecords(s: Store, r: Record)
    ensures Records(Added(s, r)) == Records(s) + {r}
  {
  }

  lemma AppendEventKeeps(trust: Trust, w: World, e: Event)
    requires Inv(trust, w)
    ensures AppendEvent(trust, w.store, e).Ok? ==>
              StoreKeeps(trust, w, AppendEvent(trust, w.store, e).value)
              && Records(w.store) <= Records(AppendEvent(trust, w.store, e).value)
  {
    if AppendEvent(trust, w.store, e).Ok? {
      AddRecordKeeps(trust, w, AuditOf(trust, w.store, e));
      AddedRecords(w.store, AuditOf(trust, w.store, e));
    }
  }

  lemma TickThenEventKeeps(trust: Trust, w: World, now: Instant, e: Event)
    requires Inv(trust, w) && ValidateNow(w.store, now).None?
    ensures StoreKeeps(trust, w, Tick(w.store, now))
    ensures AppendEvent(trust, Tick(w.store, now), e).Ok? ==>
              StoreKeeps(trust, w, AppendEvent(trust, Tick(w.store, now), e).value)
  {
    var t := Tick(w.store, now);
    TickKeeps(trust, w, now);
    AppendEventKeeps(trust, At(w, t), e);
    if AppendEvent(trust, t, e).Ok? {
      ThenKeeps(trust, w, t, AppendEvent(trust, t, e).value);
    }
  }

  lemma TickThenRecordKeeps(trust: Trust, w: World, now: Instant, r: Record)
    requires Inv(trust, w) && ValidateNow(w.store, now).None? && r.recordId !in w.store.usedIds
    ensures StoreKeeps(trust, w, Added(Tick(w.store, now), r))
  {
    var t := Tick(w.store, now);
    TickKeeps(trust, w, now);
    AddRecordKeeps(trust, At(w, t), r);
    AddedRecords(t, r);
    ThenKeeps(trust, w, t, Added(t, r));
  }

  lemma AppendOperationalKeeps(trust: Trust, w: World, r: OperationalLog, p: Principal, now: Instant)
    requires Inv(trust, w)
    ensures StoreKeeps(trust, w, AppendOperational(w.store, r, p, now).0)
  {
    SameKeeps(trust, w);
    if ValidateNow(w.store, now).None? {
      TickKeeps(trust, w, now);
      if r.recordId !in w.store.usedIds { TickThenRecordKeeps(trust, w, now, r); }
    }
  }

  lemma AppendAuditKeeps(trust: Trust, w: World, r: AuditRecord, p: Principal, now: Instant)
    requires Inv(trust, w)
    ensures StoreKeeps(trust, w, AppendAudit(trust, w.store, r, p, now).0)
  {
    SameKeeps(trust, w);
    if ValidateNow(w.store, now).None? {
      TickKeeps(trust, w, now);
      if r.recordId !in w.store.usedIds { TickThenRecordKeeps(trust, w, now, r); }
    }
  }

  lemma ReadAuditKeeps(trust: Trust, w: World, id: string, p: Principal, now: Instant, eventId: string)
    requires Inv(trust, w)
    ensures StoreKeeps(trust, w, ReadAudit(trust, w.store, id, p, now, eventId).0)
  {
    SameKeeps(trust, w);
    var found := FindRecord(w.store.audits, id);
    if Guard(w.store, p, now).None? {
      TickThenEventKeeps(trust, w, now,
        Event(eventId, AuditAccessed, p, id, if found.Some? then found.value.scopeId else "", ReadState, now));
    }
  }

  lemma ChangePolicyKeeps(trust: Trust, w: World, change: PolicyChange, evidence: Option<AuditRecord>, p: Principal,
                          now: Instant)
    requires Inv(trust, w)
    ensures StoreKeeps(trust, w, ChangePolicy(trust, w.store, change, evidence, p, now).0)
  {
    SameKeeps(trust, w);
    if ChangePolicy(trust, w.store, change, evidence, p, now).1.Ok? {
      var t := Added(Tick(w.store, now), evidence.value);
      TickThenRecordKeeps(trust, w, now, evidence.value);
      PolicyKeeps(trust, At(w, t), change.policy);
      assert Records(t.(policy := change.policy)) == Records(t);
    }
  }

  lemma PlaceHoldKeeps(trust: Trust, w: World, c: HoldPlace, p: Principal, now: Instant)
    requires Inv(trust, w)
    ensures StoreKeeps(trust, w, PlaceHold(trust, w.store, c, p, now).0)
  {
    hide Ids, Runs, Conserved, HoldSafe, Grants;
    SameKeeps(trust, w);
    var s := w.store;
    var event := Event(c.eventId, HoldPlaced, p, c.holdId, c.scopeId, HoldState(c.caseId, c.authority, 1), now);
    if Guard(s, p, now).None? {
      TickThenEventKeeps(trust, w, now, event);
      if PlaceHold(trust, s, c, p, now).1.Ok? {
        var t := AppendEvent(trust, Tick(s, now), event).value;
        var key := (s.tenantId, c.scopeId);
        var hold := NewHold(s, c, now);
        assert MayPut(t, key, hold);
        PutHoldKeeps(trust, At(w, t), key, hold);
        ThenKeeps(trust, w, t, AfterPut(t, key, hold));
      }
    }
  }

  /** The identifier of a current hold names it uniquely, and `FindHold` finds it. */
  lemma FindHoldFinds(w: World, holdId: string)
    requires Holds(w.store)
    ensures forall k :: k in HoldKeys(w.store, holdId) ==> FindHold(w.store, holdId) == Some(w.store.holds[k])
    ensures HoldKeys(w.store, holdId) == {} ==> FindHold(w.store, holdId) == None
  {
    var s := w.store;
    forall k | k in s.holds ensures Placed(s.holdHistory, k, s.holds[k].holdId) {
      assert s.holds[k] in s.holdHistory[k];
    }
    forall k, l | k in HoldKeys(s, holdId) && l in HoldKeys(s, holdId) ensures k == l {
      assert Placed(s.holdHistory, k, holdId) && Placed(s.holdHistory, l, holdId);
    }
  }

  lemma ReleaseHoldKeeps(trust: Trust, w: World, id: string, p: Principal, now: Instant, eventId: string,
                         reason: string)
    requires Inv(trust, w)
    ensures StoreKeeps(trust, w, ReleaseHold(trust, w.store, id, p, now, eventId, reason).0)
  {
    SameKeeps(trust, w);
    var s := w.store;
    var hold := FindHold(s, id);
    if Guard(s, p, now).None? && hold.Some? && hold.value.releasedAt.None? {
      var k :| k in HoldKeys(s, id) && s.holds[k] == hold.value;
      ReleaseFoundKeeps(trust, w, k, p, now, eventId, reason);
    }
  }

  lemma CurrentHoldKnown(w: World, k: (string, string))
    requires Ids(w) && Holds(w.store) && k in w.store.holds
    ensures HoldSound(w.store, k, w.store.holds[k])
    ensures w.store.holds[k].holdId in w.store.usedIds
    ensures
      var history := History(w.store, k);
      history != [] && history[|history| - 1] == w.store.holds[k]
  {
    var s := w.store;
    var hold := s.holds[k];
    assert hold in s.holdHistory[k];
    assert Placed(s.holdHistory, k, hold.holdId);
    HoldIdsPlaced(s.holdHistory, hold.holdId);
  }

  lemma ReleaseMayPut(w: World, k: (string, string), now: Instant, reason: string)
    requires Ids(w) && Holds(w.store) && k in w.store.holds && w.store.holds[k].releasedAt.None?
    requires w.store.lastNow == Some(now) && HoldValid(Released(w.store.holds[k], reason, now))
    ensures MayPut(w.store, k, Released(w.store.holds[k], reason, now))
    ensures AfterPut(w.store, k, Released(w.store.holds[k], reason, now))
            == PutHold(w.store, k, Released(w.store.holds[k], reason, now))
  {
    CurrentHoldKnown(w, k);
    assert w.store.usedIds + {w.store.holds[k].holdId} == w.store.usedIds;
  }

  lemma CurrentHold(trust: Trust, w: World, k: (string, string))
    requires Inv(trust, w) && k in w.store.holds
    ensures HoldSound(w.store, k, w.store.holds[k])
  {
    hide Ids, Runs, Conserved, HoldSafe, Grants;
    assert HistorySound(w.store, k, w.store.holdHistory[k]);
  }

  lemma ReleaseFoundKeeps(trust: Trust, w: World, k: (string, string), p: Principal, now: Instant, eventId: string,
                          reason: string)
    requires Inv(trust, w) && ValidateNow(w.store, now).None? && k in w.store.holds
    requires w.store.holds[k].releasedAt.None?
    ensures StoreKeeps(trust, w,
              ReleaseHoldFound(trust, w.store, Some(w.store.holds[k]), w.store.holds[k].holdId, p, now, eventId,
                  reason).0)
  {
    hide Ids, Holds, Runs, Conserved, HoldSafe, Grants;
    SameKeeps(trust, w);
    var s := w.store;
    var hold := s.holds[k];
    var released := Released(hold, reason, now);
    CurrentHold(trust, w, k);
    var event := Event(eventId, HoldReleased, p, hold.holdId, hold.scopeId,
                       HoldState(hold.caseId, hold.authority, released.revision), now);
    TickThenEventKeeps(trust, w, now, event);
    var appended := AppendEvent(trust, Tick(s, now), event);
    if HoldValid(released) && appended.Ok? {
      var t := appended.value;
      ReleaseMayPut(At(w, t), k, now, reason);
      PutHoldKeeps(trust, At(w, t), k, released);
      ThenKeeps(trust, w, t, PutHold(t, k, released));
    }
  }

  lemma SelectedAreRecords(records: seq<Record>, wanted: Record -> bool)
    ensures Elements(Select(records, wanted)) <= IdsOf(Elements(records))
  {
    forall id | id in Select(records, wanted) ensures id in IdsOf(Elements(records)) {
      SelectMember(records, wanted, id);
      var r :| r in records && wanted(r) && r.recordId == id;
    }
  }

  lemma ExpireOpKeeps(trust: Trust, w: World, p: Principal, now: Instant)
    requires Inv(trust, w)
    ensures StoreKeeps(trust, w, Expire(trust, w.store, p, now).0)
  {
    SameKeeps(trust, w);
    var s := w.store;
    if Guard(s, p, now).None? {
      var t := Tick(s, now);
      TickKeeps(trust, w, now);
      var held := HeldScopes(t, now);
      SelectedAreRecords(t.operational, (r: Record) =>
        r.recordId !in t.expiredIds && r.scopeId !in held && r.occurredAt <= now - t.policy.operationalDays * DAY);
      SelectedAreRecords(t.audits, (r: Record) =>
        r.recordId !in t.expiredIds && r.scopeId !in held && r.occurredAt <= now - t.policy.auditDays * DAY);
      var ids := Elements(Expiring(t, t.operational, now, t.policy.operationalDays))
                 + Elements(Expiring(t, t.audits, now, t.policy.auditDays));
      assert ids <= IdsOf(Records(t));
      ExpireKeeps(trust, At(w, t), ids);
      assert t.expiredIds + ids == Expire(trust, s, p, now).0.expiredIds;
      AtKeeps(At(w, t), Expire(trust, s, p, now).0);
    }
  }

  lemma DistinctConcat<T>(a: seq<T>, b: seq<T>)
    requires Distinct(a) && Distinct(b) && forall x :: x in a ==> x !in b
    ensures Distinct(a + b)
  {
    forall i, j | 0 <= i < j < |a + b| ensures (a + b)[i] != (a + b)[j] {
      if i < |a| <= j { assert a[i] in a && b[j - |a|] in b; }
    }
  }

  lemma DistinctSelections(w: World, f: Record -> bool, g: Record -> bool)
    requires Ids(w)
    ensures Distinct(Select(w.store.operational, f) + Select(w.store.audits, g))
  {
    var s := w.store;
    forall i, j | 0 <= i < j < |s.operational| ensures s.operational[i].recordId != s.operational[j].recordId {
      assert s.operational[i] in w.ever && s.operational[j] in w.ever;
    }
    forall i, j | 0 <= i < j < |s.audits| ensures s.audits[i].recordId != s.audits[j].recordId {
      assert s.audits[i] in w.ever && s.audits[j] in w.ever;
    }
    SelectDistinct(s.operational, f);
    SelectDistinct(s.audits, g);
    forall x | x in Select(s.operational, f) ensures x !in Select(s.audits, g) {
      SelectMember(s.operational, f, x);
      SelectMember(s.audits, g, x);
      var r :| r in s.operational && f(r) && r.recordId == x;
      assert r in w.ever;
    }
    DistinctConcat(Select(s.operational, f), Select(s.audits, g));
  }

  /** What Eligible picks: expired, unreserved records of the right age. */
  lemma EligibleIds(s: Store, records: seq<Record>, now: Instant, days: int, id: string)
    requires id in Eligible(s, records, now, days)
    ensures id in s.expiredIds && id !in s.reservedIds
    ensures exists r :: r in records && r.recordId == id && r.occurredAt + days * DAY <= now
  {
    var held := HeldScopes(s, now);
    SelectMember(records, (r: Record) =>
      r.recordId in s.expiredIds && r.recordId !in s.reservedIds && r.scopeId !in held
      && r.occurredAt <= now - days * DAY, id);
  }

  lemma NewRunMayBeAdded(trust: Trust, w: World, runId: string, key: string, challenge: string, now: Instant)
    requires Inv(trust, w) && w.store.lastNow == Some(now)
    requires runId !in w.store.usedIds && key !in w.store.idempotencyKeys
    ensures Distinct(NewRun(trust, w.store, runId, key, challenge, now).Candidates())
    ensures NewRun(trust, w.store, runId, key, challenge, now).Candidates() != [] ==>
              MayAddRun(trust, w, NewRun(trust, w.store, runId, key, challenge, now))
  {
    var s := w.store;
    var run := NewRun(trust, s, runId, key, challenge, now);
    var held := HeldScopes(s, now);
    DistinctSelections(w,
      (r: Record) => r.recordId in s.expiredIds && r.recordId !in s.reservedIds && r.scopeId !in held
                     && r.occurredAt <= now - s.policy.operationalDays * DAY,
      (r: Record) => r.recordId in s.expiredIds && r.recordId !in s.reservedIds && r.scopeId !in held
                     && r.occurredAt <= now - s.policy.auditDays * DAY);
    forall id | id in run.operationalIds ensures Aged(w.ever, id, false, now, OPERATIONAL_DAYS) {
      EligibleIds(s, s.operational, now, s.policy.operationalDays, id);
      var r :| r in s.operational && r.recordId == id && r.occurredAt + s.policy.operationalDays * DAY <= now;
      assert r in w.ever;
    }
    forall id | id in run.auditIds ensures Aged(w.ever, id, true, now, AUDIT_DAYS) {
      EligibleIds(s, s.audits, now, s.policy.auditDays, id);
      var r :| r in s.audits && r.recordId == id && r.occurredAt + s.policy.auditDays * DAY <= now;
      assert r in w.ever;
    }
    forall id | id in run.Candidates() ensures id in s.expiredIds && id !in s.reservedIds {
      if id in run.operationalIds {
        EligibleIds(s, s.operational, now, s.policy.operationalDays, id);
      } else {
        EligibleIds(s, s.audits, now, s.policy.auditDays, id);
      }
    }
  }

  lemma StartRunKeeps(trust: Trust, w: World, id: string, key: string, challenge: string, p: Principal, now: Instant)
    requires Inv(trust, w)
    ensures StoreKeeps(trust, w, StartRun(trust, w.store, id, key, challenge, p, now).0)
  {
    SameKeeps(trust, w);
    var s := w.store;
    if Guard(s, p, now).None? {
      var t := Tick(s, now);
      var run := NewRun(trust, t, id, key, challenge, now);
      TickKeeps(trust, w, now);
      if key !in t.idempotencyKeys && RequireUnused(t, id).None? {
        NewRunMayBeAdded(trust, At(w, t), id, key, challenge, now);
        if run.Candidates() != [] && RunConstructible(run) {
          AddRunKeeps(trust, At(w, t), run);
          AtKeeps(At(w, t), AddRun(t, run));
        }
      }
    }
  }

  lemma ResumeRunKeeps(trust: Trust, w: World, id: string, p: Principal, now: Instant)
    requires Inv(trust, w)
    ensures StoreKeeps(trust, w, ResumeRun(w.store, id, p, now).0)
  {
    SameKeeps(trust, w);
    var s := w.store;
    if Guard(s, p, now).None? {
      var t := Tick(s, now);
      TickKeeps(trust, w, now);
      if id in t.runs && t.runs[id].completedAt.None? {
        RetryKeeps(trust, At(w, t), id);
        AtKeeps(At(w, t), PutRun(t, Retried(t.runs[id])));
      }
    }
  }

  lemma CompleteRunKeeps(trust: Trust, w: World, id: string, receipts: seq<Attestation>, p: Principal, now: Instant)
    requires Inv(trust, w)
    ensures StoreKeeps(trust, w, CompleteRun(trust, w.store, id, receipts, p, now).0)
  {
    SameKeeps(trust, w);
    var s := w.store;
    if ValidateNow(s, now).None? {
      var t := Tick(s, now);
      TickKeeps(trust, w, now);
      if id in t.runs && t.runs[id].completedAt.None? {
        CompleteKeeps(trust, At(w, t), id, receipts, now);
      }
    }
  }

  lemma RequestRefusedKeeps(trust: Trust, w: World, c: Command)
    requires Inv(trust, w) && c.CRequest?
    requires RequestBreakGlass(trust, w.store, c.request, c.p, c.epoch, c.now).1.Err?
    ensures StoreKeeps(trust, w, RequestBreakGlass(trust, w.store, c.request, c.p, c.epoch, c.now).0)
  {
    hide Inv, StoreKeeps, AppendEvent, RequestRefused, RequestEvent, Tick, GrantValid;
    var CRequest(r, p, epoch, now) := c;
    SameKeeps(trust, w);
    if GuardBreakGlass(w.store, p, r.tenantId, r.restoreEpoch, epoch, now).None? {
      TickThenEventKeeps(trust, w, now, RequestRefused(r, p, UnsupportedAction, now));
      TickThenEventKeeps(trust, w, now, RequestRefused(r, p, ExpiredRequest, now));
      TickThenEventKeeps(trust, w, now, RequestRefused(r, p, DuplicateGrantId, now));
      TickThenEventKeeps(trust, w, now, RequestEvent(r, p, now));
    }
  }

  function WithGrant(s: Store, g: Grant): Store {
    s.(grants := s.grants[g.grantId := g], usedIds := s.usedIds + {g.grantId})
  }

  lemma RequestGranted(trust: Trust, s: Store, r: BreakGlassRequest, p: Principal, epoch: int, now: Instant)
    requires RequestBreakGlass(trust, s, r, p, epoch, now).1.Ok?
    ensures ValidateNow(s, now).None? && epoch == r.restoreEpoch
    ensures
      var appended := AppendEvent(trust, Tick(s, now), RequestEvent(r, p, now));
      appended.Ok? && r.grantId !in appended.value.usedIds && appended.value.tenantId == s.tenantId
      && RequestBreakGlass(trust, s, r, p, epoch, now).0
          == WithGrant(appended.value, NewGrant(appended.value, r, p, now))
  {
  }

  lemma RequestGrantedKeeps(trust: Trust, w: World, c: Command)
    requires Inv(trust, w) && c.CRequest?
    requires RequestBreakGlass(trust, w.store, c.request, c.p, c.epoch, c.now).1.Ok?
    ensures Inv(trust, Step(trust, w, c))
  {
    var CRequest(r, p, epoch, now) := c;
    var s := w.store;
    RequestGranted(trust, s, r, p, epoch, now);
    TickThenEventKeeps(trust, w, now, RequestEvent(r, p, now));
    var u := AppendEvent(trust, Tick(s, now), RequestEvent(r, p, now)).value;
    var g := NewGrant(u, r, p, now);
    AddGrantKeeps(trust, At(w, u), g);
    assert Records(WithGrant(u, g)) == Records(u);
    assert Step(trust, w, c) == World(WithGrant(u, g), At(w, u).ever,
                                      w.trace + [Requested(r.grantId, p.principalId, r.expiresAt, r.restoreEpoch)]);
  }

  lemma RequestKeeps(trust: Trust, w: World, c: Command)
    requires Inv(trust, w) && c.CRequest?
    ensures Inv(trust, Step(trust, w, c))
  {
    if RequestBreakGlass(trust, w.store, c.request, c.p, c.epoch, c.now).1.Ok? {
      RequestGrantedKeeps(trust, w, c);
    } else {
      RequestRefusedKeeps(trust, w, c);
      assert Step(trust, w, c) == At(w, Next(trust, w.store, c));
    }
  }

  lemma MoveRefusedKeeps(trust: Trust, w: World, c: Command)
    requires Inv(trust, w) && c.CMove?
    requires MoveGrant(trust, w.store, c.kind, c.id, c.p, c.now, c.eventId).1.Err?
    ensures StoreKeeps(trust, w, MoveGrant(trust, w.store, c.kind, c.id, c.p, c.now, c.eventId).0)
  {
    var CMove(kind, id, p, now, eventId) := c;
    var s := w.store;
    SameKeeps(trust, w);
    if Guard(s, p, now).None? {
      var (done, refused) := TransitionName(kind);
      TickThenEventKeeps(trust, w, now, Event(eventId, refused, p, id, "break_glass", GrantNotFound, now));
      if id in s.grants {
        var g := s.grants[id];
        var state := EpochExpiry(g.restoreEpoch, g.expiresAt);
        TickThenEventKeeps(trust, w, now, Event(eventId, refused, p, id, g.resourceId, state, now));
        TickThenEventKeeps(trust, w, now, Event(eventId, done, p, id, g.resourceId, state, now));
      }
    }
  }

  lemma MoveGrantedKeeps(trust: Trust, w: World, c: Command)
    requires Inv(trust, w) && c.CMove?
    requires MoveGrant(trust, w.store, c.kind, c.id, c.p, c.now, c.eventId).1.Ok?
    ensures Inv(trust, Step(trust, w, c))
  {
    hide Inv;
    var CMove(kind, id, p, now, eventId) := c;
    var s := w.store;
    var g := s.grants[id];
    var event := Event(eventId, TransitionName(kind).0, p, id, g.resourceId, EpochExpiry(g.restoreEpoch, g.expiresAt),
        now);
    TickThenEventKeeps(trust, w, now, event);
    var u := AppendEvent(trust, Tick(s, now), event).value;
    MoveGrantKeeps(trust, At(w, u), kind, id, p, now);
    var t := u.(grants := u.grants[id := Moved(kind, g, p, now)]);
    assert Next(trust, s, c) == t;
    assert Records(t) == Records(u);
  }

  lemma MoveKeeps(trust: Trust, w: World, c: Command)
    requires Inv(trust, w) && c.CMove?
    ensures Inv(trust, Step(trust, w, c))
  {
    if MoveGrant(trust, w.store, c.kind, c.id, c.p, c.now, c.eventId).1.Ok? {
      MoveGrantedKeeps(trust, w, c);
    } else {
      MoveRefusedKeeps(trust, w, c);
      assert Step(trust, w, c) == At(w, Next(trust, w.store, c));
    }
  }

  lemma UseOpKeeps(trust: Trust, w: World, c: Command)
    requires Inv(trust, w) && c.CUse?
    ensures Inv(trust, Step(trust, w, c))
  {
    hide Inv;
    var CUse(use, p, epoch, now) := c;
    var s := w.store;
    SameKeeps(trust, w);
    if GuardBreakGlass(s, p, use.tenantId, use.restoreEpoch, epoch, now).None? {
      var t := Tick(s, now);
      var allowed := UseAllowed(t, use, p, now);
      var event := Event(use.eventId, if allowed then GrantUsed else GrantUseDenied, p, use.grantId, use.resourceId,
                         EpochState(use.restoreEpoch), now);
      TickThenEventKeeps(trust, w, now, event);
      if UseBreakGlass(trust, s, use, p, epoch, now).1.Ok? {
        var u := AppendEvent(trust, t, event).value;
        UseKeeps(trust, At(w, u), use, p, now);
        assert Step(trust, w, c) == At(w, u).(trace := w.trace + [Used(use.grantId, p.principalId, now,
            use.restoreEpoch)]);
      } else {
        assert Step(trust, w, c) == At(w, Next(trust, s, c));
      }
    } else {
      assert Step(trust, w, c) == w;
    }
  }

  // ----- whole runs -----

  lemma ReadKeeps(trust: Trust, w: World, p: Principal, now: Instant)
    requires Inv(trust, w)
    ensures StoreKeeps(trust, w, Read(w.store, p, now).0)
  {
    SameKeeps(trust, w);
    if Guard(w.store, p, now).None? { TickKeeps(trust, w, now); }
  }

  /** Every operation, refused or not, keeps the invariant. */
  lemma StepKeeps(trust: Trust, w: World, c: Command)
    requires Inv(trust, w)
    ensures Inv(trust, Step(trust, w, c))
  {
    if c.CRequest? {
      RequestKeeps(trust, w, c);
    } else if c.CMove? {
      MoveKeeps(trust, w, c);
    } else if c.CUse? {
      UseOpKeeps(trust, w, c);
    } else {
      assert Step(trust, w, c) == At(w, Next(trust, w.store, c));
      match c
      case CAppendOperational(r, p, now) => AppendOperationalKeeps(trust, w, r, p, now);
      case CAppendAudit(r, p, now) => AppendAuditKeeps(trust, w, r, p, now);
      case CRead(p, now) => ReadKeeps(trust, w, p, now);
      case CReadAudit(id, p, now, eventId) => ReadAuditKeeps(trust, w, id, p, now, eventId);
      case CChangePolicy(change, evidence, p, now) => ChangePolicyKeeps(trust, w, change, evidence, p, now);
      case CPlaceHold(place, p, now) => PlaceHoldKeeps(trust, w, place, p, now);
      case CReleaseHold(id, p, now, eventId, reason) => ReleaseHoldKeeps(trust, w, id, p, now, eventId, reason);
      case CExpire(p, now) => ExpireOpKeeps(trust, w, p, now);
      case CStartRun(id, key, challenge, p, now) => StartRunKeeps(trust, w, id, key, challenge, p, now);
      case CResumeRun(id, p, now) => ResumeRunKeeps(trust, w, id, p, now);
      case CCompleteRun(id, receipts, p, now) => CompleteRunKeeps(trust, w, id, receipts, p, now);
    }
  }

  lemma {:induction false} PlayKeeps(trust: Trust, tenantId: string, policy: Policy, commands: seq<Command>)
    ensures Inv(trust, Play(trust, Empty(tenantId, policy), commands))
  {
    if commands != [] {
      PlayKeeps(trust, tenantId, policy, commands[..|commands| - 1]);
      StepKeeps(trust, Play(trust, Empty(tenantId, policy), commands[..|commands| - 1]), commands[|commands| - 1]);
    }
  }
}
