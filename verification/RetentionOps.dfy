/** The store operations of retention.py as functions from the store's value to its next value.

    `RetentionStore` below them in RetentionClass.dfy performs the same operations in place and is
    proved equal to these functions; RetentionSafety.dfy proves what they keep. */
module RetentionOps {
  import opened RetentionModels

  datatype Store = Store(
    tenantId: string,
    policy: Policy,
    operational: seq<Record>,
    audits: seq<Record>,
    holds: map<(string, string), LegalHold>,
    holdHistory: map<(string, string), seq<LegalHold>>,
    grants: map<string, Grant>,
    runs: map<string, Run>,
    idempotencyKeys: map<string, string>,
    usedIds: set<string>,
    expiredIds: set<string>,
    reservedIds: set<string>,
    lastNow: Option<Instant>)

  datatype Event = Event(
    eventId: string, kind: EventKind, principal: Principal, subjectId: string, scopeId: string, state: EventState,
    occurredAt: Instant)

  /** Nothing recorded is lost or reordered: every operation but completion only ever appends. */
  predicate OnlyAppends(s: Store, t: Store) {
    t.tenantId == s.tenantId && s.operational <= t.operational && s.audits <= t.audits && s.usedIds <= t.usedIds
  }

  // ----- shared steps -----

  function Authorize(s: Store, p: Principal): Option<Error> {
    if p.tenantId != s.tenantId then Some(WrongTenant)
    else if ComplianceOperator !in p.roles then Some(Unauthorized)
    else None
  }

  function ValidateNow(s: Store, now: Instant): Option<Error> {
    if s.lastNow.Some? && now < s.lastNow.value then Some(ClockNotMonotonic)
    else if now < s.policy.effectiveAt then Some(PolicyNotEffective)
    else None
  }

  function Tick(s: Store, now: Instant): Store { s.(lastNow := Some(now)) }

  function RequireUnused(s: Store, id: string): Option<Error> {
    if id == "" then Some(EmptyIdentifier)
    else if id in s.usedIds then Some(DuplicateId)
    else None
  }

  /** Authorization, then the clock: the guard every operation but three begins with. */
  function Guard(s: Store, p: Principal, now: Instant): Option<Error> {
    var denied := Authorize(s, p);
    if denied.Some? then denied else ValidateNow(s, now)
  }

  function AuditOf(trust: Trust, s: Store, e: Event): AuditRecord {
    var body := AuditBody(Known(e.kind), e.principal.principalId, e.subjectId, Known(e.kind), s.policy.version,
        e.state);
    Audit(e.eventId, s.tenantId, e.scopeId, e.occurredAt, body,
          trust.sha(AuditDocument(e.eventId, s.tenantId, e.scopeId, e.occurredAt, body)))
  }

  function AddAudit(s: Store, r: Record): Store {
    s.(audits := s.audits + [r], usedIds := s.usedIds + {r.recordId})
  }

  function AppendEvent(trust: Trust, s: Store, e: Event): Result<Store> {
    var unusable := RequireUnused(s, e.eventId);
    var r := AuditOf(trust, s, e);
    if unusable.Some? then Err(unusable.value)
    else if !AuditValid(r.recordId, r.tenantId, r.scopeId, r.body) then Err(InvalidValue)
    else Ok(AddAudit(s, r))
  }

  // ----- appending records -----

  function AppendOperational(s: Store, r: OperationalLog, p: Principal, now: Instant): (out: (Store, Result<()>))
    ensures OnlyAppends(s, out.0) && out.0.runs == s.runs
  {
    var denied := Authorize(s, p);
    if denied.Some? then (s, Err(denied.value))
    else if r.tenantId != s.tenantId then (s, Err(WrongTenant))
    else if ValidateNow(s, now).Some? then (s, Err(ValidateNow(s, now).value))
    else
      var t := Tick(s, now);
      if RequireUnused(t, r.recordId).Some? then (t, Err(RequireUnused(t, r.recordId).value))
      else (t.(operational := t.operational + [r], usedIds := t.usedIds + {r.recordId}), Ok(()))
  }

  function AppendAudit(trust: Trust, s: Store, r: AuditRecord, p: Principal, now: Instant): (out: (Store, Result<()>))
    ensures OnlyAppends(s, out.0) && out.0.runs == s.runs
  {
    var denied := Authorize(s, p);
    if denied.Some? then (s, Err(denied.value))
    else if r.tenantId != s.tenantId then (s, Err(WrongTenant))
    else if ValidateNow(s, now).Some? then (s, Err(ValidateNow(s, now).value))
    else
      var t := Tick(s, now);
      if !AuditValid(r.recordId, r.tenantId, r.scopeId, r.body) then (t, Err(InvalidValue))
      else if r.checksum != AuditChecksum(trust, r) then (t, Err(AuditIntegrity))
      else if RequireUnused(t, r.recordId).Some? then (t, Err(RequireUnused(t, r.recordId).value))
      else (AddAudit(t, r), Ok(()))
  }

  /** Every read-only operation consumes the clock and changes nothing else. */
  function Read(s: Store, p: Principal, now: Instant): (out: (Store, Result<()>))
    ensures OnlyAppends(s, out.0) && out.0.runs == s.runs
  {
    var denied := Guard(s, p, now);
    if denied.Some? then (s, Err(denied.value)) else (Tick(s, now), Ok(()))
  }

  function FindRecord(records: seq<Record>, id: string): Option<Record>
    decreases |records|
  {
    if records == [] then None
    else if records[0].recordId == id then Some(records[0])
    else FindRecord(records[1..], id)
  }

  function ReadAudit(trust: Trust, s: Store, id: string, p: Principal, now: Instant, requestId: string)
    : (out: (Store, Result<Record>))
    ensures OnlyAppends(s, out.0) && out.0.runs == s.runs
  {
    var denied := Guard(s, p, now);
    if denied.Some? then (s, Err(denied.value))
    else
      var t := Tick(s, now);
      var found := FindRecord(t.audits, id);
      if found.None? || id in t.expiredIds then (t, Err(NotFound))
      else
        match AppendEvent(trust, t, Event(requestId, AuditAccessed, p, id, found.value.scopeId, ReadState, now))
        case Err(e) => (t, Err(e))
        case Ok(u) => (u, Ok(found.value))
  }

  // ----- policy -----

  predicate PolicyEvidenceMatches(s: Store, change: PolicyChange, evidence: AuditRecord, p: Principal, now: Instant) {
    && change.actorId == p.principalId
    && change.occurredAt == now
    && evidence.tenantId == s.tenantId
    && evidence.body.event == Known(PolicyChanged)
    && evidence.body.actorId == p.principalId
    && evidence.body.subjectId == change.policy.version
    && evidence.body.reason == Text(change.reason)
    && evidence.scopeId == "policy"
    && evidence.occurredAt == change.occurredAt
    && evidence.body.policyVersion == s.policy.version
    && evidence.body.state == PolicyState(s.policy.version, change.policy.version, change.policyDigest, change.reason)
  }

  function ChangePolicy(trust: Trust, s: Store, change: PolicyChange, evidence: Option<AuditRecord>, p: Principal,
                        now: Instant): (out: (Store, Result<()>))
    ensures OnlyAppends(s, out.0) && out.0.runs == s.runs
  {
    var denied := Guard(s, p, now);
    if denied.Some? then (s, Err(denied.value))
    else if evidence.None? || !PolicyEvidenceMatches(s, change, evidence.value, p, now) then
      (s, Err(PolicyAuditRequired))
    else
      var r := evidence.value;
      if !AuditValid(r.recordId, r.tenantId, r.scopeId, r.body) then (s, Err(InvalidValue))
      else if r.checksum != AuditChecksum(trust, r)
          || change.policyDigest != trust.sha(PolicyDocument(change.policy)) then
        (s, Err(PolicyAuditRequired))
      else if RequireUnused(s, r.recordId).Some? then (s, Err(RequireUnused(s, r.recordId).value))
      else (AddAudit(Tick(s, now), r).(policy := change.policy), Ok(()))
  }

  // ----- legal holds -----

  predicate HoldValid(h: LegalHold) {
    && h.holdId != "" && h.tenantId != "" && h.scopeId != "" && h.caseId != "" && h.authority != "" && h.reason != ""
    && h.revision >= 1
    && (h.releasedAt.Some? ==> h.placedAt <= h.releasedAt.value)
  }

  function NewHold(s: Store, c: HoldPlace, now: Instant): LegalHold {
    LegalHold(c.holdId, s.tenantId, c.scopeId, now, None, c.caseId, c.authority, c.reason, 1)
  }

  function Recorded(histories: map<(string, string), seq<LegalHold>>, key: (string, string)): seq<LegalHold> {
    if key in histories then histories[key] else []
  }

  function History(s: Store, key: (string, string)): seq<LegalHold> { Recorded(s.holdHistory, key) }

  /** Store one revision of a hold: the current one, and one more in the append-only history. */
  function PutHold(s: Store, key: (string, string), h: LegalHold): Store {
    s.(holds := s.holds[key := h], holdHistory := s.holdHistory[key := History(s, key) + [h]])
  }

  function PlaceHold(trust: Trust, s: Store, c: HoldPlace, p: Principal, now: Instant)
    : (out: (Store, Result<LegalHold>))
    ensures OnlyAppends(s, out.0) && out.0.runs == s.runs
  {
    var denied := Guard(s, p, now);
    if denied.Some? then (s, Err(denied.value))
    else if c.tenantId != s.tenantId then (s, Err(WrongTenant))
    else
      var key := (s.tenantId, c.scopeId);
      var hold := NewHold(s, c, now);
      if key in s.holds && s.holds[key].releasedAt.None? then (s, Err(ActiveHold))
      else if c.holdId == c.eventId then (s, Err(DuplicateId))
      else if RequireUnused(s, c.holdId).Some? then (s, Err(RequireUnused(s, c.holdId).value))
      else if RequireUnused(s, c.eventId).Some? then (s, Err(RequireUnused(s, c.eventId).value))
      else if !HoldValid(hold) then (s, Err(InvalidValue))
      else
        var event := Event(c.eventId, HoldPlaced, p, c.holdId, c.scopeId, HoldState(c.caseId, c.authority, 1), now);
        match AppendEvent(trust, Tick(s, now), event)
        case Err(e) => (Tick(s, now), Err(e))
        case Ok(t) => (PutHold(t, key, hold).(usedIds := t.usedIds + {c.holdId}), Ok(hold))
  }

  /** The current holds that carry this identifier, as keys. */
  function HoldKeys(s: Store, holdId: string): set<(string, string)> {
    set k | k in s.holds && s.holds[k].holdId == holdId
  }

  function Released(h: LegalHold, reason: string, now: Instant): LegalHold {
    h.(releasedAt := Some(now), reason := reason, revision := h.revision + 1)
  }

  /** `hold` is the current hold found under the identifier, if there is one. */
  function ReleaseHoldFound(trust: Trust, s: Store, hold: Option<LegalHold>, holdId: string, p: Principal, now: Instant,
                            eventId: string, reason: string): (out: (Store, Result<LegalHold>))
    ensures OnlyAppends(s, out.0) && out.0.runs == s.runs
  {
    if hold.None? || hold.value.releasedAt.Some? then (s, Err(NotFound))
    else
      var released := Released(hold.value, reason, now);
      if !HoldValid(released) then (s, Err(InvalidValue))
      else if RequireUnused(s, eventId).Some? then (s, Err(RequireUnused(s, eventId).value))
      else
        var event := Event(eventId, HoldReleased, p, holdId, hold.value.scopeId,
                           HoldState(hold.value.caseId, hold.value.authority, released.revision), now);
        match AppendEvent(trust, Tick(s, now), event)
        case Err(e) => (Tick(s, now), Err(e))
        case Ok(t) => (PutHold(t, (s.tenantId, hold.value.scopeId), released), Ok(released))
  }

  /** The hold the identifier names: unique in every reachable store (see RetentionSafety.Holds). */
  ghost function FindHold(s: Store, holdId: string): Option<LegalHold> {
    if HoldKeys(s, holdId) == {} then None
    else var k :| k in HoldKeys(s, holdId); Some(s.holds[k])
  }

  ghost function ReleaseHold(trust: Trust, s: Store, holdId: string, p: Principal, now: Instant, eventId: string,
                             reason: string): (out: (Store, Result<LegalHold>))
    ensures OnlyAppends(s, out.0) && out.0.runs == s.runs
  {
    var denied := Guard(s, p, now);
    if denied.Some? then (s, Err(denied.value))
    else ReleaseHoldFound(trust, s, FindHold(s, holdId), holdId, p, now, eventId, reason)
  }

  predicate HoldActiveAt(s: Store, h: LegalHold, now: Instant) {
    h.placedAt <= now && (h.releasedAt.None? || h.releasedAt.value > now)
  }

  function HeldScopes(s: Store, now: Instant): set<string> {
    set k | k in s.holds && k.0 == s.tenantId && HoldActiveAt(s, s.holds[k], now) :: k.1
  }

  /** The entry at `i` is the last revision recorded for its hold. */
  predicate Latest(history: seq<LegalHold>, i: int) {
    0 <= i < |history| && forall j :: i < j < |history| ==> history[j].holdId != history[i].holdId
  }

  predicate WithinHold(h: LegalHold, at: Instant) {
    h.placedAt <= at && (h.releasedAt.None? || at <= h.releasedAt.value)
  }

  predicate DeletionIntersectsHold(s: Store, scopeId: string, receipts: seq<Attestation>) {
    var history := History(s, (s.tenantId, scopeId));
    exists i :: 0 <= i < |history| && Latest(history, i)
      && exists a :: a in receipts && WithinHold(history[i], a.deletedAt)
  }

  // ----- expiry and retention runs -----

  /** The identifiers of the records a predicate selects, in list order. */
  function Select(records: seq<Record>, wanted: Record -> bool): seq<string> {
    if records == [] then []
    else (if wanted(records[0]) then [records[0].recordId] else []) + Select(records[1..], wanted)
  }

  function Without(records: seq<Record>, ids: set<string>): seq<Record> {
    if records == [] then []
    else (if records[0].recordId in ids then [] else [records[0]]) + Without(records[1..], ids)
  }

  function Expiring(s: Store, records: seq<Record>, now: Instant, days: int): seq<string> {
    var held := HeldScopes(s, now);
    Select(records, (r: Record) =>
      r.recordId !in s.expiredIds && r.scopeId !in held && r.occurredAt <= now - days * DAY)
  }

  function Expire(trust: Trust, s: Store, p: Principal, now: Instant): (out: (Store, Result<ExpiryReceipt>))
    ensures OnlyAppends(s, out.0) && out.0.runs == s.runs && out.0.holdHistory == s.holdHistory
  {
    var denied := Guard(s, p, now);
    if denied.Some? then (s, Err(denied.value))
    else
      var t := Tick(s, now);
      var operationalIds := Expiring(t, t.operational, now, t.policy.operationalDays);
      var auditIds := Expiring(t, t.audits, now, t.policy.auditDays);
      (t.(expiredIds := t.expiredIds + Elements(operationalIds) + Elements(auditIds)),
       Ok(ExpiryReceipt(t.tenantId, t.policy.version, now, operationalIds, auditIds,
          trust.sha(ExpiryDocument(t.tenantId, t.policy.version, now, operationalIds, auditIds)))))
  }

  function Eligible(s: Store, records: seq<Record>, now: Instant, days: int): seq<string> {
    var held := HeldScopes(s, now);
    Select(records, (r: Record) =>
      r.recordId in s.expiredIds && r.recordId !in s.reservedIds && r.scopeId !in held
      && r.occurredAt <= now - days * DAY)
  }

  function NewRun(trust: Trust, s: Store, runId: string, key: string, challenge: string, now: Instant): Run {
    var operationalIds := Eligible(s, s.operational, now, s.policy.operationalDays);
    var auditIds := Eligible(s, s.audits, now, s.policy.auditDays);
    var run := Run(runId, s.tenantId, key, now, s.policy.version, 1, operationalIds, auditIds, challenge, "", [],
                   None, "", "");
    run.(manifestDigest := ManifestDigest(trust, run))
  }

  /** The checks a run and its candidate manifest make on construction. */
  predicate RunConstructible(run: Run) {
    && run.runId != "" && run.tenantId != "" && run.idempotencyKey != "" && run.policyVersion != ""
    && run.challenge != "" && run.manifestDigest != ""
    && run.attempts >= 1
    && Distinct(run.Candidates()) && run.Candidates() != []
  }

  function AddRun(s: Store, run: Run): Store {
    s.(runs := s.runs[run.runId := run],
       idempotencyKeys := s.idempotencyKeys[run.idempotencyKey := run.runId],
       usedIds := s.usedIds + {run.runId},
       reservedIds := s.reservedIds + Elements(run.operationalIds) + Elements(run.auditIds))
  }

  /** `challenge` is the random token drawn for the run. */
  function StartRun(trust: Trust, s: Store, runId: string, key: string, challenge: string, p: Principal, now: Instant)
    : (out: (Store, Result<Run>))
    ensures OnlyAppends(s, out.0) && out.0.holdHistory == s.holdHistory
    ensures s.runs.Keys <= s.usedIds ==> forall k :: k in s.runs ==> k in out.0.runs && out.0.runs[k] == s.runs[k]
  {
    var denied := Guard(s, p, now);
    if denied.Some? then (s, Err(denied.value))
    else
      var t := Tick(s, now);
      if key in t.idempotencyKeys then
        if t.idempotencyKeys[key] != runId then (t, Err(DuplicateId))
        else if runId !in t.runs then (t, Err(NotFound))
        else (t, Ok(t.runs[runId]))
      else if RequireUnused(t, runId).Some? then (t, Err(RequireUnused(t, runId).value))
      else
        var run := NewRun(trust, t, runId, key, challenge, now);
        if run.Candidates() == [] then (t, Err(NoCandidates))
        else if !RunConstructible(run) then (t, Err(InvalidValue))
        else (AddRun(t, run), Ok(run))
  }

  function PutRun(s: Store, run: Run): Store { s.(runs := s.runs[run.runId := run]) }

  function Retried(run: Run): Run { run.(attempts := run.attempts + 1) }

  function ResumeRun(s: Store, runId: string, p: Principal, now: Instant): (out: (Store, Result<Run>))
    ensures OnlyAppends(s, out.0) && out.0.holdHistory == s.holdHistory
  {
    var denied := Guard(s, p, now);
    if denied.Some? then (s, Err(denied.value))
    else
      var t := Tick(s, now);
      if runId !in t.runs then (t, Err(NotFound))
      else if t.runs[runId].completedAt.Some? then (t, Ok(t.runs[runId]))
      else
        var run := Retried(t.runs[runId]);
        (PutRun(t, run), Ok(run))
  }

  function RecordScope(s: Store, id: string): Option<string> {
    var inOperational := FindRecord(s.operational, id);
    var inAudits := FindRecord(s.audits, id);
    if inOperational.Some? then Some(inOperational.value.scopeId)
    else if inAudits.Some? then Some(inAudits.value.scopeId)
    else None
  }

  /** This candidate may not be deleted on this evidence. */
  predicate Blocked(s: Store, id: string, receipts: seq<Attestation>, now: Instant) {
    var scope := RecordScope(s, id);
    scope.None? || scope.value in HeldScopes(s, now) || DeletionIntersectsHold(s, scope.value, receipts)
  }

  function Completed(trust: Trust, run: Run, receipts: seq<Attestation>, now: Instant): Run {
    var done := run.(attempts := run.attempts + 1, receipts := receipts, completedAt := Some(now),
                     completionDigest := CompletionDigest(trust, receipts));
    done.(checksum := RunChecksum(trust, done))
  }

  /** Commit a completed run: its candidates leave the records, the expired and the reserved ids. */
  function Commit(s: Store, run: Run): Store {
    var gone := Elements(run.Candidates());
    s.(operational := Without(s.operational, gone),
       audits := Without(s.audits, gone),
       expiredIds := s.expiredIds - gone,
       reservedIds := s.reservedIds - gone,
       runs := s.runs[run.runId := run])
  }

  function CompleteIncomplete(trust: Trust, s: Store, run: Run, receipts: seq<Attestation>, now: Instant)
    : (out: (Store, Result<Run>))
    ensures out.0.tenantId == s.tenantId && out.0.holdHistory == s.holdHistory
  {
    if exists id :: id in run.Candidates() && Blocked(s, id, receipts, now) then
      (PutRun(s, Retried(run)), Ok(Retried(run)))
    else if !ExactlyCovers(receipts, run.Candidates()) then (s, Err(CompletionRejected))
    else if exists a :: a in receipts && !(a.tenantId == s.tenantId && ReceiptBound(trust, run, now, a)) then
      (s, Err(CompletionRejected))
    else
      var done := Completed(trust, run, receipts, now);
      (Commit(s, done), Ok(done))
  }

  function CompleteRun(trust: Trust, s: Store, runId: string, receipts: seq<Attestation>, p: Principal, now: Instant)
    : (out: (Store, Result<Run>))
    ensures out.0.tenantId == s.tenantId && out.0.holdHistory == s.holdHistory
  {
    var denied := Authorize(s, p);
    if denied.Some? then (s, Err(denied.value))
    else if exists a :: a in receipts && a.tenantId != s.tenantId then (s, Err(CompletionRejected))
    else if ValidateNow(s, now).Some? then (s, Err(ValidateNow(s, now).value))
    else
      var t := Tick(s, now);
      if runId !in t.runs then (t, Err(NotFound))
      else
        var run := t.runs[runId];
        if run.completedAt.Some? then
          if run.completionDigest != CompletionDigest(trust, receipts) then (t, Err(CompletionRejected))
          else (t, Ok(run))
        else CompleteIncomplete(trust, t, run, receipts, now)
  }

  // ----- break-glass -----

  /** `currentEpoch` is what the restore-epoch authority answers at this call. */
  function GuardBreakGlass(s: Store, p: Principal, tenantId: string, epoch: int, currentEpoch: int, now: Instant)
    : Option<Error>
  {
    var denied := Authorize(s, p);
    if denied.Some? then denied
    else if tenantId != s.tenantId then Some(WrongTenant)
    else if currentEpoch < 1 || epoch != currentEpoch then Some(BreakGlassDenied)
    else ValidateNow(s, now)
  }

  /** Record a refused transition; the refusal is raised whatever the append does. */
  function Deny<T>(trust: Trust, s: Store, e: Event, refusal: Error): (out: (Store, Result<T>))
    ensures OnlyAppends(s, out.0) && out.0.runs == s.runs && out.0.holdHistory == s.holdHistory
  {
    match AppendEvent(trust, s, e)
    case Err(error) => (s, Err(error))
    case Ok(t) => (t, Err(refusal))
  }

  function NewGrant(s: Store, r: BreakGlassRequest, p: Principal, now: Instant): Grant {
    Grant(r.grantId, s.tenantId, r.resourceId, r.action, r.restoreEpoch, p.principalId, now, r.expiresAt,
          None, None, None)
  }

  predicate GrantValid(g: Grant) {
    g.grantId != "" && g.tenantId != "" && g.resourceId != "" && g.action != OtherAction("") && g.requesterId != ""
    && g.expiresAt > g.issuedAt
  }

  function RequestEvent(r: BreakGlassRequest, p: Principal, now: Instant): Event {
    Event(r.eventId, GrantRequested, p, r.grantId, r.resourceId, EpochExpiry(r.restoreEpoch, r.expiresAt), now)
  }

  function RequestRefused(r: BreakGlassRequest, p: Principal, why: RefusalReason, now: Instant): Event {
    Event(r.eventId, GrantRequestDenied, p, r.grantId, r.resourceId, RefusedState(why, r.restoreEpoch, r.expiresAt),
        now)
  }

  function RequestBreakGlass(trust: Trust, s: Store, r: BreakGlassRequest, p: Principal, currentEpoch: int,
                             now: Instant)
    : (out: (Store, Result<Grant>))
    ensures OnlyAppends(s, out.0) && out.0.runs == s.runs && out.0.holdHistory == s.holdHistory
  {
    var denied := GuardBreakGlass(s, p, r.tenantId, r.restoreEpoch, currentEpoch, now);
    if denied.Some? then (s, Err(denied.value))
    else
      var t := Tick(s, now);
      if r.action != ReadMetadata then Deny(trust, t, RequestRefused(r, p, UnsupportedAction, now), BreakGlassDenied)
      else if r.expiresAt <= now then Deny(trust, t, RequestRefused(r, p, ExpiredRequest, now), BreakGlassDenied)
      else if r.grantId == r.eventId || r.grantId in t.usedIds then
        Deny(trust, t, RequestRefused(r, p, DuplicateGrantId, now), DuplicateId)
      else
        match AppendEvent(trust, t, RequestEvent(r, p, now))
        case Err(e) => (t, Err(e))
        case Ok(u) =>
          var grant := NewGrant(u, r, p, now);
          if !GrantValid(grant) then (u, Err(InvalidValue))
          else (u.(grants := u.grants[r.grantId := grant], usedIds := u.usedIds + {r.grantId}), Ok(grant))
  }

  datatype Transition = Approve | Revoke | Lapse

  /** The event a transition records when it succeeds, and when it is refused. */
  function TransitionName(t: Transition): (EventKind, EventKind) {
    match t
    case Approve => (GrantApproved, GrantApprovalDenied)
    case Revoke => (GrantRevoked, GrantRevocationDenied)
    case Lapse => (GrantExpired, GrantExpiryDenied)
  }

  /** Whether this principal may move this grant now. */
  predicate TransitionAllowed(t: Transition, g: Grant, p: Principal, now: Instant) {
    && g.revokedAt.None?
    && g.expiredAt.None?
    && match t
       case Approve => g.requesterId != p.principalId && g.approverId.None? && now < g.expiresAt
       case Revoke => now < g.expiresAt
       case Lapse => now >= g.expiresAt
  }

  function Moved(t: Transition, g: Grant, p: Principal, now: Instant): Grant {
    match t
    case Approve => g.(approverId := Some(p.principalId))
    case Revoke => g.(revokedAt := Some(now))
    case Lapse => g.(expiredAt := Some(now))
  }

  /** approve_break_glass, revoke_break_glass and expire_break_glass differ only as `kind` says. */
  function MoveGrant(trust: Trust, s: Store, kind: Transition, grantId: string, p: Principal, now: Instant,
                     eventId: string): (out: (Store, Result<Grant>))
    ensures OnlyAppends(s, out.0) && out.0.runs == s.runs && out.0.holdHistory == s.holdHistory
  {
    var denied := Guard(s, p, now);
    if denied.Some? then (s, Err(denied.value))
    else
      var t := Tick(s, now);
      var (done, refused) := TransitionName(kind);
      if grantId !in t.grants then
        Deny(trust, t, Event(eventId, refused, p, grantId, "break_glass", GrantNotFound, now), NotFound)
      else
        var g := t.grants[grantId];
        var state := EpochExpiry(g.restoreEpoch, g.expiresAt);
        if !TransitionAllowed(kind, g, p, now) then
          Deny(trust, t, Event(eventId, refused, p, grantId, g.resourceId, state, now), BreakGlassDenied)
        else
          match AppendEvent(trust, t, Event(eventId, done, p, grantId, g.resourceId, state, now))
          case Err(e) => (t, Err(e))
          case Ok(u) =>
            var moved := Moved(kind, g, p, now);
            (u.(grants := u.grants[grantId := moved]), Ok(moved))
  }

  predicate UseAllowed(s: Store, use: BreakGlassUse, p: Principal, now: Instant) {
    use.grantId in s.grants &&
    var g := s.grants[use.grantId];
    && g.approverId.Some?
    && g.requesterId == p.principalId
    && g.tenantId == use.tenantId
    && g.resourceId == use.resourceId
    && g.action == use.action
    && g.restoreEpoch == use.restoreEpoch
    && g.revokedAt.None?
    && g.expiredAt.None?
    && now < g.expiresAt
  }

  function UseBreakGlass(trust: Trust, s: Store, use: BreakGlassUse, p: Principal, currentEpoch: int, now: Instant)
    : (out: (Store, Result<()>))
    ensures OnlyAppends(s, out.0) && out.0.runs == s.runs && out.0.holdHistory == s.holdHistory
  {
    var denied := GuardBreakGlass(s, p, use.tenantId, use.restoreEpoch, currentEpoch, now);
    if denied.Some? then (s, Err(denied.value))
    else
      var t := Tick(s, now);
      var allowed := UseAllowed(t, use, p, now);
      var event := Event(use.eventId, if allowed then GrantUsed else GrantUseDenied, p, use.grantId, use.resourceId,
                         EpochState(use.restoreEpoch), now);
      match AppendEvent(trust, t, event)
      case Err(e) => (t, Err(e))
      case Ok(u) => (u, if allowed then Ok(()) else Err(BreakGlassDenied))
  }
}
