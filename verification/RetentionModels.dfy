/** Immutable tenant-bound records for retention governance (models.py).

    Instants are integers (microseconds); SHA-256 over canonical JSON is an arbitrary function from
    the abstract document, so nothing below depends on how it is computed. */
module RetentionModels {

  datatype Option<+T> = None | Some(value: T)

  datatype Error =
    | Unauthorized
    | WrongTenant
    | ClockNotMonotonic
    | PolicyNotEffective
    | EmptyIdentifier
    | InvalidValue
    | DuplicateId
    | NotFound
    | AuditIntegrity
    | PolicyAuditRequired
    | ActiveHold
    | BreakGlassDenied
    | CompletionRejected
    | NoCandidates

  datatype Result<+T> = Ok(value: T) | Err(error: Error)

  type Instant = int

  const DAY: int := 86_400_000_000
  const OPERATIONAL_DAYS: int := 90
  const AUDIT_DAYS: int := 365

  /** Every policy that exists has exactly the fixed periods: the constructor refuses any other. */
  datatype PolicyFields = PolicyFields(version: string, effectiveAt: Instant, operationalDays: int, auditDays: int) {
    predicate Exact() {
      version != "" && operationalDays == OPERATIONAL_DAYS && auditDays == AUDIT_DAYS
    }
  }
  type Policy = p: PolicyFields | p.Exact() witness PolicyFields("retention-v1", 0, 90, 365)

  datatype Role = ComplianceOperator | OtherRole(name: string)

  datatype Principal = Principal(principalId: string, tenantId: string, roles: set<Role>)

  datatype System = Archive | Primary

  datatype Attestation = Attestation(
    issuerId: string, keyId: string, tenantId: string, runId: string, recordId: string, system: System,
    deletedAt: Instant, evidenceDigest: string, challenge: string, manifestDigest: string, signature: string)

  datatype EventKind =
    | AuditAccessed | PolicyChanged | HoldPlaced | HoldReleased
    | GrantRequested | GrantRequestDenied | GrantApproved | GrantApprovalDenied | GrantRevoked | GrantRevocationDenied
    | GrantExpired | GrantExpiryDenied | GrantUsed | GrantUseDenied

  /** An event name or a reason: one of the store's own names, or any other text. */
  datatype Label = Known(kind: EventKind) | Text(text: string)

  datatype RefusalReason = UnsupportedAction | ExpiredRequest | DuplicateGrantId

  /** The state text of an audit record, as the values it is rendered from. */
  datatype EventState =
    | StateText(text: string)
    | ReadState
    | PolicyState(from: string, to: string, policyDigest: string, reason: string)
    | HoldState(caseId: string, authority: string, revision: int)
    | EpochState(epoch: int)
    | EpochExpiry(epoch: int, expiresAt: Instant)
    | RefusedState(why: RefusalReason, epoch: int, expiresAt: Instant)
    | GrantNotFound

  /** The fields an audit record has beyond those it shares with an operational log. */
  datatype AuditBody = AuditBody(
    event: Label, actorId: string, subjectId: string, reason: Label, policyVersion: string, state: EventState)

  datatype Record =
    | Operational(recordId: string, tenantId: string, scopeId: string, occurredAt: Instant)
    | Audit(recordId: string, tenantId: string, scopeId: string, occurredAt: Instant, body: AuditBody, checksum: string)

  type OperationalLog = r: Record | r.Operational? witness Operational("r", "t", "s", 0)
  type AuditRecord = r: Record | r.Audit?
    witness Audit("r", "t", "s", 0, AuditBody(Text("e"), "a", "s", Text("r"), "v", ReadState), "c")

  datatype LegalHold = LegalHold(
    holdId: string, tenantId: string, scopeId: string, placedAt: Instant, releasedAt: Option<Instant>,
    caseId: string, authority: string, reason: string, revision: int)

  datatype HoldPlace = HoldPlace(
    holdId: string, tenantId: string, scopeId: string, caseId: string, authority: string, reason: string,
    eventId: string)

  datatype Action = ReadMetadata | OtherAction(name: string)

  datatype BreakGlassRequest = BreakGlassRequest(
    grantId: string, tenantId: string, resourceId: string, action: Action, restoreEpoch: int,
    expiresAt: Instant, eventId: string)

  datatype BreakGlassUse = BreakGlassUse(
    grantId: string, tenantId: string, resourceId: string, action: Action, restoreEpoch: int, eventId: string)

  datatype Grant = Grant(
    grantId: string, tenantId: string, resourceId: string, action: Action, restoreEpoch: int,
    requesterId: string, issuedAt: Instant, expiresAt: Instant,
    approverId: Option<string>, revokedAt: Option<Instant>, expiredAt: Option<Instant>)

  datatype Run = Run(
    runId: string, tenantId: string, idempotencyKey: string, cutoffAt: Instant, policyVersion: string,
    attempts: int, operationalIds: seq<string>, auditIds: seq<string>, challenge: string,
    manifestDigest: string, receipts: seq<Attestation>, completedAt: Option<Instant>,
    checksum: string, completionDigest: string)
  {
    function Candidates(): seq<string> { operationalIds + auditIds }
  }

  datatype PolicyChangeFields = PolicyChangeFields(
    actorId: string, reason: string, occurredAt: Instant, policy: Policy, policyDigest: string)
  type PolicyChange = c: PolicyChangeFields | c.policy.effectiveAt == c.occurredAt
    witness PolicyChangeFields("a", "r", 0, PolicyFields("retention-v1", 0, 90, 365), "d")

  datatype ExpiryReceipt = ExpiryReceipt(
    tenantId: string, policyVersion: string, occurredAt: Instant, operationalIds: seq<string>,
    auditIds: seq<string>, checksum: string)

  /** The documents that are hashed, one constructor per payload shape. */
  datatype Document =
    | PolicyDocument(policy: PolicyFields)
    | AuditDocument(recordId: string, tenantId: string, scopeId: string, occurredAt: Instant, body: AuditBody)
    | ManifestDocument(tenantId: string, runId: string, policyVersion: string, cutoffAt: Instant,
                       operationalIds: seq<string>, auditIds: seq<string>, systems: set<System>, challenge: string)
    | CompletionDocument(receipts: seq<Attestation>)
    | RunDocument(run: Run)
    | ExpiryDocument(tenantId: string, policyVersion: string, occurredAt: Instant, operationalIds: seq<string>,
                     auditIds: seq<string>)

  /** The trust roots a store is built with: the digest and the deletion-evidence verifier set. */
  datatype Trust = Trust(sha: Document -> string, verify: Attestation -> bool)

  const REQUIRED_SYSTEMS: set<System> := {Archive, Primary}

  predicate Distinct<T(==)>(s: seq<T>) {
    forall i, j :: 0 <= i < j < |s| ==> s[i] != s[j]
  }

  function Elements<T>(s: seq<T>): set<T> { set x | x in s }

  function AuditValid(recordId: string, tenantId: string, scopeId: string, body: AuditBody): bool {
    recordId != "" && tenantId != "" && body.event != Text("") && body.actorId != "" && body.subjectId != ""
    && scopeId != "" && body.reason != Text("") && body.policyVersion != "" && body.state != StateText("")
  }

  function AuditChecksum(trust: Trust, r: AuditRecord): string {
    trust.sha(AuditDocument(r.recordId, r.tenantId, r.scopeId, r.occurredAt, r.body))
  }

  function ManifestDigest(trust: Trust, run: Run): string {
    trust.sha(ManifestDocument(run.tenantId, run.runId, run.policyVersion, run.cutoffAt,
                               run.operationalIds, run.auditIds, REQUIRED_SYSTEMS, run.challenge))
  }

  function CompletionDigest(trust: Trust, receipts: seq<Attestation>): string {
    trust.sha(CompletionDocument(receipts))
  }

  /** run_payload covers every field but the checksum itself. */
  function RunChecksum(trust: Trust, run: Run): string {
    trust.sha(RunDocument(run.(checksum := "")))
  }

  function Coordinates(ids: seq<string>): set<(string, System)> {
    set id, system | id in ids && system in REQUIRED_SYSTEMS :: (id, system)
  }

  function ReceiptCoordinates(receipts: seq<Attestation>): seq<(string, System)> {
    seq(|receipts|, i requires 0 <= i < |receipts| => (receipts[i].recordId, receipts[i].system))
  }

  predicate ExactlyCovers(receipts: seq<Attestation>, ids: seq<string>) {
    Distinct(ReceiptCoordinates(receipts)) && Elements(ReceiptCoordinates(receipts)) == Coordinates(ids)
  }

  predicate ReceiptBound(trust: Trust, run: Run, latest: Instant, a: Attestation) {
    && a.tenantId == run.tenantId
    && a.runId == run.runId
    && a.challenge == run.challenge
    && a.manifestDigest == run.manifestDigest
    && run.cutoffAt < a.deletedAt <= latest
    && trust.verify(a)
  }

  /** verify_retention_run. */
  predicate VerifyRun(trust: Trust, run: Run) {
    && run.Candidates() != []
    && run.completedAt.Some?
    && run.completedAt.value >= run.cutoffAt
    && run.manifestDigest == ManifestDigest(trust, run)
    && ExactlyCovers(run.receipts, run.Candidates())
    && run.completionDigest == CompletionDigest(trust, run.receipts)
    && run.checksum == RunChecksum(trust, run)
    && forall a :: a in run.receipts ==> ReceiptBound(trust, run, run.completedAt.value, a)
  }
}
