/** Binding payloads, consuming nonces, and the finalizer that drives both (release_contract.py:2062-2102, 2157-2317,
    3013-3048). */
module ReleaseAuthorization {
  import opened ReleaseModels
  import opened ReleaseReferences
  import opened ReleaseFinalization

  // ----- the external authority -----

  datatype Grant = Grant(session: string, lease: string, payloadSha: Sha)

  /** The payloads authorized so far, and the nonces already consumed. */
  datatype Ledger = Ledger(bound: set<Grant>, used: set<string>)

  function Bind(l: Ledger, g: Grant): Ledger { l.(bound := l.bound + {g}) }

  predicate MayConsume(l: Ledger, g: Grant, nonce: string) { g in l.bound && nonce !in l.used }

  function GrantOf(e: Envelope): Grant { Grant(e.payload.session, e.payload.lease, e.payloadSha) }

  /** Verification asks to consume only once everything else holds. */
  predicate Accepts(rules: Rules, trust: Trust, l: Ledger, e: Envelope) {
    Verified(rules, trust, e) && MayConsume(l, GrantOf(e), e.payload.nonce)
  }

  datatype Event = Bound(grant: Grant) | Presented(trust: Trust, envelope: Envelope)

  /** The ledger and the envelopes accepted so far. */
  datatype History = History(ledger: Ledger, accepted: seq<Envelope>)

  function Happen(rules: Rules, h: History, e: Event): History {
    match e
    case Bound(g) => h.(ledger := Bind(h.ledger, g))
    case Presented(trust, env) =>
      if Accepts(rules, trust, h.ledger, env)
      then History(h.ledger.(used := h.ledger.used + {env.payload.nonce}), h.accepted + [env])
      else h
  }

  function Unfold(rules: Rules, h: History, events: seq<Event>): History
    decreases |events|
  {
    if events == [] then h else Unfold(rules, Happen(rules, h, events[0]), events[1..])
  }

  predicate OncePerNonce(h: History) {
    && (forall i, j :: 0 <= i < j < |h.accepted| ==> h.accepted[i].payload.nonce != h.accepted[j].payload.nonce)
    && (forall i :: 0 <= i < |h.accepted| ==> h.accepted[i].payload.nonce in h.ledger.used)
  }

  /** However often envelopes are bound and presented, under whatever trust, no nonce is ever accepted twice. */
  lemma {:induction false} AcceptedAtMostOnce(rules: Rules, h: History, events: seq<Event>)
    requires OncePerNonce(h)
    ensures OncePerNonce(Unfold(rules, h, events))
    decreases |events|
  {
    hide Verified;
    if events != [] {
      AcceptedAtMostOnce(rules, Happen(rules, h, events[0]), events[1..]);
    }
  }

  predicate NonceFree(e: Event, nonce: string) { e.Presented? ==> e.envelope.payload.nonce != nonce }

  lemma {:induction false} GrantsLast(rules: Rules, h: History, events: seq<Event>, g: Grant, nonce: string)
    requires g in h.ledger.bound && nonce !in h.ledger.used
    requires forall i :: 0 <= i < |events| ==> NonceFree(events[i], nonce)
    ensures MayConsume(Unfold(rules, h, events).ledger, g, nonce)
    decreases |events|
  {
    hide Accepts;
    if events != [] {
      GrantsLast(rules, Happen(rules, h, events[0]), events[1..], g, nonce);
    }
  }

  /** What was finalized, and bound, is accepted whenever it is first presented, however much later and whatever else
      happened, as long as the signer never issued its nonce to another. */
  lemma FinalizedIsAccepted(rules: Rules, trust: Trust, signer: Signer, writer: Capability, r: Receipt, read: Reading,
                            h: History, events: seq<Event>)
    requires Finalize(rules, trust, signer, writer, r, read).Ok? && Pair(signer, trust.verifier)
    requires trust.verifier.ids == trust.ids && trust.consumer == trust.authorization
    requires GrantOf(Finalize(rules, trust, signer, writer, r, read).value) in h.ledger.bound
    requires read.nonce !in h.ledger.used && forall i :: 0 <= i < |events| ==> NonceFree(events[i], read.nonce)
    ensures Accepts(rules, trust, Unfold(rules, h, events).ledger,
        Finalize(rules, trust, signer, writer, r, read).value)
  {
    hide Prepared, Verified;
    FinalizedVerifiesIff(rules, trust, signer, writer, r, read);
    var e := Finalize(rules, trust, signer, writer, r, read).value;
    NonceKept(rules, trust, signer, writer, r, read);
    GrantsLast(rules, h, events, GrantOf(e), read.nonce);
  }

  lemma NonceKept(rules: Rules, trust: Trust, signer: Signer, writer: Capability, r: Receipt, read: Reading)
    requires Finalize(rules, trust, signer, writer, r, read).Ok?
    ensures Finalize(rules, trust, signer, writer, r, read).value.payload.nonce == read.nonce
  {
    hide Candidate, ReferencesFromManifest;
  }

  // ----- the objects -----

  /** The external authority: its writing half is held by the finalizer, its consuming half by verifiers. */
  class AuthorizationAuthority {
    var bound: set<Grant>
    var used: set<string>

    function Contents(): Ledger
      reads this
    {
      Ledger(bound, used)
    }

    method BindPayload(g: Grant)
      modifies this
      ensures Contents() == Bind(old(Contents()), g)
    {
      bound := bound + {g};
    }

    method Consume(g: Grant, nonce: string) returns (ok: bool)
      modifies this
      ensures ok == MayConsume(old(Contents()), g, nonce)
      ensures Contents() == if ok then old(Contents()).(used := old(used) + {nonce}) else old(Contents())
    {
      ok := g in bound && nonce !in used;
      if ok {
        used := used + {nonce};
      }
    }
  }

  /** The supervisor's leases; finalization must give back every one it takes. */
  class SnapshotAuthority {
    var held: nat

    method Acquire()
      modifies this
      ensures held == old(held) + 1
    {
      held := held + 1;
    }

    method Release()
      requires held > 0
      modifies this
      ensures held == old(held) - 1
    {
      held := held - 1;
    }
  }

  /** The references, signed one after another. */
  method MakeReferences(rules: Rules, signer: Signer, r: Receipt,
                        issuedAt: string) returns (out: Result<seq<Reference>>)
    ensures out == ReferencesFromManifest(rules, signer, r, issuedAt)
  {
    var hashes, manifest := TypedEvidence(r), Manifest(r.attachments);
    if !rules.instant(issuedAt) || !DistinctShas(hashes) {
      return Refused;
    }
    hide TypedEvidence, Manifest;
    var references: seq<Reference> := [];
    var i := 0;
    while i < |hashes|
      invariant 0 <= i <= |hashes|
      invariant References(signer, r, issuedAt, hashes[..i]) == Ok(references)
    {
      assert hashes[..i + 1][..i] == hashes[..i];
      var t := hashes[i];
      if t.sha !in manifest {
        RefusedStays(signer, r, issuedAt, hashes, i + 1);
        return Refused;
      }
      var reference := Signed(signer, ClaimFor(r, t, manifest[t.sha], signer.ids.authority, issuedAt));
      if reference.signature == [] {
        RefusedStays(signer, r, issuedAt, hashes, i + 1);
        return Refused;
      }
      references := references + [reference];
      i := i + 1;
    }
    assert hashes[..i] == hashes;
    return Ok(references);
  }

  lemma {:induction false} RefusedStays(signer: Signer, r: Receipt, issuedAt: string, ts: seq<Typed>, n: nat)
    requires n <= |ts| && References(signer, r, issuedAt, ts[..n]).Refused?
    ensures References(signer, r, issuedAt, ts).Refused?
    decreases |ts|
  {
    if n == |ts| {
      assert ts[..n] == ts;
    } else {
      assert ts[..|ts| - 1][..n] == ts[..n];
      RefusedStays(signer, r, issuedAt, ts[..|ts| - 1], n);
    }
  }

  class ReleaseFinalizer {
    const rules: Rules
    const trust: Trust
    const signer: Signer
    const writer: Capability
    const snapshots: SnapshotAuthority
    const authorization: AuthorizationAuthority

    constructor (rules: Rules, trust: Trust, signer: Signer, writer: Capability, snapshots: SnapshotAuthority,
                 authorization: AuthorizationAuthority)
      ensures this.rules == rules && this.trust == trust && this.signer == signer && this.writer == writer
      ensures this.snapshots == snapshots && this.authorization == authorization
    {
      this.rules, this.trust, this.signer, this.writer := rules, trust, signer, writer;
      this.snapshots, this.authorization := snapshots, authorization;
    }

    /** Every way out gives the lease back; a payload is bound only once everything about it was checked. */
    method FinalizeRelease(r: Receipt, read: Reading) returns (out: Result<Envelope>)
      modifies snapshots, authorization
      ensures out == Finalize(rules, trust, signer, writer, r, read)
      ensures snapshots.held == old(snapshots.held)
      ensures authorization.Contents() ==
              match Prepared(rules, trust, signer, writer, r, read)
              case Refused => old(authorization.Contents())
              case Ok(p) => Bind(old(authorization.Contents()), Grant(p.session, p.lease, rules.payloadSha(p)))
    {
      if !ValidReceipt(r) {
        return Refused;
      }
      snapshots.Acquire();
      out := FinalizeLeased(r, read);
      snapshots.Release();
    }

    method FinalizeLeased(r: Receipt, read: Reading) returns (out: Result<Envelope>)
      requires ValidReceipt(r)
      modifies authorization
      ensures out == Finalize(rules, trust, signer, writer, r, read)
      ensures authorization.Contents() ==
              match Prepared(rules, trust, signer, writer, r, read)
              case Refused => old(authorization.Contents())
              case Ok(p) => Bind(old(authorization.Contents()), Grant(p.session, p.lease, rules.payloadSha(p)))
    {
      hide Candidate, ReferencesFromManifest, ValidReceipt;
      if !ReceiptLeased(trust, read.lease, r) || !IssuancePinned(trust, signer, writer) {
        return Refused;
      }
      if !rules.instant(read.issuedAt) || |read.nonce| < MIN_NONCE_LENGTH || !Candidate(rules, r, read) {
        return Refused;
      }
      var references := MakeReferences(rules, signer, r, read.issuedAt);
      if references.Refused? {
        return Refused;
      }
      var payload := PayloadOf(r, read, references.value);
      if read.before != read.after || !ValidPayload(payload) {
        return Refused;
      }
      var payloadSha := rules.payloadSha(payload);
      authorization.BindPayload(Grant(payload.session, payload.lease, payloadSha));
      var signature := signer.sign(ForEnvelope(payloadSha, signer.ids));
      if signature == [] {
        return Refused;
      }
      return Ok(Envelope(payload, payloadSha, signer.ids, signature));
    }
  }

  /** Verifying an envelope: accepted exactly when it verifies and its nonce is still there to consume. */
  method VerifyEnvelope(rules: Rules, trust: Trust, authorization: AuthorizationAuthority, e: Envelope)
    returns (out: Result<Payload>)
    modifies authorization
    ensures out == if Accepts(rules, trust, old(authorization.Contents()), e) then Ok(e.payload) else Refused
    ensures authorization.Contents() ==
            if out.Ok? then old(authorization.Contents()).(used := old(authorization.used) + {e.payload.nonce})
            else old(authorization.Contents())
  {
    hide Verified;
    if !Verified(rules, trust, e) {
      return Refused;
    }
    var ok := authorization.Consume(GrantOf(e), e.payload.nonce);
    out := if ok then Ok(e.payload) else Refused;
  }
}
