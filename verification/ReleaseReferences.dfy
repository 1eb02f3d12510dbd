/** The typed evidence a receipt names, and the references made of it (release_contract.py:1536-1554, 2683-2792,
    2891-2936). */
module ReleaseReferences {
  import opened ReleaseModels

  datatype Typed = Typed(sha: Sha, kind: EvidenceKind)

  // ----- the typed evidence of a receipt, in order -----

  function Tagged(shas: seq<Sha>, kind: EvidenceKind): (r: seq<Typed>)
    ensures |r| == |shas| && forall i :: 0 <= i < |shas| ==> r[i] == Typed(shas[i], kind)
  {
    seq(|shas|, i requires 0 <= i < |shas| => Typed(shas[i], kind))
  }

  function Logs(cs: seq<Control>): seq<Sha> { if cs == [] then [] else [cs[0].rawLog] + Logs(cs[1..]) }

  function ControlAttachments(cs: seq<Control>): seq<Sha> {
    if cs == [] then [] else cs[0].attachments + ControlAttachments(cs[1..])
  }

  function Given(sha: Option<Sha>): seq<Sha> { if sha.Some? then [sha.value] else [] }

  function ExternalShas(es: seq<External>): seq<Sha> {
    if es == [] then [] else Given(es[0].sha) + ExternalShas(es[1..])
  }

  function ExternalAttachments(es: seq<External>): seq<Sha> {
    if es == [] then [] else es[0].attachments + ExternalAttachments(es[1..])
  }

  function ReviewShas(rs: seq<Reviewed>): seq<Sha> { if rs == [] then [] else [rs[0].sha] + ReviewShas(rs[1..]) }

  function Captures(rs: seq<Reviewed>): seq<Sha> { if rs == [] then [] else rs[0].captures + Captures(rs[1..]) }

  function Reports(ns: seq<Nfr>): seq<Sha> { if ns == [] then [] else [ns[0].report] + Reports(ns[1..]) }

  function Raws(ns: seq<Nfr>): seq<Sha> { if ns == [] then [] else [ns[0].raw] + Raws(ns[1..]) }

  function TypedEvidence(r: Receipt): seq<Typed> {
    Tagged(Logs(r.controls), ControlLog) + Tagged(ControlAttachments(r.controls), ControlLog)
    + Tagged(ExternalShas(r.externals), ExternalControl) + Tagged(ExternalAttachments(r.externals), ExternalControl)
    + Tagged(ReviewShas(r.reviews), Review) + Tagged(Captures(r.reviews), Capture)
    + Tagged(Reports(r.nfrs), NfrReport) + Tagged(Raws(r.nfrs), NfrRaw)
    + Tagged(Given(r.manualQa), ManualQa) + Tagged(Given(r.cleanup), Cleanup)
  }

  // ----- the declared digests, collected field by field -----

  function Elements<T>(s: seq<T>): set<T> { set x | x in s }

  function ControlDigests(cs: seq<Control>): set<Sha> {
    (set c | c in cs :: c.rawLog) + (set c, a | c in cs && a in c.attachments :: a)
  }

  function ExternalDigests(es: seq<External>): set<Sha> {
    (set e | e in es && e.sha.Some? :: e.sha.value) + (set e, a | e in es && a in e.attachments :: a)
  }

  function ReviewDigests(rs: seq<Reviewed>): set<Sha> {
    (set r | r in rs :: r.sha) + (set r, c | r in rs && c in r.captures :: c)
  }

  function Declared(r: Receipt): set<Sha> {
    ControlDigests(r.controls) + ExternalDigests(r.externals) + ReviewDigests(r.reviews)
    + Elements(Given(r.manualQa)) + Elements(Given(r.cleanup))
    + (set n | n in r.nfrs :: n.report) + (set n | n in r.nfrs :: n.raw)
  }

  function ShasOf(ts: seq<Typed>): set<Sha> { set t | t in ts :: t.sha }

  lemma {:induction false} ControlsHold(cs: seq<Control>, x: Sha)
    ensures x in Logs(cs) <==> exists c :: c in cs && c.rawLog == x
    ensures x in ControlAttachments(cs) <==> exists c :: c in cs && x in c.attachments
  {
    if cs != [] {
      ControlsHold(cs[1..], x);
      assert forall c :: c in cs <==> c == cs[0] || c in cs[1..];
    }
  }

  lemma ControlsCollected(cs: seq<Control>)
    ensures Elements(Logs(cs)) == set c | c in cs :: c.rawLog
    ensures Elements(ControlAttachments(cs)) == set c, a | c in cs && a in c.attachments :: a
  {
    forall x
      ensures x in Logs(cs) <==> exists c :: c in cs && c.rawLog == x
      ensures x in ControlAttachments(cs) <==> exists c :: c in cs && x in c.attachments
    {
      ControlsHold(cs, x);
    }
  }

  lemma {:induction false} ExternalsHold(es: seq<External>, x: Sha)
    ensures x in ExternalShas(es) <==> exists e :: e in es && e.sha == Some(x)
    ensures x in ExternalAttachments(es) <==> exists e :: e in es && x in e.attachments
  {
    if es != [] {
      ExternalsHold(es[1..], x);
      assert forall e :: e in es <==> e == es[0] || e in es[1..];
    }
  }

  lemma ExternalsCollected(es: seq<External>)
    ensures Elements(ExternalShas(es)) == set e | e in es && e.sha.Some? :: e.sha.value
    ensures Elements(ExternalAttachments(es)) == set e, a | e in es && a in e.attachments :: a
  {
    forall x
      ensures x in ExternalShas(es) <==> exists e :: e in es && e.sha == Some(x)
      ensures x in ExternalAttachments(es) <==> exists e :: e in es && x in e.attachments
    {
      ExternalsHold(es, x);
    }
  }

  lemma {:induction false} ReviewsHold(rs: seq<Reviewed>, x: Sha)
    ensures x in ReviewShas(rs) <==> exists r :: r in rs && r.sha == x
    ensures x in Captures(rs) <==> exists r :: r in rs && x in r.captures
  {
    if rs != [] {
      ReviewsHold(rs[1..], x);
      assert forall r :: r in rs <==> r == rs[0] || r in rs[1..];
    }
  }

  lemma ReviewsCollected(rs: seq<Reviewed>)
    ensures Elements(ReviewShas(rs)) == set r | r in rs :: r.sha
    ensures Elements(Captures(rs)) == set r, c | r in rs && c in r.captures :: c
  {
    forall x
      ensures x in ReviewShas(rs) <==> exists r :: r in rs && r.sha == x
      ensures x in Captures(rs) <==> exists r :: r in rs && x in r.captures
    {
      ReviewsHold(rs, x);
    }
  }

  lemma {:induction false} NfrsHold(ns: seq<Nfr>, x: Sha)
    ensures x in Reports(ns) <==> exists n :: n in ns && n.report == x
    ensures x in Raws(ns) <==> exists n :: n in ns && n.raw == x
  {
    if ns != [] {
      NfrsHold(ns[1..], x);
      assert forall n :: n in ns <==> n == ns[0] || n in ns[1..];
    }
  }

  lemma NfrsCollected(ns: seq<Nfr>)
    ensures Elements(Reports(ns)) == set n | n in ns :: n.report
    ensures Elements(Raws(ns)) == set n | n in ns :: n.raw
  {
    forall x
      ensures x in Reports(ns) <==> exists n :: n in ns && n.report == x
      ensures x in Raws(ns) <==> exists n :: n in ns && n.raw == x
    {
      NfrsHold(ns, x);
    }
  }

  lemma TaggedShas(shas: seq<Sha>, kind: EvidenceKind)
    ensures ShasOf(Tagged(shas, kind)) == Elements(shas)
  {
    var ts := Tagged(shas, kind);
    forall s | s in Elements(shas)
      ensures s in ShasOf(ts)
    {
      var i :| 0 <= i < |shas| && shas[i] == s;
      assert ts[i] in ts;
    }
  }

  lemma ShasJoin(a: seq<Typed>, b: seq<Typed>)
    ensures ShasOf(a + b) == ShasOf(a) + ShasOf(b)
  {}

  /** The two ways of collecting a receipt's digests agree. */
  lemma TypedAreDeclared(r: Receipt)
    ensures ShasOf(TypedEvidence(r)) == Declared(r)
  {
    hide Tagged, ShasOf, Elements;
    ControlsCollected(r.controls);
    ExternalsCollected(r.externals);
    ReviewsCollected(r.reviews);
    NfrsCollected(r.nfrs);
    var p := [Tagged(Logs(r.controls), ControlLog), Tagged(ControlAttachments(r.controls), ControlLog),
              Tagged(ExternalShas(r.externals), ExternalControl),
                  Tagged(ExternalAttachments(r.externals), ExternalControl),
              Tagged(ReviewShas(r.reviews), Review), Tagged(Captures(r.reviews), Capture),
              Tagged(Reports(r.nfrs), NfrReport), Tagged(Raws(r.nfrs), NfrRaw),
              Tagged(Given(r.manualQa), ManualQa), Tagged(Given(r.cleanup), Cleanup)];
    TaggedShas(Logs(r.controls), ControlLog);
    TaggedShas(ControlAttachments(r.controls), ControlLog);
    TaggedShas(ExternalShas(r.externals), ExternalControl);
    TaggedShas(ExternalAttachments(r.externals), ExternalControl);
    TaggedShas(ReviewShas(r.reviews), Review);
    TaggedShas(Captures(r.reviews), Capture);
    TaggedShas(Reports(r.nfrs), NfrReport);
    TaggedShas(Raws(r.nfrs), NfrRaw);
    TaggedShas(Given(r.manualQa), ManualQa);
    TaggedShas(Given(r.cleanup), Cleanup);
    ShasJoin(p[0], p[1]);
    ShasJoin(p[0] + p[1], p[2]);
    ShasJoin(p[0] + p[1] + p[2], p[3]);
    ShasJoin(p[0] + p[1] + p[2] + p[3], p[4]);
    ShasJoin(p[0] + p[1] + p[2] + p[3] + p[4], p[5]);
    ShasJoin(p[0] + p[1] + p[2] + p[3] + p[4] + p[5], p[6]);
    ShasJoin(p[0] + p[1] + p[2] + p[3] + p[4] + p[5] + p[6], p[7]);
    ShasJoin(p[0] + p[1] + p[2] + p[3] + p[4] + p[5] + p[6] + p[7], p[8]);
    ShasJoin(p[0] + p[1] + p[2] + p[3] + p[4] + p[5] + p[6] + p[7] + p[8], p[9]);
  }

  // ----- references -----

  /** Where an attachment of this digest is; the last one listed wins. */
  function Manifest(attachments: seq<Attachment>): map<Sha, string> {
    if attachments == [] then map[]
    else
      var last := attachments[|attachments| - 1];
      Manifest(attachments[..|attachments| - 1])[last.sha := last.path]
  }

  predicate DistinctShas(ts: seq<Typed>) { forall i, j :: 0 <= i < j < |ts| ==> ts[i].sha != ts[j].sha }

  function ClaimFor(r: Receipt, t: Typed, path: string, issuer: string, issuedAt: string): Claim {
    Claim(path, t.sha, t.kind, issuer, r.releaseId, r.runId, r.attemptId, r.authority.sourceTree, r.authority.revision,
          r.authority.requirements, r.authority.goals, r.authority.goalsRevision, r.authority.session,
          r.authority.lease, issuedAt)
  }

  function Signed(signer: Signer, c: Claim): Reference { Reference(c, signer.sign(ForReference(signer.ids, c))) }

  /** One signed reference for each typed digest; a digest named twice, one without an attachment, or an empty
      signature refuses. */
  function References(signer: Signer, r: Receipt, issuedAt: string, ts: seq<Typed>): (out: Result<seq<Reference>>)
    ensures out.Ok? ==> |out.value| == |ts|
  {
    if ts == [] then Ok([])
    else
      var front, t := ts[..|ts| - 1], ts[|ts| - 1];
      match References(signer, r, issuedAt, front)
      case Refused => Refused
      case Ok(done) =>
        if t.sha !in Manifest(r.attachments) then Refused
        else
          var ref := Signed(signer, ClaimFor(r, t, Manifest(r.attachments)[t.sha], signer.ids.authority, issuedAt));
          if ref.signature == [] then Refused else Ok(done + [ref])
  }

  function ReferencesFromManifest(rules: Rules, signer: Signer, r: Receipt, issuedAt: string): Result<seq<Reference>> {
    if !rules.instant(issuedAt) || !DistinctShas(TypedEvidence(r)) then Refused
    else References(signer, r, issuedAt, TypedEvidence(r))
  }

  datatype Tuple = Tuple(sha: Sha, kind: EvidenceKind, path: string)

  function ExpectedLogs(cs: seq<Control>): set<Typed> {
    (set c | c in cs :: Typed(c.rawLog, ControlLog))
    + (set c, a | c in cs && a in c.attachments :: Typed(a, ControlLog))
  }

  function ExpectedExternals(es: seq<External>): set<Typed> {
    (set e | e in es && e.sha.Some? :: Typed(e.sha.value, ExternalControl))
    + (set e, a | e in es && a in e.attachments :: Typed(a, ExternalControl))
  }

  function ExpectedReviews(rs: seq<Reviewed>): set<Typed> {
    (set x | x in rs :: Typed(x.sha, Review)) + (set x, c | x in rs && c in x.captures :: Typed(c, Capture))
  }

  function ExpectedNfrs(ns: seq<Nfr>): set<Typed> {
    (set n | n in ns :: Typed(n.report, NfrReport)) + (set n | n in ns :: Typed(n.raw, NfrRaw))
  }

  function ExpectedOne(sha: Option<Sha>, kind: EvidenceKind): set<Typed> {
    if sha.Some? then {Typed(sha.value, kind)} else {}
  }

  /** The evidence as the verifier collects it, field by field. */
  function ExpectedEvidence(r: Receipt): set<Typed> {
    ExpectedLogs(r.controls) + ExpectedExternals(r.externals) + ExpectedReviews(r.reviews) + ExpectedNfrs(r.nfrs)
    + ExpectedOne(r.manualQa, ManualQa) + ExpectedOne(r.cleanup, Cleanup)
  }

  /** The projection the verifier derives from the receipt alone. */
  function ExpectedTuples(r: Receipt): Result<set<Tuple>> {
    var m, ts := Manifest(r.attachments), ExpectedEvidence(r);
    if exists t :: t in ts && t.sha !in m then Refused
    else Ok(set t | t in ts && t.sha in m :: Tuple(t.sha, t.kind, m[t.sha]))
  }

  function TupleOf(ref: Reference): Tuple { Tuple(ref.claim.sha, ref.claim.kind, ref.claim.path) }

  function TuplesOf(refs: seq<Reference>): set<Tuple> { set ref | ref in refs :: TupleOf(ref) }

  function RefShas(refs: seq<Reference>): set<Sha> { set ref | ref in refs :: ref.claim.sha }

  predicate DistinctRefs(refs: seq<Reference>) {
    forall i, j :: 0 <= i < j < |refs| ==> refs[i].claim.sha != refs[j].claim.sha
  }

  predicate DistinctPlaces(refs: seq<Reference>) {
    forall i, j :: 0 <= i < j < |refs| ==>
      refs[i].claim.kind != refs[j].claim.kind || refs[i].claim.path != refs[j].claim.path
  }

  lemma {:induction false} ReferenceAt(signer: Signer, r: Receipt, issuedAt: string, ts: seq<Typed>, i: nat)
    requires References(signer, r, issuedAt, ts).Ok? && i < |ts|
    ensures var refs, m := References(signer, r, issuedAt, ts).value, Manifest(r.attachments);
            && ts[i].sha in m
            && refs[i] == Signed(signer, ClaimFor(r, ts[i], m[ts[i].sha], signer.ids.authority, issuedAt))
            && refs[i].signature != []
  {
    if i < |ts| - 1 {
      ReferenceAt(signer, r, issuedAt, ts[..|ts| - 1], i);
    }
  }

  lemma TaggedIs(shas: seq<Sha>, kind: EvidenceKind, t: Typed)
    ensures t in Tagged(shas, kind) <==> t.kind == kind && t.sha in shas
  {
    var ts := Tagged(shas, kind);
    if t.kind == kind && t.sha in shas {
      var i :| 0 <= i < |shas| && shas[i] == t.sha;
      assert ts[i] == t;
    }
  }

  /** What a digest is listed as, by the field it stands in. */
  predicate Stands(r: Receipt, sha: Sha, kind: EvidenceKind) {
    match kind
    case ControlLog => exists c :: c in r.controls && (c.rawLog == sha || sha in c.attachments)
    case ExternalControl => exists e :: e in r.externals && (e.sha == Some(sha) || sha in e.attachments)
    case Review => exists x :: x in r.reviews && x.sha == sha
    case Capture => exists x :: x in r.reviews && sha in x.captures
    case NfrReport => exists n :: n in r.nfrs && n.report == sha
    case NfrRaw => exists n :: n in r.nfrs && n.raw == sha
    case ManualQa => r.manualQa == Some(sha)
    case Cleanup => r.cleanup == Some(sha)
  }

  /** The finalizer's list and the verifier's set hold the same evidence: each digest under the kind of the very field it
      stands in, and nothing else. */
  lemma EvidenceAgrees(r: Receipt, t: Typed)
    ensures t in TypedEvidence(r) <==> Stands(r, t.sha, t.kind)
    ensures t in ExpectedEvidence(r) <==> Stands(r, t.sha, t.kind)
  {
    ListedStands(r, t);
    ExpectedStands(r, t);
  }

  lemma ExpectedControls(r: Receipt, t: Typed)
    ensures t in ExpectedLogs(r.controls) <==> t.kind == ControlLog && Stands(r, t.sha, t.kind)
    ensures t in ExpectedExternals(r.externals) <==> t.kind == ExternalControl && Stands(r, t.sha, t.kind)
  {}

  lemma ExpectedJudgements(r: Receipt, t: Typed)
    ensures t in ExpectedReviews(r.reviews) <==> (t.kind == Review || t.kind == Capture) && Stands(r, t.sha, t.kind)
    ensures t in ExpectedNfrs(r.nfrs) <==> (t.kind == NfrReport || t.kind == NfrRaw) && Stands(r, t.sha, t.kind)
  {}

  lemma ExpectedStands(r: Receipt, t: Typed)
    ensures t in ExpectedEvidence(r) <==> Stands(r, t.sha, t.kind)
  {
    hide ExpectedLogs, ExpectedExternals, ExpectedReviews, ExpectedNfrs;
    ExpectedControls(r, t);
    ExpectedJudgements(r, t);
  }

  lemma ListedStands(r: Receipt, t: Typed)
    ensures t in TypedEvidence(r) <==> Stands(r, t.sha, t.kind)
  {
    hide Tagged, Logs, ControlAttachments, ExternalShas, ExternalAttachments, ReviewShas, Captures, Reports, Raws;
    ControlsHold(r.controls, t.sha);
    ExternalsHold(r.externals, t.sha);
    ReviewsHold(r.reviews, t.sha);
    NfrsHold(r.nfrs, t.sha);
    TaggedIs(Logs(r.controls), ControlLog, t);
    TaggedIs(ControlAttachments(r.controls), ControlLog, t);
    TaggedIs(ExternalShas(r.externals), ExternalControl, t);
    TaggedIs(ExternalAttachments(r.externals), ExternalControl, t);
    TaggedIs(ReviewShas(r.reviews), Review, t);
    TaggedIs(Captures(r.reviews), Capture, t);
    TaggedIs(Reports(r.nfrs), NfrReport, t);
    TaggedIs(Raws(r.nfrs), NfrRaw, t);
    TaggedIs(Given(r.manualQa), ManualQa, t);
    TaggedIs(Given(r.cleanup), Cleanup, t);
  }

  lemma SameEvidence(r: Receipt)
    ensures forall t :: t in TypedEvidence(r) <==> t in ExpectedEvidence(r)
  {
    hide TypedEvidence, ExpectedEvidence, Stands;
    forall t ensures t in TypedEvidence(r) <==> t in ExpectedEvidence(r) { EvidenceAgrees(r, t); }
  }

  /** The references the finalizer makes are, as tuples, exactly those the verifier expects. */
  lemma ReferencesAreExpected(signer: Signer, r: Receipt, issuedAt: string)
    requires References(signer, r, issuedAt, TypedEvidence(r)).Ok?
    ensures ExpectedTuples(r) == Ok(TuplesOf(References(signer, r, issuedAt, TypedEvidence(r)).value))
  {
    SameEvidence(r);
    hide ExpectedEvidence;
    hide TypedEvidence, Manifest, References;
    var ts, refs, m := TypedEvidence(r), References(signer, r, issuedAt, TypedEvidence(r)).value,
        Manifest(r.attachments);
    forall t | t in ts
      ensures t.sha in m && Tuple(t.sha, t.kind, m[t.sha]) in TuplesOf(refs)
    {
      var i :| 0 <= i < |ts| && ts[i] == t;
      ReferenceAt(signer, r, issuedAt, ts, i);
      assert refs[i] in refs;
    }
    forall ref | ref in refs
      ensures exists t :: t in ts && TupleOf(ref) == Tuple(t.sha, t.kind, m[t.sha])
    {
      var i :| 0 <= i < |refs| && refs[i] == ref;
      ReferenceAt(signer, r, issuedAt, ts, i);
      assert ts[i] in ts;
    }
    assert ExpectedTuples(r).Ok?;
    assert ExpectedTuples(r).value == TuplesOf(refs);
  }

  lemma ReferenceDigests(signer: Signer, r: Receipt, issuedAt: string)
    requires References(signer, r, issuedAt, TypedEvidence(r)).Ok? && DistinctShas(TypedEvidence(r))
    ensures var refs := References(signer, r, issuedAt, TypedEvidence(r)).value;
            && DistinctRefs(refs) && RefShas(refs) == Declared(r) && |refs| == |Declared(r)|
  {
    hide TypedEvidence, Manifest, References, Declared;
    var ts, refs := TypedEvidence(r), References(signer, r, issuedAt, TypedEvidence(r)).value;
    forall i | 0 <= i < |ts|
      ensures refs[i].claim.sha == ts[i].sha
    {
      ReferenceAt(signer, r, issuedAt, ts, i);
    }
    assert RefShas(refs) == ShasOf(ts) by {
      forall t | t in ts ensures t.sha in RefShas(refs) {
        var i :| 0 <= i < |ts| && ts[i] == t;
        assert refs[i] in refs;
      }
      forall ref | ref in refs ensures ref.claim.sha in ShasOf(ts) {
        var i :| 0 <= i < |refs| && refs[i] == ref;
        assert ts[i] in ts;
      }
    }
    TypedAreDeclared(r);
    DistinctCount(refs);
  }

  lemma {:induction false} DistinctCount(refs: seq<Reference>)
    requires DistinctRefs(refs)
    ensures |RefShas(refs)| == |refs|
  {
    if refs != [] {
      var front, last := refs[..|refs| - 1], refs[|refs| - 1];
      DistinctCount(front);
      assert RefShas(refs) == RefShas(front) + {last.claim.sha} by {
        assert refs == front + [last];
      }
      assert last.claim.sha !in RefShas(front);
    }
  }

  predicate DistinctPaths(attachments: seq<Attachment>) {
    forall i, j :: 0 <= i < j < |attachments| ==> attachments[i].path != attachments[j].path
  }

  lemma {:induction false} ManifestFinds(attachments: seq<Attachment>, sha: Sha)
    requires sha in Manifest(attachments)
    ensures Attachment(Manifest(attachments)[sha], sha) in attachments
  {
    var front, last := attachments[..|attachments| - 1], attachments[|attachments| - 1];
    if sha != last.sha {
      ManifestFinds(front, sha);
    }
  }

  /** With one attachment a path, distinct digests are at distinct paths. */
  lemma PlacesDiffer(signer: Signer, r: Receipt, issuedAt: string)
    requires References(signer, r, issuedAt, TypedEvidence(r)).Ok? && DistinctShas(TypedEvidence(r))
    requires DistinctPaths(r.attachments)
    ensures DistinctPlaces(References(signer, r, issuedAt, TypedEvidence(r)).value)
  {
    hide TypedEvidence, Manifest, References;
    var ts, refs, m := TypedEvidence(r), References(signer, r, issuedAt, TypedEvidence(r)).value,
        Manifest(r.attachments);
    forall i, j | 0 <= i < j < |refs|
      ensures refs[i].claim.path != refs[j].claim.path
    {
      ReferenceAt(signer, r, issuedAt, ts, i);
      ReferenceAt(signer, r, issuedAt, ts, j);
      ManifestFinds(r.attachments, ts[i].sha);
      ManifestFinds(r.attachments, ts[j].sha);
    }
  }
}
