/** A five-command run in which a hold is placed at the very instant of an earlier deletion: the hold
    claim with a closed interval is false of the store, the one with an open placement is not. */
module RetentionTie {
  import opened RetentionModels
  import opened RetentionOps
  import opened RetentionSafety
  import opened RetentionClosed
  import opened RetentionTheorems

  const TRUST: Trust := Trust(_ => "d", _ => true)
  const POLICY: Policy := PolicyFields("v", 0, 90, 365)
  const OPERATOR: Principal := Principal("p", "t", {ComplianceOperator})
  const OLD: OperationalLog := Operational("r", "t", "s", 0)
  const START: Instant := 90 * DAY
  const TIE: Instant := START + 1
  const HOLD: HoldPlace := HoldPlace("h", "t", "s", "c", "a", "w", "e")

  function Receipt(system: System): Attestation {
    Attestation("i", "k", "t", "n", "r", system, TIE, "e", "c", "d", "g")
  }

  const RECEIPTS: seq<Attestation> := [Receipt(Archive), Receipt(Primary)]

  const S1: Store := Empty("t", POLICY).(operational := [OLD], usedIds := {"r"}, lastNow := Some(START))
  const S2: Store := S1.(expiredIds := {"r"})
  const PENDING: Run := Run("n", "t", "k", START, "v", 1, ["r"], [], "c", "d", [], None, "", "")
  const S3: Store := S2.(runs := map["n" := PENDING], idempotencyKeys := map["k" := "n"], usedIds := {"r", "n"},
                        reservedIds := {"r"})
  const DONE: Run := Run("n", "t", "k", START, "v", 2, ["r"], [], "c", "d", RECEIPTS, Some(TIE), "d", "d")
  const S4: Store := S3.(operational := [], runs := map["n" := DONE], expiredIds := {}, reservedIds := {},
                        lastNow := Some(TIE))

  lemma Appended()
    ensures Next(TRUST, Empty("t", POLICY), CAppendOperational(OLD, OPERATOR, START)) == S1
  {
  }

  lemma SelectOne(r: Record, wanted: Record -> bool)
    ensures Select([r], wanted) == if wanted(r) then [r.recordId] else []
  {
    assert Select([r][1..], wanted) == [];
  }

  lemma Expired()
    ensures Next(TRUST, S1, CExpire(OPERATOR, START)) == S2
  {
    var t := Tick(S1, START);
    var held := HeldScopes(t, START);
    assert held == {};
    SelectOne(OLD, (r: Record) =>
      r.recordId !in t.expiredIds && r.scopeId !in held && r.occurredAt <= START - 90 * DAY);
    assert Expiring(t, t.operational, START, 90) == ["r"];
    assert Expiring(t, t.audits, START, 365) == [];
  }

  lemma Started()
    ensures Next(TRUST, S2, CStartRun("n", "k", "c", OPERATOR, START)) == S3
  {
    var t := Tick(S2, START);
    var held := HeldScopes(t, START);
    assert held == {};
    SelectOne(OLD, (r: Record) =>
      r.recordId in t.expiredIds && r.recordId !in t.reservedIds && r.scopeId !in held
      && r.occurredAt <= START - 90 * DAY);
    assert Eligible(t, t.operational, START, 90) == ["r"];
    assert Eligible(t, t.audits, START, 365) == [];
    assert NewRun(TRUST, t, "n", "k", "c", START) == PENDING;
  }

  lemma Covered()
    ensures ExactlyCovers(RECEIPTS, ["r"])
  {
    assert ReceiptCoordinates(RECEIPTS) == [("r", Archive), ("r", Primary)];
    assert Elements(ReceiptCoordinates(RECEIPTS)) == Coordinates(["r"]);
  }

  lemma Finished()
    ensures Next(TRUST, S3, CCompleteRun("n", RECEIPTS, OPERATOR, TIE)) == S4
  {
    var t := Tick(S3, TIE);
    Covered();
    assert PENDING.Candidates() == ["r"];
    assert HeldScopes(t, TIE) == {};
    assert RecordScope(t, "r") == Some("s");
    assert !Blocked(t, "r", RECEIPTS, TIE);
    assert forall a :: a in RECEIPTS ==> ReceiptBound(TRUST, PENDING, TIE, a);
    assert Completed(TRUST, PENDING, RECEIPTS, TIE) == DONE;
    assert Without([OLD][1..], {"r"}) == [];
    assert Elements(["r"]) == {"r"};
  }

  const RUN: seq<Command> := [
    CAppendOperational(OLD, OPERATOR, START),
    CExpire(OPERATOR, START),
    CStartRun("n", "k", "c", OPERATOR, START),
    CCompleteRun("n", RECEIPTS, OPERATOR, TIE)]

  lemma RunReaches()
    ensures Play(TRUST, Empty("t", POLICY), RUN).store == S4
    ensures OLD in Play(TRUST, Empty("t", POLICY), RUN).ever
  {
    var start := Empty("t", POLICY);
    Appended();
    Expired();
    Started();
    Finished();
    assert RUN[..1] == [RUN[0]] && RUN[..2] == RUN[..1] + [RUN[1]] && RUN[..3] == RUN[..2] + [RUN[2]];
    assert RUN == RUN[..3] + [RUN[3]];
    assert [] + [RUN[0]] == RUN[..1];
    PlayLast(TRUST, start, [], RUN[0]);
    PlayLast(TRUST, start, RUN[..1], RUN[1]);
    PlayLast(TRUST, start, RUN[..2], RUN[2]);
    PlayLast(TRUST, start, RUN[..3], RUN[3]);
  }

  lemma Tied(w: World)
    requires w.store == S4 && OLD in w.ever
    ensures DeletedAtThisInstant(w, "s", TIE)
  {
    assert RECEIPTS[0] in RECEIPTS;
    assert ReceiptAt(w.store.runs["n"].receipts, TIE);
    assert OLD.recordId in DONE.Candidates();
  }

  lemma MayStillPlace()
    ensures PlaceHold(TRUST, S4, HOLD, OPERATOR, TIE).1.Ok?
  {
  }

  /** The closed claim fails in a reachable store, although completion itself checked it. */
  lemma ClosedClaimIsFalse()
    ensures !ClosedSafe(Play(TRUST, Empty("t", POLICY), RUN + [CPlaceHold(HOLD, OPERATOR, TIE)]))
  {
    var start := Empty("t", POLICY);
    var w := Play(TRUST, start, RUN);
    RunReaches();
    PlayKeeps(TRUST, "t", POLICY, RUN);
    MayStillPlace();
    Tied(w);
    PlacementStep(TRUST, w, CPlaceHold(HOLD, OPERATOR, TIE));
    PlayLast(TRUST, start, RUN, CPlaceHold(HOLD, OPERATOR, TIE));
  }
}
