/** A publish call that nothing interferes with returns, whatever was published before (ci_runner.py:952-1040, 1183-1215,
    1378-1400). */
module CiLiveness {
  import opened CiPublication
  import opened CiSafety
  import opened CiTheorems

  /** From the lock to the switch of the pointer. */
  function PlaceSteps(pid: nat): seq<Action> {
    [TakeLock(pid), Verify(pid), Place(pid), Reverify(pid), Point(pid), Switch(pid)]
  }

  /** The closing look at the authority and at its anchor. */
  function Look(pid: nat): seq<Action> { [SeeCurrent(pid), SeeAnchor(pid)] }

  /** A publish call from its lock to its return; one whose reply was lost looks twice. */
  function PublishSteps(pid: nat, reply: Reply): seq<Action> {
    PlaceSteps(pid) + [Finalize(pid, reply)] + (if reply.Lost? then Look(pid) else []) + Look(pid)
  }

  lemma FollowStep(rules: Rules, w: World, step: Action, rest: seq<Action>)
    ensures !Enabled(rules, w, step) ==> Follow(rules, w, [step] + rest) == None
    ensures Enabled(rules, w, step) ==>
              Follow(rules, w, [step] + rest) == Follow(rules, Apply(rules, w, step), rest)
  {
    assert ([step] + rest)[1..] == rest;
  }

  lemma {:induction false} FollowJoin(rules: Rules, w: World, first: seq<Action>, rest: seq<Action>)
    ensures Follow(rules, w, first + rest) ==
            match Follow(rules, w, first) case None => None case Some(v) => Follow(rules, v, rest)
    decreases |first|
  {
    hide Enabled, Apply;
    if first == [] {
      assert first + rest == rest;
    } else {
      assert first + rest == [first[0]] + (first[1..] + rest) && first == [first[0]] + first[1..];
      FollowStep(rules, w, first[0], first[1..] + rest);
      FollowStep(rules, w, first[0], first[1..]);
      if Enabled(rules, w, first[0]) {
        FollowJoin(rules, Apply(rules, w, first[0]), first[1..], rest);
      }
    }
  }

  lemma TwoSteps(rules: Rules, w: World, a: Action, b: Action)
    ensures Follow(rules, w, [a, b]) ==
            if Enabled(rules, w, a) && Enabled(rules, Apply(rules, w, a), b)
            then Some(Apply(rules, Apply(rules, w, a), b)) else None
  {
    hide Enabled, Apply;
    assert [a, b] == [a] + [b] && [b] == [b] + [];
    FollowStep(rules, w, a, [b]);
    if Enabled(rules, w, a) {
      FollowStep(rules, Apply(rules, w, a), b, []);
    }
  }

  /** The world when this publish call has checked what it publishes, has renamed it into place, has switched to it. */
  function VerifiedWorld(w: World, pid: nat): World
    requires pid in w.publishers
  {
    w.(lock := Some(pid), publishers := w.publishers[pid := w.publishers[pid].(pc := Inside(Verified))])
  }

  function ReverifiedWorld(w: World, pid: nat): World
    requires pid in w.publishers
  {
    var p := w.publishers[pid];
    w.(lock := Some(pid), generations := w.generations[p.name := p.content],
       publishers := w.publishers[pid := p.(pc := Inside(Reverified), placed := true)])
  }

  function SwitchedWorld(w: World, pid: nat): World
    requires pid in w.publishers
  {
    var p := w.publishers[pid];
    w.(lock := Some(pid), latest := Some(p.name), generations := w.generations[p.name := p.content],
       publishers := w.publishers[pid := p.(pc := Inside(Switched), placed := true, switched := true)])
  }

  lemma LockAndVerify(rules: Rules, w: World, pid: nat)
    requires pid in w.publishers && w.publishers[pid].pc == Entered && w.lock.None?
    ensures Follow(rules, w, [TakeLock(pid), Verify(pid)]) ==
            if StillActive(w, pid) && Authentic(rules, w.publishers[pid].content)
            then Some(VerifiedWorld(w, pid)) else None
  {
    hide Authentic, Follow;
    TwoSteps(rules, w, TakeLock(pid), Verify(pid));
    var v := Apply(rules, w, TakeLock(pid));
    if StillActive(w, pid) && Authentic(rules, w.publishers[pid].content) {
      assert Apply(rules, v, Verify(pid)) == VerifiedWorld(w, pid);
    }
  }

  lemma PlaceAndReverify(rules: Rules, w: World, pid: nat)
    requires pid in w.publishers && StillActive(w, pid)
    ensures Follow(rules, VerifiedWorld(w, pid), [Place(pid), Reverify(pid)]) ==
            if w.publishers[pid].name !in w.generations then Some(ReverifiedWorld(w, pid)) else None
  {
    hide Authentic, Follow;
    var u := VerifiedWorld(w, pid);
    TwoSteps(rules, u, Place(pid), Reverify(pid));
    if w.publishers[pid].name !in w.generations {
      assert Apply(rules, Apply(rules, u, Place(pid)), Reverify(pid)) == ReverifiedWorld(w, pid);
    }
  }

  lemma PointAndSwitch(rules: Rules, w: World, pid: nat)
    requires pid in w.publishers
    ensures Follow(rules, ReverifiedWorld(w, pid), [Point(pid), Switch(pid)]) == Some(SwitchedWorld(w, pid))
  {
    hide Authentic, Follow;
    var u := ReverifiedWorld(w, pid);
    TwoSteps(rules, u, Point(pid), Switch(pid));
    assert Apply(rules, Apply(rules, u, Point(pid)), Switch(pid)) == SwitchedWorld(w, pid);
  }

  /** Up to the switch nothing but the publisher's own checks can stop it, whatever `latest` names. */
  lemma SwitchIsReached(rules: Rules, w: World, pid: nat)
    requires pid in w.publishers && w.publishers[pid].pc == Entered && w.lock.None?
    ensures Follow(rules, w, PlaceSteps(pid)) ==
            if StillActive(w, pid) && Authentic(rules, w.publishers[pid].content)
               && w.publishers[pid].name !in w.generations
            then Some(SwitchedWorld(w, pid)) else None
  {
    hide Authentic, Follow;
    var rest := [Place(pid), Reverify(pid)] + [Point(pid), Switch(pid)];
    assert PlaceSteps(pid) == [TakeLock(pid), Verify(pid)] + rest;
    FollowJoin(rules, w, [TakeLock(pid), Verify(pid)], rest);
    LockAndVerify(rules, w, pid);
    if StillActive(w, pid) {
      FollowJoin(rules, VerifiedWorld(w, pid), [Place(pid), Reverify(pid)], [Point(pid), Switch(pid)]);
      PlaceAndReverify(rules, w, pid);
      PointAndSwitch(rules, w, pid);
    }
  }

  // ----- from the switch to the return -----

  /** The world when the authority has committed this publish call and the call knows it. */
  function CommittedWorld(rules: Rules, w: World, pid: nat): World
    requires pid in w.publishers
  {
    Confirm(Commit(rules, SwitchedWorld(w, pid), pid), pid)
  }

  lemma CommittedIs(rules: Rules, w: World, pid: nat)
    requires pid in w.publishers && w.publishers[pid].published.context == w.publishers[pid].run.context
    ensures
      var v, p := CommittedWorld(rules, w, pid), w.publishers[pid];
      && pid in v.publishers && v.publishers[pid].pc == Inside(Confirmed) && v.publishers[pid].finalized
      && v.publishers[pid].published == p.published && v.publishers[pid].run == p.run
      && v.publishers[pid].name == p.name && v.publishers[pid].content == p.content
      && Current(v.authority, p.run.context) == Some(p.published)
      && Anchors(rules, v.authority, p.run.context, p.name, p.content.manifest) && v.latest == Some(p.name)
  {
    hide Digest;
  }

  lemma AcceptedCommits(rules: Rules, w: World, pid: nat)
    requires pid in w.publishers && StillActive(w, pid)
    ensures Follow(rules, SwitchedWorld(w, pid), [Finalize(pid, Accepted)]) == Some(CommittedWorld(rules, w, pid))
  {
    hide Authentic, Follow, Commit;
    var u := SwitchedWorld(w, pid);
    assert [Finalize(pid, Accepted)] == [Finalize(pid, Accepted)] + [];
    FollowStep(rules, u, Finalize(pid, Accepted), []);
    FollowNone(rules, CommittedWorld(rules, w, pid));
  }

  /** Where a publish call is whose request was committed but whose reply was lost. */
  function DoubtfulWorld(rules: Rules, w: World, pid: nat): World
    requires pid in w.publishers
  {
    var u := SwitchedWorld(w, pid);
    CommitContent(rules, u, pid);
    CiPublication.Next(Commit(rules, u, pid), pid, Doubtful)
  }

  lemma LostLeavesDoubt(rules: Rules, w: World, pid: nat)
    requires pid in w.publishers && StillActive(w, pid)
    ensures Follow(rules, SwitchedWorld(w, pid), [Finalize(pid, Lost)]) == Some(DoubtfulWorld(rules, w, pid))
  {
    hide Authentic, Follow, Commit;
    var u := SwitchedWorld(w, pid);
    assert [Finalize(pid, Lost)] == [Finalize(pid, Lost)] + [];
    FollowStep(rules, u, Finalize(pid, Lost), []);
    FollowNone(rules, DoubtfulWorld(rules, w, pid));
  }

  lemma DoubtIs(rules: Rules, w: World, pid: nat)
    requires pid in w.publishers && w.publishers[pid].published.context == w.publishers[pid].run.context
    ensures
      var v, p := DoubtfulWorld(rules, w, pid), w.publishers[pid];
      && pid in v.publishers && v.publishers[pid].pc == Inside(Doubtful)
      && v.publishers[pid].published == p.published && v.publishers[pid].run == p.run
      && v.publishers[pid].name == p.name && v.publishers[pid].content == p.content
      && Current(v.authority, p.run.context) == Some(p.published)
      && Anchors(rules, v.authority, p.run.context, p.name, p.content.manifest) && v.latest == Some(p.name)
  {
    hide Digest;
  }

  /** Two looks settle the doubt: the call learns that it was committed. */
  lemma LookSettles(rules: Rules, w: World, pid: nat)
    requires pid in w.publishers && w.publishers[pid].published.context == w.publishers[pid].run.context
    ensures Follow(rules, DoubtfulWorld(rules, w, pid), Look(pid)) == Some(CommittedWorld(rules, w, pid))
  {
    hide Authentic, Follow, Commit, Anchors, Current;
    var u := DoubtfulWorld(rules, w, pid);
    DoubtIs(rules, w, pid);
    TwoSteps(rules, u, SeeCurrent(pid), SeeAnchor(pid));
    assert Enabled(rules, u, SeeCurrent(pid));
    var v := Apply(rules, u, SeeCurrent(pid));
    assert Enabled(rules, v, SeeAnchor(pid));
    assert Apply(rules, v, SeeAnchor(pid)) == CommittedWorld(rules, w, pid);
  }

  lemma LookReturns(rules: Rules, w: World, pid: nat)
    requires pid in w.publishers && w.publishers[pid].published.context == w.publishers[pid].run.context
    ensures Follow(rules, CommittedWorld(rules, w, pid), Look(pid))
            == Some(Out(CommittedWorld(rules, w, pid), pid, Returned))
  {
    hide Authentic, Follow, Commit, Anchors, Current;
    var u := CommittedWorld(rules, w, pid);
    CommittedIs(rules, w, pid);
    TwoSteps(rules, u, SeeCurrent(pid), SeeAnchor(pid));
    assert Enabled(rules, u, SeeCurrent(pid));
    var v := Apply(rules, u, SeeCurrent(pid));
    assert Enabled(rules, v, SeeAnchor(pid));
    assert Apply(rules, v, SeeAnchor(pid)) == Out(u, pid, Returned);
  }

  /** A refused request leaves the run current, so the look for the published one fails. */
  lemma RefusedFindsNothing(rules: Rules, w: World, pid: nat)
    requires pid in w.publishers && StillActive(w, pid)
    requires w.publishers[pid].published.phase == Success
    ensures Follow(rules, SwitchedWorld(w, pid), [Finalize(pid, Refused)] + Look(pid)).None?
  {
    hide Authentic, Follow, Commit;
    var u := SwitchedWorld(w, pid);
    FollowStep(rules, u, Finalize(pid, Refused), Look(pid));
    var v := Apply(rules, u, Finalize(pid, Refused));
    assert v == CiPublication.Next(u, pid, Doubtful);
    assert Look(pid) == [SeeCurrent(pid)] + [SeeAnchor(pid)];
    FollowStep(rules, v, SeeCurrent(pid), [SeeAnchor(pid)]);
  }

  /** What follows the switch, under each reply. */
  lemma FinishFromSwitch(rules: Rules, w: World, pid: nat, reply: Reply)
    requires pid in w.publishers && StillActive(w, pid) && w.publishers[pid].published.phase == Success
    requires w.publishers[pid].published.context == w.publishers[pid].run.context
    ensures
      Follow(rules, SwitchedWorld(w, pid), [Finalize(pid, reply)] + ((if reply.Lost? then Look(pid) else []) + Look(pid)))
      == if reply.Refused? then None else Some(Out(CommittedWorld(rules, w, pid), pid, Returned))
  {
    hide Follow, SwitchedWorld, CommittedWorld, DoubtfulWorld, StillActive, Look;
    var u := SwitchedWorld(w, pid);
    CommittedIs(rules, w, pid);
    LookReturns(rules, w, pid);
    match reply
    case Accepted =>
      assert [] + Look(pid) == Look(pid);
      AcceptedCommits(rules, w, pid);
      FollowJoin(rules, u, [Finalize(pid, reply)], Look(pid));
    case Lost =>
      LostLeavesDoubt(rules, w, pid);
      LookSettles(rules, w, pid);
      FollowJoin(rules, u, [Finalize(pid, reply)], Look(pid) + Look(pid));
      FollowJoin(rules, DoubtfulWorld(rules, w, pid), Look(pid), Look(pid));
    case Refused =>
      assert [] + Look(pid) == Look(pid);
      RefusedFindsNothing(rules, w, pid);
  }

  // ----- the theorems -----

  /** When a publish call that has the directory to itself will succeed. */
  predicate MayPublish(rules: Rules, w: World, pid: nat)
    requires pid in w.publishers
  {
    && Current(w.authority, w.publishers[pid].run.context) == Some(w.publishers[pid].run)
    && w.publishers[pid].run.phase == Active
    && Authentic(rules, w.publishers[pid].content) && w.publishers[pid].name !in w.generations
  }

  /** From every reachable world, whatever `latest` names, a publish call that waits for a free lock and meets no
      interference runs to its return if and only if its run is current and active, its content passes the readers' own
      checks, its name is new, and the authority does not refuse it. A lost reply does not stop it. It leaves the
      pointer on its own generation and its published run current. */
  lemma PublishReturnsIff(rules: Rules, actions: seq<Action>, w: World, pid: nat, reply: Reply)
    requires Possible(rules, actions) && w == After(rules, actions)
    requires pid in w.publishers && w.publishers[pid].pc == Entered && w.lock.None?
    ensures
      var done := Follow(rules, w, PublishSteps(pid, reply));
      && (done.Some? <==> MayPublish(rules, w, pid) && !reply.Refused?)
      && (done.Some? ==>
            && JustReturned(done.value, pid) && done.value.lock.None? && done.value.readers == w.readers
            && done.value.publishers[pid].content == w.publishers[pid].content
            && done.value.publishers[pid].run == w.publishers[pid].run
            && done.value.generations == w.generations[w.publishers[pid].name := w.publishers[pid].content])
  {
    hide Follow, Authentic, Inv;
    RunKeeps(rules, actions);
    EnteredIs(rules, w, pid);
    var rest := [Finalize(pid, reply)] + ((if reply.Lost? then Look(pid) else []) + Look(pid));
    assert PublishSteps(pid, reply) == PlaceSteps(pid) + rest;
    FollowJoin(rules, w, PlaceSteps(pid), rest);
    SwitchIsReached(rules, w, pid);
    if MayPublish(rules, w, pid) {
      FinishFromSwitch(rules, w, pid, reply);
      CommittedIs(rules, w, pid);
    }
  }

  lemma EnteredIs(rules: Rules, w: World, pid: nat)
    requires Inv(rules, w) && pid in w.publishers
    ensures w.publishers[pid].published == Published(w.publishers[pid].run, w.publishers[pid].name,
                                                     w.publishers[pid].finishedAt)
  {
    assert PublisherSound(rules, w, pid);
  }

  lemma OneMore(rules: Rules, actions: seq<Action>, a: Action)
    requires Possible(rules, actions) && Enabled(rules, After(rules, actions), a)
    ensures Possible(rules, actions + [a])
    ensures After(rules, actions + [a]) == Apply(rules, After(rules, actions), a)
  {
    assert (actions + [a])[..|actions + [a]| - 1] == actions;
  }

  lemma {:induction false} FollowIsPossible(rules: Rules, actions: seq<Action>, steps: seq<Action>)
    requires Possible(rules, actions) && Follow(rules, After(rules, actions), steps).Some?
    ensures Possible(rules, actions + steps)
    ensures Follow(rules, After(rules, actions), steps) == Some(After(rules, actions + steps))
    decreases |steps|
  {
    hide Enabled, Apply;
    if steps == [] {
      assert actions + steps == actions;
    } else {
      OneMore(rules, actions, steps[0]);
      FollowIsPossible(rules, actions + [steps[0]], steps[1..]);
      assert actions + steps == actions + [steps[0]] + steps[1..];
    }
  }

  /** A new run, and a publish call for it. */
  function Opening(pid: nat, run: CiRun, name: string, finishedAt: string, records: seq<Record>,
                   outputs: map<string, Bytes>): seq<Action> {
    [Begin(run), Enter(pid, run, name, finishedAt, records, outputs)]
  }

  function Produced(run: CiRun, name: string, finishedAt: string, records: seq<Record>, outputs: map<string, Bytes>)
    : Generation
  {
    Generation(ManifestOf(Published(run, name, finishedAt), records), outputs)
  }

  lemma OpeningEnters(rules: Rules, w: World, pid: nat, run: CiRun, name: string, finishedAt: string,
                      records: seq<Record>, outputs: map<string, Bytes>)
    requires pid !in w.publishers && FreshRun(w.authority, run)
    requires run.phase == Active && run.finishedAt.None? && run.generation.None?
    ensures
      var done := Follow(rules, w, Opening(pid, run, name, finishedAt, records, outputs));
      && done.Some? && pid in done.value.publishers && done.value.publishers[pid].pc == Entered
      && done.value.publishers[pid].run == run && done.value.publishers[pid].name == name
      && done.value.publishers[pid].content == Produced(run, name, finishedAt, records, outputs)
      && done.value.lock == w.lock && done.value.generations == w.generations && done.value.readers == w.readers
      && Current(done.value.authority, run.context) == Some(run)
  {
    hide Follow;
    TwoSteps(rules, w, Begin(run), Enter(pid, run, name, finishedAt, records, outputs));
  }

  /** From every reachable world with a free lock, a run that begins afresh and publishes authentic content under a new
      name, with nothing in between, gets it published, and a load right after it returns exactly that content if and
      only if its manifest is within the read limit, however many generations came before and whatever `latest` named. */
  lemma PublishedIsLoaded(rules: Rules, actions: seq<Action>, w: World, pid: nat, rid: nat, run: CiRun, name: string,
                          finishedAt: string, records: seq<Record>, outputs: map<string, Bytes>, reply: Reply)
    requires Possible(rules, actions) && w == After(rules, actions) && w.lock.None?
    requires pid !in w.publishers && rid !in w.readers && name !in w.generations && FreshRun(w.authority, run)
    requires run.phase == Active && run.finishedAt.None? && run.generation.None? && !reply.Refused?
    requires Authentic(rules, Produced(run, name, finishedAt, records, outputs))
    ensures
      var g := Produced(run, name, finishedAt, records, outputs);
      var steps := Opening(pid, run, name, finishedAt, records, outputs) + PublishSteps(pid, reply);
      var published := Follow(rules, w, steps);
      var loaded := Follow(rules, w, steps + LoadSteps(rid, run.context, run.source));
      && published.Some? && JustReturned(published.value, pid)
      && (if |rules.encode(g.manifest)| <= MAX_EVIDENCE_FILE_BYTES then Loads(loaded, rid, g) else loaded.None?)
  {
    hide Follow, Authentic, PublishSteps, LoadSteps, Loads;
    var first, steps := Opening(pid, run, name, finishedAt, records, outputs), PublishSteps(pid, reply);
    var load := LoadSteps(rid, run.context, run.source);
    OpeningEnters(rules, w, pid, run, name, finishedAt, records, outputs);
    FollowIsPossible(rules, actions, first);
    var u := After(rules, actions + first);
    PublishReturnsIff(rules, actions + first, u, pid, reply);
    FollowIsPossible(rules, actions + first, steps);
    var v := After(rules, actions + first + steps);
    FollowJoin(rules, w, first, steps);
    FollowJoin(rules, w, first + steps, load);
    RunKeeps(rules, actions + first + steps);
    EnteredIs(rules, v, pid);
    ReturnedIsLoadable(rules, actions + first + steps, v, pid, rid);
  }
}
