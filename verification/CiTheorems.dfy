/** The claims about publication and loading, over every run of the system. */
module CiTheorems {
  import opened CiPublication
  import opened CiSafety

  lemma PrefixPossible(rules: Rules, actions: seq<Action>, k: nat)
    requires Possible(rules, actions) && k <= |actions|
    ensures Possible(rules, actions[..k])
    decreases |actions|
  {
    if k < |actions| {
      assert actions[..|actions| - 1][..k] == actions[..k];
      PrefixPossible(rules, actions[..|actions| - 1], k);
    } else {
      assert actions[..k] == actions;
    }
  }

  /** The world after the first k actions. */
  ghost function Moment(rules: Rules, actions: seq<Action>, k: nat): World
    requires Possible(rules, actions) && k <= |actions|
  {
    PrefixPossible(rules, actions, k);
    After(rules, actions[..k])
  }

  lemma MomentStep(rules: Rules, actions: seq<Action>, k: nat)
    requires Possible(rules, actions) && k < |actions|
    ensures Enabled(rules, Moment(rules, actions, k), actions[k])
    ensures Moment(rules, actions, k + 1) == Apply(rules, Moment(rules, actions, k), actions[k])
  {
    PrefixPossible(rules, actions, k);
    PrefixPossible(rules, actions, k + 1);
    assert actions[..k + 1][..k] == actions[..k];
  }

  lemma MomentKeeps(rules: Rules, actions: seq<Action>, k: nat)
    requires Possible(rules, actions) && k <= |actions|
    ensures Inv(rules, Moment(rules, actions, k))
  {
    PrefixPossible(rules, actions, k);
    RunKeeps(rules, actions[..k]);
  }

  lemma MomentReader(rules: Rules, actions: seq<Action>, k: nat, rid: nat)
    requires Possible(rules, actions) && k <= |actions|
    ensures ReaderSound(rules, Moment(rules, actions, k), rid)
  {
    MomentKeeps(rules, actions, k);
  }

  // ----- the log only grows -----

  lemma ApplyGrowsLog(rules: Rules, w: World, a: Action, c: string)
    requires Enabled(rules, w, a)
    ensures LogOf(w.authority, c) <= LogOf(Apply(rules, w, a).authority, c)
  {
  }

  lemma {:induction false} LogGrows(rules: Rules, actions: seq<Action>, i: nat, j: nat, c: string)
    requires Possible(rules, actions) && i <= j <= |actions|
    ensures LogOf(Moment(rules, actions, i).authority, c) <= LogOf(Moment(rules, actions, j).authority, c)
    decreases j - i
  {
    if i < j {
      LogGrows(rules, actions, i, j - 1, c);
      MomentStep(rules, actions, j - 1);
      ApplyGrowsLog(rules, Moment(rules, actions, j - 1), actions[j - 1], c);
    }
  }

  // ----- a reader's own history -----

  /** A reader keeps what it resolved, and the name it opened. */
  predicate Continues(r: Reader, s: Reader) {
    && s.context == r.context && s.source == r.source && s.run == r.run && s.mark == r.mark
    && (r.name.Some? ==> s.name == r.name)
  }

  lemma ApplyContinues(rules: Rules, w: World, a: Action, rid: nat)
    requires Enabled(rules, w, a) && rid in w.readers && ReaderSound(rules, w, rid)
    ensures rid in Apply(rules, w, a).readers && Continues(w.readers[rid], Apply(rules, w, a).readers[rid])
  {
    if IsReaderAction(a) && a.rid == rid { OwnActionContinues(rules, w, a); }
  }

  lemma OwnActionContinues(rules: Rules, w: World, a: Action)
    requires Enabled(rules, w, a) && IsReaderAction(a) && a.rid in w.readers && ReaderSound(rules, w, a.rid)
    ensures Continues(w.readers[a.rid], Apply(rules, w, a).readers[a.rid])
  {
  }

  lemma ApplyReaders(rules: Rules, w: World, a: Action, rid: nat)
    requires Enabled(rules, w, a) && rid !in w.readers && rid in Apply(rules, w, a).readers
    ensures a.Resolve? && a.rid == rid
    ensures
      var r := Apply(rules, w, a).readers[rid];
      r.mark == |LogOf(w.authority, r.context)| && Current(w.authority, r.context) == Some(r.run)
  {
  }

  /** A reader either was there one step earlier, or has just resolved its run. */
  lemma ReaderStep(rules: Rules, actions: seq<Action>, k: nat, rid: nat)
    requires Possible(rules, actions) && k < |actions| && rid in Moment(rules, actions, k + 1).readers
    ensures
      var w := Moment(rules, actions, k);
      var r := Moment(rules, actions, k + 1).readers[rid];
      || (rid in w.readers && Continues(w.readers[rid], r))
      || (actions[k].Resolve? && actions[k].rid == rid && r.mark == |LogOf(w.authority, r.context)|
          && Current(w.authority, r.context) == Some(r.run))
  {
    var w := Moment(rules, actions, k);
    MomentStep(rules, actions, k);
    if rid in w.readers {
      MomentReader(rules, actions, k, rid);
      ApplyContinues(rules, w, actions[k], rid);
    } else {
      ApplyReaders(rules, w, actions[k], rid);
    }
  }

  /** The step at which this reader, as it now is, resolved its run. */
  ghost predicate BeganAt(rules: Rules, actions: seq<Action>, i: nat, r: Reader, rid: nat)
    requires Possible(rules, actions)
  {
    && i < |actions| && actions[i].Resolve? && actions[i].rid == rid
    && r.mark == |LogOf(Moment(rules, actions, i).authority, r.context)|
    && Current(Moment(rules, actions, i).authority, r.context) == Some(r.run)
  }

  lemma {:induction false} Began(rules: Rules, actions: seq<Action>, k: nat, rid: nat) returns (i: nat)
    requires Possible(rules, actions) && k <= |actions| && rid in Moment(rules, actions, k).readers
    ensures i < k && BeganAt(rules, actions, i, Moment(rules, actions, k).readers[rid], rid)
    decreases k
  {
    NoReadersAtStart(rules, actions);
    ReaderStep(rules, actions, k - 1, rid);
    i := k - 1;
    if !BeganAt(rules, actions, i, Moment(rules, actions, k).readers[rid], rid) {
      i := Began(rules, actions, k - 1, rid);
    }
  }

  lemma ApplyRenamed(rules: Rules, w: World, a: Action, rid: nat)
    requires Enabled(rules, w, a) && ReaderSound(rules, w, rid) && RAt(Apply(rules, w, a), rid, Renamed)
    ensures !RAt(w, rid, Renamed) ==>
              a == ReadNameAgain(rid) && rid in w.readers && w.latest == w.readers[rid].name
              && Apply(rules, w, a).readers[rid].name == w.readers[rid].name
    ensures RAt(w, rid, Renamed) ==> Apply(rules, w, a).readers[rid].name == w.readers[rid].name
  {
  }

  /** A reader past its closing look either was so one step earlier, or has just looked. */
  lemma RenamedStep(rules: Rules, actions: seq<Action>, k: nat, rid: nat)
    requires Possible(rules, actions) && k < |actions| && RAt(Moment(rules, actions, k + 1), rid, Renamed)
    ensures
      var name := Moment(rules, actions, k + 1).readers[rid].name;
      || (RAt(Moment(rules, actions, k), rid, Renamed) && Moment(rules, actions, k).readers[rid].name == name)
      || (actions[k] == ReadNameAgain(rid) && Moment(rules, actions, k).latest == name)
  {
    MomentStep(rules, actions, k);
    MomentReader(rules, actions, k, rid);
    ApplyRenamed(rules, Moment(rules, actions, k), actions[k], rid);
  }

  lemma NoReadersAtStart(rules: Rules, actions: seq<Action>)
    requires Possible(rules, actions)
    ensures Moment(rules, actions, 0).readers == map[]
  {
  }

  /** The closing look at the pointer that a reader past it must have made. */
  lemma {:induction false} LookedAgain(rules: Rules, actions: seq<Action>, k: nat, rid: nat) returns (m: nat)
    requires Possible(rules, actions) && k <= |actions| && RAt(Moment(rules, actions, k), rid, Renamed)
    ensures m < k && actions[m] == ReadNameAgain(rid)
    ensures Moment(rules, actions, m).latest == Moment(rules, actions, k).readers[rid].name
    decreases k
  {
    NoReadersAtStart(rules, actions);
    RenamedStep(rules, actions, k - 1, rid);
    m := k - 1;
    if !(actions[m] == ReadNameAgain(rid)
         && Moment(rules, actions, m).latest == Moment(rules, actions, k).readers[rid].name) {
      m := LookedAgain(rules, actions, k - 1, rid);
    }
  }

  // ----- a completed load -----

  /** Publisher `pid` made this generation and the authority finalized it under this manifest. */
  ghost predicate PublishedBy(rules: Rules, w: World, pid: nat, run: CiRun, g: Generation) {
    && pid in w.publishers
    && w.publishers[pid].placed && w.publishers[pid].committed
    && w.publishers[pid].published == run && w.publishers[pid].content == g
    && Finalized(run, Digest(rules, g.manifest)) in w.authority.finals
    && run.generation == Some(w.publishers[pid].name)
    && w.publishers[pid].name in w.generations && w.generations[w.publishers[pid].name] == g
    && Anchors(rules, w.authority, run.context, w.publishers[pid].name, g.manifest)
  }

  /** What a reader has in hand at its end is one publisher's finalized generation, whole. */
  lemma ReadIsPublished(rules: Rules, actions: seq<Action>, w: World, rid: nat) returns (pid: nat)
    requires Possible(rules, actions) && w == After(rules, actions) && rid in w.readers && w.readers[rid].logs.Some?
    ensures w.readers[rid].manifest.Some?
    ensures PublishedBy(rules, w, pid, w.readers[rid].run,
                        Generation(w.readers[rid].manifest.value, w.readers[rid].logs.value))
  {
    RunKeeps(rules, actions);
    var r := w.readers[rid];
    assert ReaderSound(rules, w, rid);
    assert Entry(w.authority.log, r.context, r.mark - 1);
    var f :| f in w.authority.finals && f.run == r.run;
    pid :| Committer(rules, w, pid, f);
    assert PublisherSound(rules, w, pid);
  }

  /** What a load holds when it may return. */
  lemma MayClose(rules: Rules, w: World, rid: nat)
    requires Inv(rules, w) && Enabled(rules, w, Close(rid))
    ensures RAt(w, rid, Renamed) && rid in w.readers
    ensures
      var r := w.readers[rid];
      && Current(w.authority, r.context) == Some(r.run)
      && r.run.phase == Success && r.run.context == r.context && r.run.source == r.source
      && r.name.Some? && r.run.generation == r.name && r.manifest.Some? && r.logs.Some?
  {
    assert ReaderSound(rules, w, rid);
  }

  /** Whenever a load returns: the run it resolved was current at every moment from its first step to its
      last; the pointer named its generation at the closing look; and what it returns is the manifest and
      the logs of one publisher whose generation the authority finalized for exactly that run. */
  lemma LoadIsSafe(rules: Rules, actions: seq<Action>, j: nat, rid: nat) returns (i: nat, m: nat, pid: nat)
    requires Possible(rules, actions) && j < |actions| && actions[j] == Close(rid)
    ensures i < j && m < j && actions[i].Resolve? && actions[i].rid == rid && actions[m] == ReadNameAgain(rid)
    ensures rid in Moment(rules, actions, j).readers
    ensures
      var r := Moment(rules, actions, j).readers[rid];
      && (forall k :: i <= k <= j ==> Current(Moment(rules, actions, k).authority, r.context) == Some(r.run))
      && r.run.phase == Success && r.run.context == r.context && r.run.source == r.source
      && r.name.Some? && r.run.generation == r.name && Moment(rules, actions, m).latest == r.name
      && r.manifest.Some? && r.logs.Some?
      && PublishedBy(rules, Moment(rules, actions, j), pid, r.run, Generation(r.manifest.value, r.logs.value))
  {
    hide Inv, PublishedBy, Enabled, Current, RAt, ReaderSound;
    MomentStep(rules, actions, j);
    MomentKeeps(rules, actions, j);
    var w := Moment(rules, actions, j);
    MayClose(rules, w, rid);
    i := Began(rules, actions, j, rid);
    m := LookedAgain(rules, actions, j, rid);
    PrefixPossible(rules, actions, j);
    pid := ReadIsPublished(rules, actions[..j], w, rid);
    var r := w.readers[rid];
    CurrentThroughout(rules, actions, i, j, r.context, r.run);
  }

  /** No ABA: a log that has grown past an entry does not end with it again. */
  lemma NoReturn(a: Authority, c: string, first: seq<CiRun>, run: CiRun)
    requires LogSound(a.log) && first <= LogOf(a, c) && first != [] && first[|first| - 1] == run
    requires Current(a, c) == Some(run)
    ensures first == LogOf(a, c)
  {
    LogDistinct(a.log, c, |first| - 1, |LogOf(a, c)| - 1);
  }

  lemma LogStoodStill(rules: Rules, actions: seq<Action>, i: nat, j: nat, c: string, run: CiRun)
    requires Possible(rules, actions) && i <= j <= |actions|
    requires Current(Moment(rules, actions, i).authority, c) == Some(run)
    requires Current(Moment(rules, actions, j).authority, c) == Some(run)
    ensures LogOf(Moment(rules, actions, i).authority, c) == LogOf(Moment(rules, actions, j).authority, c)
  {
    MomentLog(rules, actions, j);
    LogGrows(rules, actions, i, j, c);
    NoReturn(Moment(rules, actions, j).authority, c, LogOf(Moment(rules, actions, i).authority, c), run);
  }

  lemma MomentLog(rules: Rules, actions: seq<Action>, k: nat)
    requires Possible(rules, actions) && k <= |actions|
    ensures LogSound(Moment(rules, actions, k).authority.log)
  {
    MomentKeeps(rules, actions, k);
  }

  lemma Unchanged(rules: Rules, actions: seq<Action>, i: nat, k: nat, j: nat, c: string, run: CiRun)
    requires Possible(rules, actions) && i <= k <= j <= |actions|
    requires LogOf(Moment(rules, actions, i).authority, c) == LogOf(Moment(rules, actions, j).authority, c)
    ensures LogOf(Moment(rules, actions, k).authority, c) == LogOf(Moment(rules, actions, i).authority, c)
  {
    LogGrows(rules, actions, i, k, c);
    LogGrows(rules, actions, k, j, c);
  }

  /** A value that is current at two moments was current throughout: it cannot have come back. */
  lemma CurrentThroughout(rules: Rules, actions: seq<Action>, i: nat, j: nat, c: string, run: CiRun)
    requires Possible(rules, actions) && i <= j <= |actions|
    requires Current(Moment(rules, actions, i).authority, c) == Some(run)
    requires Current(Moment(rules, actions, j).authority, c) == Some(run)
    ensures forall k :: i <= k <= j ==> Current(Moment(rules, actions, k).authority, c) == Some(run)
  {
    LogStoodStill(rules, actions, i, j, c, run);
    forall k | i <= k <= j ensures Current(Moment(rules, actions, k).authority, c) == Some(run) {
      Unchanged(rules, actions, i, k, j, c, run);
    }
  }

  // ----- a publish call that raises, and one that returns -----

  /** After a publish call raised before its finalization was confirmed, and for ever after, the pointer does
      not name the generation it placed. */
  lemma RaisedLeavesNoPointer(rules: Rules, actions: seq<Action>, pid: nat)
    requires Possible(rules, actions)
    requires
      var w := After(rules, actions);
      pid in w.publishers && w.publishers[pid].pc == Raised && w.publishers[pid].placed
    ensures After(rules, actions).latest != Some(After(rules, actions).publishers[pid].name)
  {
    RunKeeps(rules, actions);
    var w := After(rules, actions);
    if w.latest == Some(w.publishers[pid].name) {
      var q :| Pointer(w, q, w.latest.value);
      assert Placer(w, pid, w.publishers[pid].name);
      assert false;
    }
  }

  /** In any world, no step of a publish call removes or replaces a pointer that names another generation, except
      the switch to its own. */
  lemma PointerOnlyLeavesItsOwner(rules: Rules, w: World, a: Action)
    requires Enabled(rules, w, a) && Apply(rules, w, a).latest != w.latest
    ensures a.Switch? || a.Raise?
    ensures a.Switch? ==> Apply(rules, w, a).latest == Some(w.publishers[a.pid].name)
    ensures a.Raise? ==>
              w.latest == Some(w.publishers[a.pid].name) && w.publishers[a.pid].switched
              && !w.publishers[a.pid].finalized
  {
  }

  /** A publish call that returns was finalized by the authority, whatever reply it got, and the pointer named
      its generation at its closing look. */
  lemma ReturnedMeansFinalized(rules: Rules, actions: seq<Action>, w: World, pid: nat)
    requires Possible(rules, actions) && w == After(rules, actions)
    requires Enabled(rules, w, SeeAnchor(pid)) && At(w, pid, ConfirmedSeen)
    ensures PublishedBy(rules, w, pid, w.publishers[pid].published, w.publishers[pid].content)
    ensures w.latest == Some(w.publishers[pid].name)
    ensures Apply(rules, w, SeeAnchor(pid)).publishers[pid].pc == Returned
  {
    hide Inv, PublishedBy, Enabled, Apply;
    RunKeeps(rules, actions);
    ConfirmedIsPublished(rules, w, pid);
  }

  lemma ConfirmedIsPublished(rules: Rules, w: World, pid: nat)
    requires Inv(rules, w) && Enabled(rules, w, SeeAnchor(pid)) && At(w, pid, ConfirmedSeen)
    ensures PublishedBy(rules, w, pid, w.publishers[pid].published, w.publishers[pid].content)
    ensures w.latest == Some(w.publishers[pid].name)
    ensures Apply(rules, w, SeeAnchor(pid)).publishers[pid].pc == Returned
  {
    hide Digest, Accounted;
    assert PublisherSound(rules, w, pid);
  }

  // ----- what a publisher returned can be loaded -----

  /** Whatever was placed passed the checks a reader repeats. */
  predicate Checked(rules: Rules, p: Publisher) {
    p.placed || p.pc == Inside(Verified) ==> Authentic(rules, p.content)
  }

  lemma ApplyChecked(rules: Rules, w: World, a: Action, pid: nat)
    requires Enabled(rules, w, a) && pid in Apply(rules, w, a).publishers
    requires pid in w.publishers ==> Checked(rules, w.publishers[pid])
    ensures Checked(rules, Apply(rules, w, a).publishers[pid])
  {
    if pid in w.publishers && Apply(rules, w, a).publishers[pid] != w.publishers[pid] {
      OwnStepChecked(rules, w, a, pid);
    }
  }

  lemma CommitContent(rules: Rules, w: World, pid: nat)
    requires pid in w.publishers
    ensures Commit(rules, w, pid).publishers == w.publishers[pid := w.publishers[pid].(committed := true)]
  {}

  lemma FinalizeContent(rules: Rules, w: World, a: Action, pid: nat)
    requires a.Finalize? && WriterEnabled(rules, w, a) && a.pid == pid
    ensures pid in WriterNext(rules, w, a).publishers
    ensures
      var p, q := w.publishers[pid], WriterNext(rules, w, a).publishers[pid];
      q.content == p.content && q.placed == p.placed && q.pc != Inside(Verified)
  {
    hide StillActive, Authentic, Anchors, Current, Commit;
    CommitContent(rules, w, pid);
  }

  lemma ReconcileContent(rules: Rules, w: World, a: Action, pid: nat)
    requires (a.SeeCurrent? || a.SeeAnchor?) && WriterEnabled(rules, w, a) && a.pid == pid
    ensures pid in WriterNext(rules, w, a).publishers
    ensures
      var p, q := w.publishers[pid], WriterNext(rules, w, a).publishers[pid];
      q.content == p.content && q.placed == p.placed && q.pc != Inside(Verified)
  {}

  /** A step never changes what is published, and only a verification leads to the rename. */
  lemma OwnStepContent(rules: Rules, w: World, a: Action, pid: nat)
    requires !IsReaderAction(a) && WriterEnabled(rules, w, a) && !a.Begin? && !a.CompleteFailed? && !a.Enter?
    requires a.pid == pid && pid in w.publishers
    ensures pid in WriterNext(rules, w, a).publishers
    ensures
      var p, q := w.publishers[pid], WriterNext(rules, w, a).publishers[pid];
      && q.content == p.content
      && (q.placed && !p.placed ==> p.pc == Inside(Verified))
      && (q.pc == Inside(Verified) ==> a.Verify?)
  {
    hide StillActive, Authentic, Anchors, Current, Commit;
    if a.Finalize? {
      FinalizeContent(rules, w, a, pid);
    } else if a.SeeCurrent? || a.SeeAnchor? {
      ReconcileContent(rules, w, a, pid);
    }
  }

  lemma OwnStepChecked(rules: Rules, w: World, a: Action, pid: nat)
    requires !IsReaderAction(a) && WriterEnabled(rules, w, a) && !a.Begin? && !a.CompleteFailed? && !a.Enter?
    requires a.pid == pid && pid in w.publishers && Checked(rules, w.publishers[pid])
    ensures pid in WriterNext(rules, w, a).publishers && Checked(rules, WriterNext(rules, w, a).publishers[pid])
  {
    OwnStepContent(rules, w, a, pid);
  }

  lemma {:induction false} PlacedIsAuthentic(rules: Rules, actions: seq<Action>, pid: nat)
    requires Possible(rules, actions) && pid in After(rules, actions).publishers
    ensures Checked(rules, After(rules, actions).publishers[pid])
    decreases |actions|
  {
    if actions != [] {
      var before := actions[..|actions| - 1];
      if pid in After(rules, before).publishers { PlacedIsAuthentic(rules, before, pid); }
      ApplyChecked(rules, After(rules, before), actions[|actions| - 1], pid);
    }
  }

  /** The eight steps of one load, taken with nothing in between. */
  function LoadSteps(rid: nat, context: string, source: string): seq<Action> {
    [Resolve(rid, context, source), ReadName(rid), ReadManifest(rid), CheckAnchor(rid), CheckCurrent(rid),
     ReadLogs(rid), ReadNameAgain(rid), Close(rid)]
  }

  /** Take the steps in order, if each is enabled when its turn comes. */
  function Follow(rules: Rules, w: World, steps: seq<Action>): Option<World>
    decreases |steps|
  {
    if steps == [] then Some(w)
    else if !Enabled(rules, w, steps[0]) then None
    else Follow(rules, Apply(rules, w, steps[0]), steps[1..])
  }

  lemma FollowNone(rules: Rules, w: World)
    ensures Follow(rules, w, []) == Some(w)
  {}

  lemma FollowOne(rules: Rules, w: World, step: Action, rest: seq<Action>)
    requires IsReaderAction(step)
    ensures !ReaderEnabled(rules, w, step) ==> Follow(rules, w, [step] + rest) == None
    ensures ReaderEnabled(rules, w, step) ==>
              Follow(rules, w, [step] + rest) == Follow(rules, RMove(w, step.rid, ReaderNext(rules, w, step)), rest)
  {
    assert ([step] + rest)[1..] == rest;
  }

  /** A reader that has opened generation `name` of run `run` in a world that stands still. */
  ghost predicate Standing(rules: Rules, w: World, run: CiRun, name: string, g: Generation) {
    && Current(w.authority, run.context) == Some(run) && run.phase == Success && run.generation == Some(name)
    && w.latest == Some(name) && name in w.generations && w.generations[name] == g
    && Describes(g.manifest, run) && Anchors(rules, w.authority, run.context, name, g.manifest) && Authentic(rules, g)
  }

  /** The second half of a load in a standing world always completes. */
  lemma RestOfLoad(rules: Rules, w: World, rid: nat, run: CiRun, name: string, g: Generation)
    requires Standing(rules, w, run, name, g) && RAt(w, rid, Anchored)
    requires
      var r := w.readers[rid];
      r.run == run && r.context == run.context && r.name == Some(name) && r.manifest == Some(g.manifest)
    ensures Loads(Follow(rules, w, [CheckCurrent(rid), ReadLogs(rid), ReadNameAgain(rid), Close(rid)]), rid, g)
  {
    hide Authentic, Anchors, Follow;
    var w1 := RMove(w, rid, w.readers[rid].(pc := Rechecked));
    var w2 := RMove(w1, rid, w1.readers[rid].(logs := Some(g.logs), pc := Loaded));
    var w3 := RMove(w2, rid, w2.readers[rid].(pc := Renamed));
    assert Generation(g.manifest, g.logs) == g;
    FollowOne(rules, w, CheckCurrent(rid), [ReadLogs(rid), ReadNameAgain(rid), Close(rid)]);
    FollowOne(rules, w1, ReadLogs(rid), [ReadNameAgain(rid), Close(rid)]);
    FollowOne(rules, w2, ReadNameAgain(rid), [Close(rid)]);
    FollowOne(rules, w3, Close(rid), []);
    assert [CheckCurrent(rid)] + [ReadLogs(rid), ReadNameAgain(rid), Close(rid)]
           == [CheckCurrent(rid), ReadLogs(rid), ReadNameAgain(rid), Close(rid)];
    assert [ReadLogs(rid)] + [ReadNameAgain(rid), Close(rid)] == [ReadLogs(rid), ReadNameAgain(rid), Close(rid)];
    assert [ReadNameAgain(rid)] + [Close(rid)] == [ReadNameAgain(rid), Close(rid)];
    assert [Close(rid)] + [] == [Close(rid)];
    FollowNone(rules, RMove(w3, rid, w3.readers[rid].(pc := Done)));
  }

  /** A reader that has checked the anchor of this generation. */
  function AtAnchor(w: World, run: CiRun, name: string, g: Generation): Reader {
    Reader(run.context, run.source, run, |LogOf(w.authority, run.context)|, Some(name), Some(g.manifest), true, None,
           Anchored)
  }

  function FirstSteps(rid: nat, run: CiRun, rest: seq<Action>): seq<Action> {
    [Resolve(rid, run.context, run.source)] + ([ReadName(rid)] + ([ReadManifest(rid)] + ([CheckAnchor(rid)] + rest)))
  }

  /** The first half completes exactly when the manifest is within the read limit. */
  lemma StartOfLoad(rules: Rules, w: World, rid: nat, run: CiRun, name: string, g: Generation, rest: seq<Action>)
    requires Standing(rules, w, run, name, g) && rid !in w.readers
    ensures Follow(rules, w, FirstSteps(rid, run, rest))
            == if |rules.encode(g.manifest)| <= MAX_EVIDENCE_FILE_BYTES
               then Follow(rules, RMove(w, rid, AtAnchor(w, run, name, g)), rest) else None
  {
    var r := Reader(run.context, run.source, run, |LogOf(w.authority, run.context)|, None, None, false, None, Resolved);
    var w1 := RMove(w, rid, r);
    var w2 := RMove(w1, rid, r.(name := Some(name), pc := Named));
    var w3 := RMove(w2, rid, r.(name := Some(name), manifest := Some(g.manifest), pc := Read));
    assert RMove(w3, rid, AtAnchor(w, run, name, g)) == RMove(w, rid, AtAnchor(w, run, name, g));
    FollowOne(rules, w, Resolve(rid, run.context, run.source),
              [ReadName(rid)] + ([ReadManifest(rid)] + ([CheckAnchor(rid)] + rest)));
    FollowOne(rules, w1, ReadName(rid), [ReadManifest(rid)] + ([CheckAnchor(rid)] + rest));
    FollowOne(rules, w2, ReadManifest(rid), [CheckAnchor(rid)] + rest);
    if |rules.encode(g.manifest)| <= MAX_EVIDENCE_FILE_BYTES {
      FollowOne(rules, w3, CheckAnchor(rid), rest);
    }
  }

  /** Where a load that ran to its end holds exactly this generation. */
  ghost predicate Loads(done: Option<World>, rid: nat, g: Generation) {
    done.Some? && rid in done.value.readers && done.value.readers[rid].manifest == Some(g.manifest)
    && done.value.readers[rid].logs == Some(g.logs) && done.value.readers[rid].pc == Done
  }

  lemma LoadInStandingWorld(rules: Rules, w: World, rid: nat, run: CiRun, name: string, g: Generation)
    requires Standing(rules, w, run, name, g) && rid !in w.readers
    ensures
      var done := Follow(rules, w, LoadSteps(rid, run.context, run.source));
      if |rules.encode(g.manifest)| <= MAX_EVIDENCE_FILE_BYTES then Loads(done, rid, g) else done.None?
  {
    var rest := [CheckCurrent(rid), ReadLogs(rid), ReadNameAgain(rid), Close(rid)];
    StartOfLoad(rules, w, rid, run, name, g, rest);
    assert LoadSteps(rid, run.context, run.source) == FirstSteps(rid, run, rest);
    RestOfLoad(rules, RMove(w, rid, AtAnchor(w, run, name, g)), rid, run, name, g);
  }

  ghost predicate JustReturned(w: World, pid: nat) {
    && pid in w.publishers && w.publishers[pid].pc == Returned
    && Current(w.authority, w.publishers[pid].run.context) == Some(w.publishers[pid].published)
    && w.latest == Some(w.publishers[pid].name)
  }

  lemma ReturnedStands(rules: Rules, w: World, pid: nat)
    requires Inv(rules, w) && JustReturned(w, pid) && Checked(rules, w.publishers[pid])
    ensures Standing(rules, w, w.publishers[pid].published, w.publishers[pid].name, w.publishers[pid].content)
    ensures
      var p := w.publishers[pid];
      p.published.context == p.run.context && p.published.source == p.run.source
  {
    assert PublisherSound(rules, w, pid);
  }

  /** What a publish call that returned left is immediately loadable, with its own records and outputs, while
      its run is still current and the pointer its own, exactly when its manifest is within the read limit:
      publication bounds the logs but not the manifest. */
  lemma ReturnedIsLoadable(rules: Rules, actions: seq<Action>, w: World, pid: nat, rid: nat)
    requires Possible(rules, actions) && w == After(rules, actions)
    requires JustReturned(w, pid) && rid !in w.readers
    ensures
      var p := w.publishers[pid];
      var done := Follow(rules, w, LoadSteps(rid, p.run.context, p.run.source));
      if |rules.encode(p.content.manifest)| <= MAX_EVIDENCE_FILE_BYTES then Loads(done, rid, p.content) else done.None?
  {
    RunKeeps(rules, actions);
    PlacedIsAuthentic(rules, actions, pid);
    ReturnedStands(rules, w, pid);
    var p := w.publishers[pid];
    LoadInStandingWorld(rules, w, rid, p.published, p.name, p.content);
  }
}
