/** What every interleaving of publishers, superseding runs and readers keeps. */
module CiSafety {
  import opened CiPublication

  // ----- the authority -----

  predicate Entry(log: map<string, seq<CiRun>>, c: string, n: int) { c in log && 0 <= n < |log[c]| }

  predicate Began(log: map<string, seq<CiRun>>, c: string, n: int, id: string) {
    Entry(log, c, n) && log[c][n].phase == Active && log[c][n].runId == id
  }

  predicate Ended(log: map<string, seq<CiRun>>, c: string, n: int) { Entry(log, c, n) && log[c][n].phase != Active }

  ghost predicate OwnContext(log: map<string, seq<CiRun>>) {
    forall c, n :: Entry(log, c, n) ==> log[c][n].context == c
  }

  /** Each finished entry directly follows the active entry of its own run. */
  ghost predicate Follows(log: map<string, seq<CiRun>>) {
    forall c, n :: Ended(log, c, n) ==> Began(log, c, n - 1, log[c][n].runId)
  }

  ghost predicate BegunOnce(log: map<string, seq<CiRun>>) {
    forall c, d, n, m, id :: Began(log, c, n, id) && Began(log, d, m, id) ==> c == d && n == m
  }

  ghost predicate LogSound(log: map<string, seq<CiRun>>) { OwnContext(log) && Follows(log) && BegunOnce(log) }

  /** No value of a context's current run ever comes back: there is no ABA. */
  lemma LogDistinct(log: map<string, seq<CiRun>>, c: string, n: int, m: int)
    requires LogSound(log) && Entry(log, c, n) && Entry(log, c, m) && log[c][n] == log[c][m]
    ensures n == m
  {
    if log[c][n].phase == Active {
      assert Began(log, c, n, log[c][n].runId) && Began(log, c, m, log[c][n].runId);
    } else {
      assert Ended(log, c, n) && Ended(log, c, m);
    }
  }

  /** The entries after an advance: the old ones and one more. */
  lemma AdvanceEntry(a: Authority, run: CiRun, c: string, n: int)
    ensures
      var log := Advance(a, run).log;
      Entry(log, c, n) <==> Entry(a.log, c, n) || (c == run.context && n == |LogOf(a, c)|)
    ensures Entry(a.log, c, n) ==> Advance(a, run).log[c][n] == a.log[c][n]
    ensures c == run.context && n == |LogOf(a, c)| ==>
              Entry(Advance(a, run).log, c, n) && Advance(a, run).log[c][n] == run
  {
  }

  lemma AdvanceSound(a: Authority, run: CiRun)
    requires LogSound(a.log)
    requires
      || (run.phase == Active && FreshRun(a, run))
      || (run.phase != Active && Current(a, run.context).Some? && Current(a, run.context).value.phase == Active
          && Current(a, run.context).value.runId == run.runId)
    ensures LogSound(Advance(a, run).log)
  {
    var grown := Advance(a, run).log;
    forall c, n | Entry(grown, c, n) ensures grown[c][n].context == c { AdvanceEntry(a, run, c, n); }
    forall c, n | Ended(grown, c, n) ensures Began(grown, c, n - 1, grown[c][n].runId) {
      AdvanceEntry(a, run, c, n);
      AdvanceEntry(a, run, c, n - 1);
      if Entry(a.log, c, n) { assert Ended(a.log, c, n); }
    }
    forall c, d, n, m, id | Began(grown, c, n, id) && Began(grown, d, m, id) ensures c == d && n == m {
      AdvanceEntry(a, run, c, n);
      AdvanceEntry(a, run, d, m);
      assert Entry(a.log, c, n) ==> Began(a.log, c, n, id);
      assert Entry(a.log, d, m) ==> Began(a.log, d, m, id);
    }
  }

  // ----- finalizations -----

  /** Some finalization stands behind every successful entry, and its anchor stands. */
  ghost predicate Backed(a: Authority) {
    && (forall c, n :: Entry(a.log, c, n) && a.log[c][n].phase == Success ==>
          exists f :: f in a.finals && f.run == a.log[c][n])
    && (forall f :: f in a.finals ==>
          && f.run.phase == Success && f.run.generation.Some?
          && (f.run.context, f.run.generation.value) in a.anchors
          && a.anchors[(f.run.context, f.run.generation.value)] == f.digest)
    && (forall key :: key in a.anchors ==>
          exists f :: f in a.finals && f.run.context == key.0 && f.run.generation == Some(key.1))
  }

  // ----- publishers and the directory -----

  /** Publisher `pid` is the one whose rename made this generation. */
  predicate Placer(w: World, pid: nat, name: string) {
    pid in w.publishers && w.publishers[pid].placed && w.publishers[pid].name == name
  }

  /** What a publisher's own record says at each stage. */
  predicate Consistent(p: Publisher) {
    && p.published == Published(p.run, p.name, p.finishedAt)
    && Describes(p.content.manifest, p.published)
    && (p.finalized ==> p.committed) && (p.committed ==> p.switched) && (p.switched ==> p.placed)
    && match p.pc
       case Entered => !p.placed
       case Inside(stage) => (
         match stage
         case Locked => !p.placed
         case Verified => !p.placed
         case Placed => p.placed && !p.switched
         case Reverified => p.placed && !p.switched
         case Pointed => p.placed && !p.switched
         case Switched => p.switched && !p.committed
         case Doubtful => p.switched && !p.finalized
         case DoubtfulSeen => p.switched && !p.finalized
         case Confirmed => p.finalized
         case ConfirmedSeen => p.finalized)
       case Returned => p.finalized
       case Raised => !p.finalized
       case RaisedConfirmed => p.finalized
       case Crashed => true
  }

  /** How one publisher stands to the directory, the authority, the lock and the pointer. */
  ghost predicate PublisherSound(rules: Rules, w: World, pid: nat) {
    pid in w.publishers ==>
      var p := w.publishers[pid];
      && Consistent(p)
      && (p.placed ==> p.name in w.generations && w.generations[p.name] == p.content)
      && (p.committed ==> Finalized(p.published, Digest(rules, p.content.manifest)) in w.authority.finals)
      && (p.pc == Inside(DoubtfulSeen) ==> p.published in LogOf(w.authority, p.run.context))
      && (p.pc.Inside? <==> w.lock == Some(pid))
      && (p.pc.Inside? && p.switched ==> w.latest == Some(p.name))
  }

  ghost predicate OnePlacer(w: World) {
    forall p, q, name :: Placer(w, p, name) && Placer(w, q, name) ==> p == q
  }

  /** Publisher `pid` is the one this finalization was for. */
  predicate Committer(rules: Rules, w: World, pid: nat, f: Finalized) {
    pid in w.publishers && w.publishers[pid].committed
    && f == Finalized(w.publishers[pid].published, Digest(rules, w.publishers[pid].content.manifest))
  }

  ghost predicate Accounted(rules: Rules, w: World) {
    && (forall name :: name in w.generations ==> exists pid :: Placer(w, pid, name))
    && (forall f :: f in w.authority.finals ==> exists pid :: Committer(rules, w, pid, f))
  }

  /** Publisher `pid` moved the pointer to its own generation and has not taken it back. */
  predicate Pointer(w: World, pid: nat, name: string) {
    Placer(w, pid, name) && w.publishers[pid].switched && w.publishers[pid].pc != Raised
  }

  ghost predicate PointerSound(w: World) {
    w.latest.Some? ==> exists pid :: Pointer(w, pid, w.latest.value)
  }

  // ----- readers -----

  /** What a reader has read by each point. */
  predicate Progress(r: Reader) {
    match r.pc
    case Resolved => r.name.None? && r.manifest.None? && !r.anchored && r.logs.None?
    case Named => r.name.Some? && r.manifest.None? && !r.anchored && r.logs.None?
    case Read => r.name.Some? && r.manifest.Some? && !r.anchored && r.logs.None?
    case Anchored => r.name.Some? && r.manifest.Some? && r.anchored && r.logs.None?
    case Rechecked => r.name.Some? && r.manifest.Some? && r.anchored && r.logs.None?
    case _ => r.name.Some? && r.manifest.Some? && r.anchored && r.logs.Some?
  }

  ghost predicate ReaderSound(rules: Rules, w: World, rid: nat) {
    rid in w.readers ==>
      var r := w.readers[rid];
      var log := LogOf(w.authority, r.context);
      && Progress(r)
      && 0 < r.mark <= |log| && log[r.mark - 1] == r.run
      && r.run.phase == Success && r.run.context == r.context && r.run.source == r.source && r.run.generation.Some?
      && (r.name.Some? ==> r.run.generation == r.name)
      && (r.manifest.Some? ==> Opened(w, rid) && r.manifest == Some(w.generations[r.name.value].manifest)
                               && Describes(r.manifest.value, r.run))
      && (r.anchored ==> r.name.Some? && r.manifest.Some?
                         && Anchors(rules, w.authority, r.context, r.name.value, r.manifest.value))
      && (r.logs.Some? ==> Opened(w, rid) && r.logs == Some(w.generations[r.name.value].logs))
  }

  ghost predicate Inv(rules: Rules, w: World) {
    && LogSound(w.authority.log)
    && Backed(w.authority)
    && (forall pid :: PublisherSound(rules, w, pid))
    && OnePlacer(w) && Accounted(rules, w) && PointerSound(w)
    && (w.lock.Some? ==> w.lock.value in w.publishers)
    && (forall rid :: ReaderSound(rules, w, rid))
  }

  // ----- frames -----

  /** Nothing that was ever established is undone. */
  ghost predicate Grows(w: World, v: World) {
    && (forall c :: LogOf(w.authority, c) <= LogOf(v.authority, c))
    && (forall k :: k in w.authority.anchors ==>
          k in v.authority.anchors && v.authority.anchors[k] == w.authority.anchors[k])
    && w.authority.finals <= v.authority.finals
    && (forall g :: g in w.generations ==> g in v.generations && v.generations[g] == w.generations[g])
  }

  lemma ReaderFrame(rules: Rules, w: World, v: World, rid: nat)
    requires ReaderSound(rules, w, rid) && Grows(w, v) && v.readers == w.readers
    ensures ReaderSound(rules, v, rid)
  {
    if rid in w.readers {
      assert LogOf(w.authority, w.readers[rid].context) <= LogOf(v.authority, w.readers[rid].context);
    }
  }

  /** A publisher that did not move, while the lock and the pointer it relies on did not either. */
  lemma PublisherFrame(rules: Rules, w: World, v: World, pid: nat)
    requires PublisherSound(rules, w, pid) && Grows(w, v) && pid in w.publishers
    requires pid in v.publishers && v.publishers[pid] == w.publishers[pid]
    requires w.publishers[pid].pc.Inside? ==> v.lock == w.lock && v.latest == w.latest
    requires v.lock == Some(pid) ==> w.lock == Some(pid)
    ensures PublisherSound(rules, v, pid)
  {
    var p := w.publishers[pid];
    assert LogOf(w.authority, p.run.context) <= LogOf(v.authority, p.run.context);
  }

  /** The publishers' renames and finalizations are the same in both worlds. */
  ghost predicate SamePublications(rules: Rules, w: World, v: World) {
    && v.authority.finals == w.authority.finals && v.generations == w.generations
    && (forall q, name :: Placer(v, q, name) <==> Placer(w, q, name))
    && (forall q, f :: Committer(rules, w, q, f) ==> Committer(rules, v, q, f))
  }

  lemma AccountedFrame(rules: Rules, w: World, v: World)
    requires OnePlacer(w) && Accounted(rules, w) && SamePublications(rules, w, v)
    ensures OnePlacer(v) && Accounted(rules, v)
  {
    forall name | name in v.generations ensures exists pid :: Placer(v, pid, name) {
      var pid :| Placer(w, pid, name);
      assert Placer(v, pid, name);
    }
    forall f | f in v.authority.finals ensures exists pid :: Committer(rules, v, pid, f) {
      var pid :| Committer(rules, w, pid, f);
      assert Committer(rules, v, pid, f);
    }
  }

  // ----- one publisher moves -----

  /** Publisher `pid` becomes `p`, with its rename and finalization as they were, and possibly the lock and
      the pointer change; nothing else does. */
  ghost predicate Moves(w: World, v: World, pid: nat, p: Publisher) {
    && pid in w.publishers
    && p.name == w.publishers[pid].name && p.placed == w.publishers[pid].placed
    && p.committed == w.publishers[pid].committed && p.published == w.publishers[pid].published
    && p.content == w.publishers[pid].content
    && v == Put(w, pid, p).(lock := v.lock, latest := v.latest)
    && (v.lock == w.lock || w.lock.None? || w.lock == Some(pid))
    && (v.lock == w.lock || v.lock.None? || v.lock == Some(pid))
    && (v.latest == w.latest || w.lock == Some(pid))
  }

  lemma OtherStays(rules: Rules, w: World, v: World, pid: nat, p: Publisher, q: nat)
    requires Moves(w, v, pid, p) && q != pid && PublisherSound(rules, w, q)
    ensures PublisherSound(rules, v, q)
  {
    if q in w.publishers { PublisherFrame(rules, w, v, q); }
  }

  lemma MovesPublications(rules: Rules, w: World, v: World, pid: nat, p: Publisher)
    requires Moves(w, v, pid, p)
    ensures SamePublications(rules, w, v) && Grows(w, v)
  {
  }

  lemma PublisherMoves(rules: Rules, w: World, v: World, pid: nat, p: Publisher)
    requires Inv(rules, w) && Moves(w, v, pid, p)
    requires PublisherSound(rules, v, pid) && PointerSound(v)
    ensures Inv(rules, v)
  {
    forall q ensures PublisherSound(rules, v, q) {
      if q != pid { OtherStays(rules, w, v, pid, p, q); }
    }
    MovesPublications(rules, w, v, pid, p);
    AccountedFrame(rules, w, v);
    forall rid ensures ReaderSound(rules, v, rid) { ReaderFrame(rules, w, v, rid); }
  }

  lemma PointerStays(w: World, v: World, pid: nat, p: Publisher)
    requires PointerSound(w) && Moves(w, v, pid, p) && v.latest == w.latest
    requires p.pc != Raised && (w.publishers[pid].switched ==> p.switched)
    ensures PointerSound(v)
  {
    if v.latest.Some? {
      var q :| Pointer(w, q, w.latest.value);
      assert Pointer(v, q, v.latest.value);
    }
  }

  /** Moves that keep the lock, the pointer and the pointer flag. */
  lemma StageMoves(rules: Rules, w: World, pid: nat, p: Publisher)
    requires Inv(rules, w) && Moves(w, Put(w, pid, p), pid, p) && PublisherSound(rules, Put(w, pid, p), pid)
    requires p.pc != Raised && p.switched == w.publishers[pid].switched
    ensures Inv(rules, Put(w, pid, p))
  {
    PointerStays(w, Put(w, pid, p), pid, p);
    PublisherMoves(rules, w, Put(w, pid, p), pid, p);
  }

  lemma TakeLockKeeps(rules: Rules, w: World, pid: nat)
    requires Inv(rules, w) && Enabled(rules, w, TakeLock(pid))
    ensures Inv(rules, Apply(rules, w, TakeLock(pid)))
  {
    var v := Apply(rules, w, TakeLock(pid));
    assert PublisherSound(rules, w, pid);
    PointerStays(w, v, pid, v.publishers[pid]);
    PublisherMoves(rules, w, v, pid, v.publishers[pid]);
  }

  lemma SwitchKeeps(rules: Rules, w: World, pid: nat)
    requires Inv(rules, w) && Enabled(rules, w, Switch(pid))
    ensures Inv(rules, Apply(rules, w, Switch(pid)))
  {
    var v := Apply(rules, w, Switch(pid));
    assert PublisherSound(rules, w, pid);
    assert Pointer(v, pid, v.latest.value);
    PublisherMoves(rules, w, v, pid, v.publishers[pid]);
  }

  /** Leaving by an error before confirmation: the pointer no longer names this generation. */
  lemma LeavePointer(rules: Rules, w: World, pid: nat)
    requires PublisherSound(rules, w, pid) && PointerSound(w) && OnePlacer(w)
    requires pid in w.publishers && w.publishers[pid].pc.Inside? && !w.publishers[pid].finalized
    ensures PointerSound(Leave(w, pid)) && PublisherSound(rules, Leave(w, pid), pid)
    ensures w.publishers[pid].placed ==> Leave(w, pid).latest != Some(w.publishers[pid].name)
  {
    var p := w.publishers[pid];
    var v := Leave(w, pid);
    if v.latest.Some? {
      var q :| Pointer(w, q, w.latest.value);
      assert p.switched ==> v.latest != Some(p.name);
      assert q == pid ==> p.switched;
      assert Pointer(v, q, v.latest.value);
      assert p.placed ==> Placer(w, pid, p.name);
    }
  }

  lemma LeaveKeeps(rules: Rules, w: World, pid: nat)
    requires Inv(rules, w) && Enabled(rules, w, Raise(pid))
    ensures Inv(rules, Leave(w, pid))
  {
    var v := Leave(w, pid);
    assert PublisherSound(rules, w, pid);
    if w.publishers[pid].finalized {
      PointerStays(w, v, pid, v.publishers[pid]);
    } else {
      LeavePointer(rules, w, pid);
    }
    PublisherMoves(rules, w, v, pid, v.publishers[pid]);
  }

  /** Leaving by success or by a crash, which cleans nothing up. */
  lemma OutKeeps(rules: Rules, w: World, pid: nat, pc: Pc)
    requires Inv(rules, w) && pid in w.publishers && w.publishers[pid].pc.Inside?
    requires pc == Crashed || (pc == Returned && w.publishers[pid].finalized)
    ensures Inv(rules, Out(w, pid, pc))
  {
    var v := Out(w, pid, pc);
    assert PublisherSound(rules, w, pid);
    PointerStays(w, v, pid, v.publishers[pid]);
    PublisherMoves(rules, w, v, pid, v.publishers[pid]);
  }

  lemma EnterKeeps(rules: Rules, w: World, a: Action)
    requires Inv(rules, w) && a.Enter? && Enabled(rules, w, a)
    ensures Inv(rules, Apply(rules, w, a))
  {
    var v := Apply(rules, w, a);
    forall q ensures PublisherSound(rules, v, q) {
      if q != a.pid && q in w.publishers {
        assert PublisherSound(rules, w, q);
        PublisherFrame(rules, w, v, q);
      }
    }
    AccountedFrame(rules, w, v);
    if v.latest.Some? {
      var q :| Pointer(w, q, w.latest.value);
      assert Pointer(v, q, v.latest.value);
    }
    forall rid ensures ReaderSound(rules, v, rid) { ReaderFrame(rules, w, v, rid); }
  }

  // ----- the rename -----

  lemma PlaceKeeps(rules: Rules, w: World, pid: nat)
    requires Inv(rules, w) && Enabled(rules, w, Place(pid))
    ensures Inv(rules, Apply(rules, w, Place(pid)))
  {
    var v := Apply(rules, w, Place(pid));
    assert PublisherSound(rules, w, pid);
    assert Grows(w, v);
    PlacePlacers(rules, w, pid);
    forall q ensures PublisherSound(rules, v, q) {
      if q != pid && q in w.publishers {
        assert PublisherSound(rules, w, q);
        PublisherFrame(rules, w, v, q);
      }
    }
    if v.latest.Some? {
      var q :| Pointer(w, q, w.latest.value);
      assert Pointer(v, q, v.latest.value);
    }
    forall rid ensures ReaderSound(rules, v, rid) { ReaderFrame(rules, w, v, rid); }
  }

  lemma PlacePlacers(rules: Rules, w: World, pid: nat)
    requires Inv(rules, w) && Enabled(rules, w, Place(pid))
    ensures OnePlacer(Apply(rules, w, Place(pid))) && Accounted(rules, Apply(rules, w, Place(pid)))
  {
    var v := Apply(rules, w, Place(pid));
    var p := w.publishers[pid];
    assert PublisherSound(rules, w, pid);
    assert forall q, name :: Placer(v, q, name) <==> Placer(w, q, name) || (q == pid && name == p.name);
    forall q ensures !Placer(w, q, p.name) { assert PublisherSound(rules, w, q); }
    forall name | name in v.generations ensures exists q :: Placer(v, q, name) {
      if name == p.name {
        assert Placer(v, pid, name);
      } else {
        var q :| Placer(w, q, name);
        assert Placer(v, q, name);
      }
    }
    forall f | f in v.authority.finals ensures exists q :: Committer(rules, v, q, f) {
      var q :| Committer(rules, w, q, f);
      assert Committer(rules, v, q, f);
    }
  }

  // ----- the authority's own steps -----

  lemma AdvanceBacked(a: Authority, run: CiRun)
    requires Backed(a) && run.phase != Success
    ensures Backed(Advance(a, run))
  {
    var b := Advance(a, run);
    forall c, n | Entry(b.log, c, n) && b.log[c][n].phase == Success
      ensures exists f :: f in b.finals && f.run == b.log[c][n]
    {
      AdvanceEntry(a, run, c, n);
      assert Entry(a.log, c, n);
    }
  }

  lemma AdvanceKeeps(rules: Rules, w: World, a: Action)
    requires Inv(rules, w) && Enabled(rules, w, a) && (a.Begin? || a.CompleteFailed?)
    ensures Inv(rules, Apply(rules, w, a))
  {
    var v := Apply(rules, w, a);
    var run := if a.Begin? then a.run else a.run.(finishedAt := Some(a.finishedAt), phase := Failed);
    assert v.authority == Advance(w.authority, run);
    AdvanceSound(w.authority, run);
    AdvanceBacked(w.authority, run);
    assert Grows(w, v);
    forall q ensures PublisherSound(rules, v, q) {
      assert PublisherSound(rules, w, q);
      if q in w.publishers { PublisherFrame(rules, w, v, q); }
    }
    AccountedFrame(rules, w, v);
    if v.latest.Some? {
      var q :| Pointer(w, q, w.latest.value);
      assert Pointer(v, q, v.latest.value);
    }
    forall rid ensures ReaderSound(rules, v, rid) { ReaderFrame(rules, w, v, rid); }
  }

  // ----- finalization -----

  /** No generation is bound twice: an anchor already there would belong to another placer of the name. */
  lemma AnchorIsNew(rules: Rules, w: World, pid: nat)
    requires Inv(rules, w) && At(w, pid, Switched)
    ensures (w.publishers[pid].run.context, w.publishers[pid].name) !in w.authority.anchors
  {
    var p := w.publishers[pid];
    var key := (p.run.context, p.name);
    assert PublisherSound(rules, w, pid);
    if key in w.authority.anchors {
      var f :| f in w.authority.finals && f.run.context == key.0 && f.run.generation == Some(key.1);
      var q :| Committer(rules, w, q, f);
      assert PublisherSound(rules, w, q);
      assert Placer(w, q, p.name) && Placer(w, pid, p.name);
      assert false;
    }
  }

  lemma CommitBacked(rules: Rules, a: Authority, run: CiRun, digest: string)
    requires Backed(a) && run.phase == Success && run.generation.Some?
    requires (run.context, run.generation.value) !in a.anchors
    ensures
      var b := Advance(a, run);
      Backed(b.(anchors := b.anchors[(run.context, run.generation.value) := digest],
                finals := b.finals + {Finalized(run, digest)}))
  {
    var b := Advance(a, run);
    var new' := Finalized(run, digest);
    var v := b.(anchors := b.anchors[(run.context, run.generation.value) := digest], finals := b.finals + {new'});
    assert new' in v.finals;
    forall c, n | Entry(v.log, c, n) && v.log[c][n].phase == Success
      ensures exists f :: f in v.finals && f.run == v.log[c][n]
    {
      AdvanceEntry(a, run, c, n);
      if Entry(a.log, c, n) {
        var f :| f in a.finals && f.run == a.log[c][n];
        assert f in v.finals;
      }
    }
    forall key | key in v.anchors
      ensures exists f :: f in v.finals && f.run.context == key.0 && f.run.generation == Some(key.1)
    {
      if key in a.anchors {
        var f :| f in a.finals && f.run.context == key.0 && f.run.generation == Some(key.1);
        assert f in v.finals;
      }
    }
  }

  lemma CommitAuthority(rules: Rules, w: World, pid: nat)
    requires Inv(rules, w) && At(w, pid, Switched) && StillActive(w, pid)
    ensures
      var v := Commit(rules, w, pid);
      LogSound(v.authority.log) && Backed(v.authority) && Grows(w, v)
  {
    var p := w.publishers[pid];
    AnchorIsNew(rules, w, pid);
    assert PublisherSound(rules, w, pid);
    AdvanceSound(w.authority, p.published);
    CommitBacked(rules, w.authority, p.published, Digest(rules, p.content.manifest));
  }

  lemma FinalizeKeeps(rules: Rules, w: World, pid: nat, accepted: bool)
    requires Inv(rules, w) && At(w, pid, Switched) && StillActive(w, pid)
    ensures Inv(rules, if accepted then Confirm(Commit(rules, w, pid), pid)
        else Next(Commit(rules, w, pid), pid, Doubtful))
  {
    hide PublisherSound, ReaderSound, Accounted, OnePlacer, PointerSound, Backed, LogSound, Digest, Advance;
    var v := if accepted then Confirm(Commit(rules, w, pid), pid) else Next(Commit(rules, w, pid), pid, Doubtful);
    CommitAuthority(rules, w, pid);
    assert Grows(w, v);
    FinalizeOwn(rules, w, v, pid);
    forall q ensures PublisherSound(rules, v, q) {
      if q !in w.publishers {
        AbsentSound(rules, v, q);
      } else if q != pid {
        assert PublisherSound(rules, w, q);
        PublisherFrame(rules, w, v, q);
      }
    }
    FinalizeAccounted(rules, w, v, pid);
    forall rid ensures ReaderSound(rules, v, rid) { ReaderFrame(rules, w, v, rid); }
  }

  lemma AbsentSound(rules: Rules, v: World, q: nat)
    requires q !in v.publishers
    ensures PublisherSound(rules, v, q)
  {}

  /** The publisher itself, after the authority committed its finalization. */
  lemma FinalizeOwn(rules: Rules, w: World, v: World, pid: nat)
    requires At(w, pid, Switched) && PublisherSound(rules, w, pid) && pid in v.publishers
    requires v == Put(Commit(rules, w, pid), pid, v.publishers[pid])
    requires
      var p := w.publishers[pid].(committed := true);
      v.publishers[pid] == p.(pc := Inside(Confirmed), finalized := true)
          || v.publishers[pid] == p.(pc := Inside(Doubtful))
    ensures PublisherSound(rules, v, pid) && PointerSound(v)
  {
    assert Pointer(v, pid, v.latest.value);
  }

  lemma FinalizeAccounted(rules: Rules, w: World, v: World, pid: nat)
    requires OnePlacer(w) && Accounted(rules, w) && pid in w.publishers && pid in v.publishers
    requires v == Put(Commit(rules, w, pid), pid, v.publishers[pid])
    requires v.publishers[pid] == w.publishers[pid].(pc := v.publishers[pid].pc, committed := true,
                                                    finalized := v.publishers[pid].finalized)
    ensures Accounted(rules, v) && OnePlacer(v)
  {
    assert forall q, name :: Placer(v, q, name) <==> Placer(w, q, name);
    forall name | name in v.generations ensures exists q :: Placer(v, q, name) {
      var q :| Placer(w, q, name);
      assert Placer(v, q, name);
    }
    forall f | f in v.authority.finals ensures exists q :: Committer(rules, v, q, f) {
      if f in w.authority.finals {
        var q :| Committer(rules, w, q, f);
        assert Committer(rules, v, q, f);
      } else {
        assert Committer(rules, v, pid, f);
      }
    }
  }

  /** What reconciliation infers: if the current run is the one this publisher published, its own
      finalization took effect, whatever reply it got. */
  lemma SeenMeansCommitted(rules: Rules, w: World, pid: nat)
    requires Inv(rules, w) && pid in w.publishers && w.publishers[pid].placed
    requires w.publishers[pid].published in LogOf(w.authority, w.publishers[pid].run.context)
    ensures w.publishers[pid].committed
  {
    var p := w.publishers[pid];
    assert PublisherSound(rules, w, pid);
    var n :| 0 <= n < |LogOf(w.authority, p.run.context)| && LogOf(w.authority, p.run.context)[n] == p.published;
    assert Entry(w.authority.log, p.run.context, n);
    var f :| f in w.authority.finals && f.run == p.published;
    var q :| Committer(rules, w, q, f);
    assert PublisherSound(rules, w, q);
    assert Placer(w, q, p.name) && Placer(w, pid, p.name);
  }

  lemma NextKeeps(rules: Rules, w: World, pid: nat, stage: Stage)
    requires Inv(rules, w) && pid in w.publishers && w.publishers[pid].pc.Inside?
    requires Consistent(w.publishers[pid].(pc := Inside(stage)))
    requires stage == DoubtfulSeen ==> w.publishers[pid].published in LogOf(w.authority, w.publishers[pid].run.context)
    ensures Inv(rules, Next(w, pid, stage))
  {
    assert PublisherSound(rules, w, pid);
    StageMoves(rules, w, pid, w.publishers[pid].(pc := Inside(stage)));
  }

  /** The moves that only record a check. */
  lemma MoveOn(rules: Rules, w: World, pid: nat, stage: Stage)
    requires Inv(rules, w)
    requires
      || (stage == Verified && At(w, pid, Locked)) || (stage == Reverified && At(w, pid, Placed))
      || (stage == Pointed && At(w, pid, Reverified)) || (stage == Doubtful && At(w, pid, Switched))
    ensures Inv(rules, Next(w, pid, stage))
  {
    assert PublisherSound(rules, w, pid);
    NextKeeps(rules, w, pid, stage);
  }

  lemma SeeCurrentKeeps(rules: Rules, w: World, pid: nat, stage: Stage)
    requires Inv(rules, w)
    requires (stage == DoubtfulSeen && At(w, pid, Doubtful)) || (stage == ConfirmedSeen && At(w, pid, Confirmed))
    requires Current(w.authority, w.publishers[pid].run.context) == Some(w.publishers[pid].published)
    ensures Inv(rules, Next(w, pid, stage))
  {
    SeenInLog(w.authority, w.publishers[pid].run.context, w.publishers[pid].published);
    assert PublisherSound(rules, w, pid);
    MayBeSeen(rules, w, pid, stage);
    NextKeeps(rules, w, pid, stage);
  }

  lemma MayBeSeen(rules: Rules, w: World, pid: nat, stage: Stage)
    requires PublisherSound(rules, w, pid)
    requires (stage == DoubtfulSeen && At(w, pid, Doubtful)) || (stage == ConfirmedSeen && At(w, pid, Confirmed))
    ensures Consistent(w.publishers[pid].(pc := Inside(stage)))
  {
  }

  lemma SeenInLog(a: Authority, context: string, run: CiRun)
    requires Current(a, context) == Some(run)
    ensures run in LogOf(a, context)
  {
    var log := LogOf(a, context);
    assert log[|log| - 1] in log;
  }

  lemma ReconcileKeeps(rules: Rules, w: World, pid: nat)
    requires Inv(rules, w) && At(w, pid, DoubtfulSeen)
    ensures Inv(rules, Confirm(w, pid))
  {
    assert PublisherSound(rules, w, pid);
    SeenMeansCommitted(rules, w, pid);
    StageMoves(rules, w, pid, w.publishers[pid].(pc := Inside(Confirmed), finalized := true));
  }

  lemma ReturnKeeps(rules: Rules, w: World, pid: nat)
    requires Inv(rules, w) && At(w, pid, ConfirmedSeen)
    ensures Inv(rules, Out(w, pid, Returned))
  {
    assert PublisherSound(rules, w, pid);
    OutKeeps(rules, w, pid, Returned);
  }

  // ----- readers -----

  lemma ReaderProgress(rules: Rules, w: World, a: Action)
    requires Enabled(rules, w, a) && IsReaderAction(a) && ReaderSound(rules, w, a.rid)
    ensures ReaderSound(rules, Apply(rules, w, a), a.rid)
  {
  }

  lemma ReaderMoves(rules: Rules, w: World, v: World, rid: nat)
    requires Inv(rules, w) && rid in v.readers && ReaderSound(rules, v, rid)
    requires v == w.(readers := w.readers[rid := v.readers[rid]])
    ensures Inv(rules, v)
  {
    forall q ensures PublisherSound(rules, v, q) {
      if q in w.publishers { PublisherFrame(rules, w, v, q); }
    }
    AccountedFrame(rules, w, v);
    SamePointer(w, v);
    forall r ensures ReaderSound(rules, v, r) {
      if r != rid { OtherReader(rules, w, v, rid, r); }
    }
  }

  lemma SamePointer(w: World, v: World)
    requires PointerSound(w) && v.publishers == w.publishers && v.latest == w.latest
    ensures PointerSound(v)
  {
    if v.latest.Some? {
      var q :| Pointer(w, q, w.latest.value);
      assert Pointer(v, q, v.latest.value);
    }
  }

  lemma OtherReader(rules: Rules, w: World, v: World, rid: nat, r: nat)
    requires ReaderSound(rules, w, r) && r != rid && rid in v.readers
    requires v == w.(readers := w.readers[rid := v.readers[rid]])
    ensures ReaderSound(rules, v, r)
  {
  }

  lemma ReaderActionKeeps(rules: Rules, w: World, a: Action)
    requires Inv(rules, w) && Enabled(rules, w, a) && IsReaderAction(a)
    ensures Inv(rules, Apply(rules, w, a))
  {
    assert ReaderSound(rules, w, a.rid);
    ReaderProgress(rules, w, a);
    ReaderMoves(rules, w, Apply(rules, w, a), a.rid);
  }

  // ----- every step, every run -----

  lemma StepKeeps(rules: Rules, w: World, a: Action)
    requires Inv(rules, w) && Enabled(rules, w, a)
    ensures Inv(rules, Apply(rules, w, a))
  {
    if IsReaderAction(a) {
      ReaderActionKeeps(rules, w, a);
    } else {
      match a
      case Begin(_) => AdvanceKeeps(rules, w, a);
      case CompleteFailed(_, _) => AdvanceKeeps(rules, w, a);
      case Enter(_, _, _, _, _, _) => EnterKeeps(rules, w, a);
      case TakeLock(pid) => TakeLockKeeps(rules, w, pid);
      case Place(pid) => PlaceKeeps(rules, w, pid);
      case Switch(pid) => SwitchKeeps(rules, w, pid);
      case Finalize(pid, reply) =>
        match reply {
          case Accepted => FinalizeKeeps(rules, w, pid, true);
          case Lost => FinalizeKeeps(rules, w, pid, false);
          case Refused => MoveOn(rules, w, pid, Doubtful);
        }
      case SeeCurrent(pid) =>
        SeeCurrentKeeps(rules, w, pid, if At(w, pid, Doubtful) then DoubtfulSeen else ConfirmedSeen);
      case SeeAnchor(pid) =>
        if At(w, pid, DoubtfulSeen) { ReconcileKeeps(rules, w, pid); } else { ReturnKeeps(rules, w, pid); }
      case Raise(pid) => LeaveKeeps(rules, w, pid);
      case Crash(pid) => OutKeeps(rules, w, pid, Crashed);
      case Verify(pid) => MoveOn(rules, w, pid, Verified);
      case Reverify(pid) => MoveOn(rules, w, pid, Reverified);
      case Point(pid) => MoveOn(rules, w, pid, Pointed);
      case _ => assert false;
    }
  }

  lemma {:induction false} RunKeeps(rules: Rules, actions: seq<Action>)
    requires Possible(rules, actions)
    ensures Inv(rules, After(rules, actions))
    decreases |actions|
  {
    if actions != [] {
      RunKeeps(rules, actions[..|actions| - 1]);
      StepKeeps(rules, After(rules, actions[..|actions| - 1]), actions[|actions| - 1]);
    }
  }
}
