/** What a load proves of what it returns, whatever happens to the directory, and where a superseded publish call stops
    (ci_contract.py:1256-1377; ci_runner.py:952-1040). */
module CiDirectory {
  import opened CiPublication
  import opened CiSafety
  import opened CiTheorems

  // ----- a load in a directory that anyone may change -----

  /** The eight worlds in which a load took its eight steps. Between two of them anything at all may have happened, to the
      directory, to `latest` and at the authority, except to what the load itself holds. */
  ghost predicate Took(rules: Rules, ws: seq<World>, rid: nat, context: string, source: string) {
    |ws| == 8 && forall k: nat :: k < 8 ==> TookStep(rules, ws, LoadSteps(rid, context, source), k)
  }

  /** Step `k` was taken in its world, and the load holds in the next one what that step gave it. */
  ghost predicate TookStep(rules: Rules, ws: seq<World>, steps: seq<Action>, k: nat) {
    && k < |ws| == |steps| && IsReaderAction(steps[k]) && ReaderEnabled(rules, ws[k], steps[k])
    && (k + 1 < |ws| ==>
          steps[k].rid in ws[k + 1].readers && ws[k + 1].readers[steps[k].rid] == ReaderNext(rules, ws[k], steps[k]))
  }

  /** What the load returns. */
  ghost function Returns(rules: Rules, ws: seq<World>, rid: nat, context: string, source: string): Reader
    requires Took(rules, ws, rid, context, source)
  {
    StepsTaken(rules, ws, rid, context, source);
    ReaderNext(rules, ws[7], Close(rid))
  }

  /** Whatever happened between its steps, what a load returns is: the manifest that stood under the name `latest` gave
      at both looks, which describes the run that was current at the first step, when it was read, and at the last, was
      within the read limit and had its digest anchored for that run and name; and the logs of that name, which are
      exactly those of the manifest's records, each with its digest and within its limit, and pass every shared check. */
  lemma LoadProvesItsResult(rules: Rules, ws: seq<World>, rid: nat, context: string, source: string)
    requires Took(rules, ws, rid, context, source)
    ensures
      var r := Returns(rules, ws, rid, context, source);
      && Current(ws[0].authority, context) == Some(r.run)
      && Current(ws[4].authority, context) == Some(r.run) && Current(ws[7].authority, context) == Some(r.run)
      && r.run.phase == Success && r.run.context == context && r.run.source == source && r.pc == Done
      && r.name.Some? && r.run.generation == r.name && ws[1].latest == r.name && ws[6].latest == r.name
      && r.manifest.Some? && r.logs.Some?
      && r.name.value in ws[2].generations && ws[2].generations[r.name.value].manifest == r.manifest.value
      && r.name.value in ws[5].generations && ws[5].generations[r.name.value].logs == r.logs.value
      && r.manifest.value == ManifestOf(r.run, r.manifest.value.records)
      && |rules.encode(r.manifest.value)| <= 8 * 1024 * 1024
      && (context, r.name.value) in ws[3].authority.anchors
      && ws[3].authority.anchors[(context, r.name.value)] == rules.sha(rules.encode(r.manifest.value))
      && LogsAre(rules, r.manifest.value.records, r.logs.value) && rules.authentic(r.manifest.value, r.logs.value)
  {
    hide Authentic, Took;
    StepsTaken(rules, ws, rid, context, source);
    FirstFour(rules, ws, rid, context, source);
    LastFour(rules, ws, rid, context, source);
    var r := ReaderNext(rules, ws[7], Close(rid));
    AuthenticIs(rules, Generation(r.manifest.value, r.logs.value));
  }

  /** One log for each job, each with the digest its record states and within 8 MiB, and all together within 32 MiB. */
  ghost predicate LogsAre(rules: Rules, records: seq<Record>, logs: map<string, Bytes>) {
    && (forall job :: job in logs <==> exists i :: 0 <= i < |records| && records[i].job == job)
    && (forall i :: 0 <= i < |records| && records[i].job in logs ==>
          rules.sha(logs[records[i].job]) == records[i].outputSha && |logs[records[i].job]| <= 8 * 1024 * 1024)
    && TotalSize(records, logs) <= 32 * 1024 * 1024
  }

  lemma AuthenticIs(rules: Rules, g: Generation)
    requires Authentic(rules, g)
    ensures LogsAre(rules, g.manifest.records, g.logs) && rules.authentic(g.manifest, g.logs)
  {
    hide TotalSize;
    var records := g.manifest.records;
    forall job ensures job in g.logs <==> exists i :: 0 <= i < |records| && records[i].job == job {
      assert job in g.logs <==> job in Jobs(records);
      if job in Jobs(records) {
        var x :| x in records && x.job == job;
        var i :| 0 <= i < |records| && records[i] == x;
      }
    }
  }

  lemma StepsTaken(rules: Rules, ws: seq<World>, rid: nat, context: string, source: string)
    requires Took(rules, ws, rid, context, source)
    ensures |ws| == 8
    ensures ReaderEnabled(rules, ws[0], Resolve(rid, context, source)) && ReaderEnabled(rules, ws[1], ReadName(rid))
    ensures ReaderEnabled(rules, ws[2], ReadManifest(rid)) && ReaderEnabled(rules, ws[3], CheckAnchor(rid))
    ensures ReaderEnabled(rules, ws[4], CheckCurrent(rid)) && ReaderEnabled(rules, ws[5], ReadLogs(rid))
    ensures ReaderEnabled(rules, ws[6], ReadNameAgain(rid)) && ReaderEnabled(rules, ws[7], Close(rid))
    ensures rid in ws[1].readers && rid in ws[2].readers && rid in ws[3].readers && rid in ws[4].readers
    ensures rid in ws[5].readers && rid in ws[6].readers && rid in ws[7].readers
    ensures ws[1].readers[rid] == ReaderNext(rules, ws[0], Resolve(rid, context, source))
    ensures ws[2].readers[rid] == ReaderNext(rules, ws[1], ReadName(rid))
    ensures ws[3].readers[rid] == ReaderNext(rules, ws[2], ReadManifest(rid))
    ensures ws[4].readers[rid] == ReaderNext(rules, ws[3], CheckAnchor(rid))
    ensures ws[5].readers[rid] == ReaderNext(rules, ws[4], CheckCurrent(rid))
    ensures ws[6].readers[rid] == ReaderNext(rules, ws[5], ReadLogs(rid))
    ensures ws[7].readers[rid] == ReaderNext(rules, ws[6], ReadNameAgain(rid))
  {
    hide ReaderEnabled, ReaderNext;
    var steps := LoadSteps(rid, context, source);
    assert TookStep(rules, ws, steps, 0) && TookStep(rules, ws, steps, 1) && TookStep(rules, ws, steps, 2);
    assert TookStep(rules, ws, steps, 3) && TookStep(rules, ws, steps, 4) && TookStep(rules, ws, steps, 5);
    assert TookStep(rules, ws, steps, 6) && TookStep(rules, ws, steps, 7);
  }

  lemma FirstFour(rules: Rules, ws: seq<World>, rid: nat, context: string, source: string)
    requires Took(rules, ws, rid, context, source)
    ensures |ws| == 8 && rid in ws[4].readers
    ensures
      var r := ws[4].readers[rid];
      && Current(ws[0].authority, context) == Some(r.run) && r.context == context && r.source == source
      && r.run.phase == Success && r.run.context == context && r.run.source == source
      && r.name.Some? && r.run.generation == r.name && ws[1].latest == r.name && r.manifest.Some?
      && r.name.value in ws[2].generations && ws[2].generations[r.name.value].manifest == r.manifest.value
      && Describes(r.manifest.value, r.run) && |rules.encode(r.manifest.value)| <= MAX_EVIDENCE_FILE_BYTES
      && Anchors(rules, ws[3].authority, context, r.name.value, r.manifest.value)
  {
    hide Took, Authentic, Anchors, Describes;
    StepsTaken(rules, ws, rid, context, source);
  }

  lemma LastFour(rules: Rules, ws: seq<World>, rid: nat, context: string, source: string)
    requires Took(rules, ws, rid, context, source) && |ws| == 8 && rid in ws[4].readers
    requires ws[4].readers[rid].context == context && ws[4].readers[rid].name.Some?
    requires ws[4].readers[rid].manifest.Some?
    ensures ReaderEnabled(rules, ws[7], Close(rid))
    ensures
      var q, r := ws[4].readers[rid], ReaderNext(rules, ws[7], Close(rid));
      && r.run == q.run && r.name == q.name && r.manifest == q.manifest && r.context == context && r.pc == Done
      && Current(ws[4].authority, context) == Some(r.run) && Current(ws[7].authority, context) == Some(r.run)
      && ws[6].latest == r.name && r.logs.Some?
      && r.name.value in ws[5].generations && ws[5].generations[r.name.value].logs == r.logs.value
      && Authentic(rules, Generation(r.manifest.value, r.logs.value))
  {
    hide Took, Authentic, Anchors, Describes;
    StepsTaken(rules, ws, rid, context, source);
  }

  /** The same for a publish call: whatever happened between the two closing looks, when it returns its published run was
      current at the first, and at the second its manifest's digest was anchored and `latest` named its generation. */
  lemma ReturnProvesItself(rules: Rules, first: World, last: World, pid: nat)
    requires Enabled(rules, first, SeeCurrent(pid)) && At(first, pid, Confirmed)
    requires pid in last.publishers && last.publishers[pid] == Apply(rules, first, SeeCurrent(pid)).publishers[pid]
    requires Enabled(rules, last, SeeAnchor(pid))
    ensures
      var p := first.publishers[pid];
      && Current(first.authority, p.run.context) == Some(p.published)
      && (p.run.context, p.name) in last.authority.anchors
      && last.authority.anchors[(p.run.context, p.name)] == rules.sha(rules.encode(p.content.manifest))
      && last.latest == Some(p.name)
      && Apply(rules, last, SeeAnchor(pid)).publishers[pid] == p.(pc := Returned)
      && Apply(rules, last, SeeAnchor(pid)).lock.None?
  {
    hide Current;
  }

  // ----- a publish call that was overtaken -----

  /** The run of this publish call was begun, and is no longer its context's current run. */
  predicate Overtaken(w: World, pid: nat) {
    && pid in w.publishers
    && w.publishers[pid].run in LogOf(w.authority, w.publishers[pid].run.context)
    && Current(w.authority, w.publishers[pid].run.context) != Some(w.publishers[pid].run)
  }

  /** A publish call that has not yet looked for the last time before the pointer. */
  predicate BeforePointer(pc: Pc) {
    pc == Entered || pc == Inside(Locked) || pc == Inside(Verified) || pc == Inside(Placed)
  }

  /** It is still where it was, waits inside the lock for the look that will fail, or is gone; and has renamed nothing
      that it had not renamed, and switched nothing. */
  predicate WentNowhere(p: Publisher, q: Publisher) {
    && q.run == p.run && q.placed == p.placed && q.switched == p.switched
    && (q.pc == p.pc || (p.pc == Entered && q.pc == Inside(Locked)) || q.pc == Raised || q.pc == Crashed)
  }

  /** Once overtaken, always: no value of a context's current run ever comes back. */
  lemma OvertakenStays(rules: Rules, actions: seq<Action>, i: nat, j: nat, run: CiRun)
    requires Possible(rules, actions) && i <= j <= |actions|
    requires run in LogOf(Moment(rules, actions, i).authority, run.context)
    requires Current(Moment(rules, actions, i).authority, run.context) != Some(run)
    ensures Current(Moment(rules, actions, j).authority, run.context) != Some(run)
  {
    hide Moment, LogSound;
    LogGrows(rules, actions, i, j, run.context);
    MomentLog(rules, actions, j);
    NeverBack(Moment(rules, actions, i).authority, Moment(rules, actions, j).authority, run);
  }

  lemma NeverBack(a: Authority, b: Authority, run: CiRun)
    requires LogSound(b.log) && LogOf(a, run.context) <= LogOf(b, run.context)
    requires run in LogOf(a, run.context) && Current(a, run.context) != Some(run)
    ensures Current(b, run.context) != Some(run)
  {
    var log := LogOf(a, run.context);
    var n :| 0 <= n < |log| && log[n] == run;
    if Current(b, run.context) == Some(run) {
      hide LogSound;
      NoReturn(b, run.context, log[..n + 1], run);
    }
  }

  lemma StepsNowhere(rules: Rules, w: World, a: Action, pid: nat)
    requires Enabled(rules, w, a) && pid in w.publishers && BeforePointer(w.publishers[pid].pc)
    requires Consistent(w.publishers[pid]) && !StillActive(w, pid)
    ensures pid in Apply(rules, w, a).publishers && WentNowhere(w.publishers[pid], Apply(rules, w, a).publishers[pid])
  {
    hide Authentic, Anchors, Current, LogsMatch, Describes;
    if IsReaderAction(a) {
      assert Apply(rules, w, a).publishers == w.publishers;
    }
  }

  lemma GoneStays(rules: Rules, w: World, a: Action, pid: nat)
    requires Enabled(rules, w, a) && pid in w.publishers
    requires w.publishers[pid].pc == Raised || w.publishers[pid].pc == Crashed
    ensures pid in Apply(rules, w, a).publishers && Apply(rules, w, a).publishers[pid] == w.publishers[pid]
  {
    hide Authentic, Anchors, Current;
  }

  /** A publish call whose run is overtaken before its last look gets no further: at every later moment it has renamed no
      generation that it had not renamed, and it never moves the pointer. */
  lemma {:induction false} OvertakenGoesNowhere(rules: Rules, actions: seq<Action>, i: nat, j: nat, pid: nat)
    requires Possible(rules, actions) && i <= j <= |actions|
    requires Overtaken(Moment(rules, actions, i), pid)
    requires BeforePointer(Moment(rules, actions, i).publishers[pid].pc)
    ensures pid in Moment(rules, actions, j).publishers
    ensures WentNowhere(Moment(rules, actions, i).publishers[pid], Moment(rules, actions, j).publishers[pid])
    decreases j - i
  {
    hide Enabled, Apply, Inv, Moment, Consistent;
    if i < j {
      OvertakenGoesNowhere(rules, actions, i, j - 1, pid);
      var w, run := Moment(rules, actions, j - 1), Moment(rules, actions, i).publishers[pid].run;
      MomentStep(rules, actions, j - 1);
      OvertakenStays(rules, actions, i, j - 1, run);
      MomentPublisher(rules, actions, j - 1, pid);
      if w.publishers[pid].pc == Raised || w.publishers[pid].pc == Crashed {
        GoneStays(rules, w, actions[j - 1], pid);
      } else {
        StepsNowhere(rules, w, actions[j - 1], pid);
      }
    }
  }

  lemma MomentPublisher(rules: Rules, actions: seq<Action>, k: nat, pid: nat)
    requires Possible(rules, actions) && k <= |actions| && pid in Moment(rules, actions, k).publishers
    ensures Consistent(Moment(rules, actions, k).publishers[pid])
  {
    MomentKeeps(rules, actions, k);
    assert PublisherSound(rules, Moment(rules, actions, k), pid);
  }
}
