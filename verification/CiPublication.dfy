/** Publication of CI generations (ci_runner.py, ci_contract.py) as a transition system: an authority, one
    evidence directory, publishers that take a lock, and readers that do not. Every action is one atomic
    step; a run is any sequence of enabled actions, so every interleaving is covered. */
module CiPublication {

  datatype Option<+T> = None | Some(value: T)

  type Bytes = seq<bv8>

  datatype Phase = Active | Success | Failed

  /** The authority's account of one CI invocation. */
  datatype CiRun = CiRun(
    runId: string, attemptId: string, context: string, source: string, startedAt: string,
    finishedAt: Option<string>, phase: Phase, generation: Option<string>)

  datatype Record = Record(job: string, outputSha: string, facts: string)

  datatype Manifest = Manifest(
    runId: string, attemptId: string, context: string, source: string, startedAt: string,
    finishedAt: Option<string>, records: seq<Record>)

  /** One generation directory: its manifest and one log per job. */
  datatype Generation = Generation(manifest: Manifest, logs: map<string, Bytes>)

  /** The canonical manifest encoder, SHA-256, and every catalog, attestation and evidence check that both
      sides make on the same records and outputs. All three are arbitrary. */
  datatype Rules = Rules(encode: Manifest -> Bytes, sha: Bytes -> string,
                         authentic: (Manifest, map<string, Bytes>) -> bool)

  const MAX_EVIDENCE_FILE_BYTES: nat := 8 * 1024 * 1024
  const MAX_EVIDENCE_AGGREGATE_BYTES: nat := 32 * 1024 * 1024

  datatype Finalized = Finalized(run: CiRun, digest: string)

  /** `log[c]` is every value the current run of context `c` ever took; the last is current. */
  datatype Authority = Authority(
    log: map<string, seq<CiRun>>, anchors: map<(string, string), string>, finals: set<Finalized>)

  function LogOf(a: Authority, context: string): seq<CiRun> {
    if context in a.log then a.log[context] else []
  }

  function Current(a: Authority, context: string): Option<CiRun> {
    var log := LogOf(a, context);
    if log == [] then None else Some(log[|log| - 1])
  }

  function Advance(a: Authority, run: CiRun): Authority {
    a.(log := a.log[run.context := LogOf(a, run.context) + [run]])
  }

  datatype Stage =
    | Locked | Verified | Placed | Reverified | Pointed | Switched | Doubtful | DoubtfulSeen | Confirmed | ConfirmedSeen

  /** Where a publish call is: waiting for the lock, inside it, or gone. */
  datatype Pc = Entered | Inside(stage: Stage) | Returned | Raised | RaisedConfirmed | Crashed

  /** One publish call. `placed`, `switched` and `finalized` are its own flags: its rename, its pointer switch
      and the confirmation of its finalization took effect. `committed` says what the authority did. */
  datatype Publisher = Publisher(
    run: CiRun, finishedAt: string, published: CiRun, name: string, content: Generation, pc: Pc, placed: bool,
    switched: bool, finalized: bool, committed: bool)

  datatype Rpc = Resolved | Named | Read | Anchored | Rechecked | Loaded | Renamed | Done

  /** A load under way: the run it resolved, how long the log then was, and what it has read so far. */
  datatype Reader = Reader(
    context: string, source: string, run: CiRun, mark: nat, name: Option<string>, manifest: Option<Manifest>,
    anchored: bool, logs: Option<map<string, Bytes>>, pc: Rpc)

  datatype World = World(
    authority: Authority,
    latest: Option<string>,
    generations: map<string, Generation>,
    lock: Option<nat>,
    publishers: map<nat, Publisher>,
    readers: map<nat, Reader>)

  // ----- what publishers and readers check -----

  function Published(run: CiRun, name: string, finishedAt: string): CiRun {
    run.(finishedAt := Some(finishedAt), phase := Success, generation := Some(name))
  }

  function ManifestOf(run: CiRun, records: seq<Record>): Manifest {
    Manifest(run.runId, run.attemptId, run.context, run.source, run.startedAt, run.finishedAt, records)
  }

  predicate Describes(m: Manifest, run: CiRun) { m == ManifestOf(run, m.records) }

  function Jobs(records: seq<Record>): set<string> { set r | r in records :: r.job }

  function TotalSize(records: seq<Record>, logs: map<string, Bytes>): nat {
    if records == [] then 0
    else (if records[0].job in logs then |logs[records[0].job]| else 0) + TotalSize(records[1..], logs)
  }

  /** The exact log set, each within its limit and matching its record, and their total within its limit. */
  predicate LogsMatch(rules: Rules, records: seq<Record>, logs: map<string, Bytes>) {
    && logs.Keys == Jobs(records)
    && (forall r :: r in records ==> r.job in logs && rules.sha(logs[r.job]) == r.outputSha
                                     && |logs[r.job]| <= MAX_EVIDENCE_FILE_BYTES)
    && TotalSize(records, logs) <= MAX_EVIDENCE_AGGREGATE_BYTES
  }

  predicate Authentic(rules: Rules, g: Generation) {
    LogsMatch(rules, g.manifest.records, g.logs) && rules.authentic(g.manifest, g.logs)
  }

  function Digest(rules: Rules, m: Manifest): string { rules.sha(rules.encode(m)) }

  predicate Anchors(rules: Rules, a: Authority, context: string, name: string, m: Manifest) {
    (context, name) in a.anchors && a.anchors[(context, name)] == Digest(rules, m)
  }

  // ----- the actions -----

  datatype Reply = Accepted | Lost | Refused

  datatype Action =
    | Begin(run: CiRun)
    | CompleteFailed(run: CiRun, finishedAt: string)
    | Enter(pid: nat, run: CiRun, name: string, finishedAt: string, records: seq<Record>, outputs: map<string, Bytes>)
    | TakeLock(pid: nat)
    | Verify(pid: nat)
    | Place(pid: nat)
    | Reverify(pid: nat)
    | Point(pid: nat)
    | Switch(pid: nat)
    | Finalize(pid: nat, reply: Reply)
    | SeeCurrent(pid: nat)
    | SeeAnchor(pid: nat)
    | Raise(pid: nat)
    | Crash(pid: nat)
    | Resolve(rid: nat, context: string, source: string)
    | ReadName(rid: nat)
    | ReadManifest(rid: nat)
    | CheckAnchor(rid: nat)
    | CheckCurrent(rid: nat)
    | ReadLogs(rid: nat)
    | ReadNameAgain(rid: nat)
    | Close(rid: nat)

  predicate At(w: World, pid: nat, stage: Stage) { pid in w.publishers && w.publishers[pid].pc == Inside(stage) }

  predicate RAt(w: World, rid: nat, pc: Rpc) { rid in w.readers && w.readers[rid].pc == pc }

  /** The generation this reader was pointed to is there to open. */
  predicate Opened(w: World, rid: nat) {
    rid in w.readers && w.readers[rid].name.Some? && w.readers[rid].name.value in w.generations
  }

  /** The run a publisher acts for is still this context's current, active run. */
  predicate StillActive(w: World, pid: nat)
    requires pid in w.publishers
  {
    var p := w.publishers[pid];
    Current(w.authority, p.run.context) == Some(p.run) && p.run.phase == Active
  }

  /** Run identifiers are fresh: none was ever begun before, in any context. */
  predicate FreshRun(a: Authority, run: CiRun) {
    forall c, n :: c in a.log && 0 <= n < |a.log[c]| ==> a.log[c][n].runId != run.runId
  }

  predicate IsReaderAction(a: Action) {
    a.Resolve? || a.ReadName? || a.ReadManifest? || a.CheckAnchor? || a.CheckCurrent? || a.ReadLogs?
    || a.ReadNameAgain? || a.Close?
  }

  /** When a load may take its next step; the checks are the ones it makes at that point. */
  predicate ReaderEnabled(rules: Rules, w: World, a: Action)
    requires IsReaderAction(a)
  {
    match a
    case Resolve(rid, context, source) =>
      rid !in w.readers && Current(w.authority, context).Some?
      && var run := Current(w.authority, context).value;
         run.phase == Success && run.source == source && run.context == context && run.generation.Some?
    case ReadName(rid) =>
      RAt(w, rid, Resolved) && w.latest.Some? && w.latest == w.readers[rid].run.generation
    case ReadManifest(rid) =>
      RAt(w, rid, Named) && Opened(w, rid)
      && var m := w.generations[w.readers[rid].name.value].manifest;
         Describes(m, w.readers[rid].run) && |rules.encode(m)| <= MAX_EVIDENCE_FILE_BYTES
    case CheckAnchor(rid) =>
      RAt(w, rid, Read) && w.readers[rid].manifest.Some? && w.readers[rid].name.Some?
      && var r := w.readers[rid]; Anchors(rules, w.authority, r.context, r.name.value, r.manifest.value)
    case CheckCurrent(rid) =>
      RAt(w, rid, Anchored) && Current(w.authority, w.readers[rid].context) == Some(w.readers[rid].run)
    case ReadLogs(rid) =>
      RAt(w, rid, Rechecked) && Opened(w, rid) && w.readers[rid].manifest.Some?
      && Authentic(rules, Generation(w.readers[rid].manifest.value, w.generations[w.readers[rid].name.value].logs))
    case ReadNameAgain(rid) =>
      RAt(w, rid, Loaded) && w.readers[rid].name.Some? && w.latest == w.readers[rid].name
    case Close(rid) =>
      RAt(w, rid, Renamed) && Current(w.authority, w.readers[rid].context) == Some(w.readers[rid].run)
  }

  /** When the authority or a publish call may take its next step. */
  predicate WriterEnabled(rules: Rules, w: World, a: Action)
    requires !IsReaderAction(a)
  {
    match a
    case Begin(run) => run.phase == Active && run.finishedAt.None? && run.generation.None? && FreshRun(w.authority, run)
    case CompleteFailed(run, _) => run.phase == Active && Current(w.authority, run.context) == Some(run)
    case Enter(pid, run, name, finishedAt, records, outputs) => pid !in w.publishers
    case TakeLock(pid) => pid in w.publishers && w.publishers[pid].pc == Entered && w.lock.None?
    case Verify(pid) => At(w, pid, Locked) && StillActive(w, pid) && Authentic(rules, w.publishers[pid].content)
    case Place(pid) => At(w, pid, Verified) && StillActive(w, pid) && w.publishers[pid].name !in w.generations
    case Reverify(pid) => At(w, pid, Placed) && StillActive(w, pid)
    case Point(pid) => At(w, pid, Reverified)
    case Switch(pid) => At(w, pid, Pointed)
    case Finalize(pid, reply) => At(w, pid, Switched) && (reply.Refused? || StillActive(w, pid))
    case SeeCurrent(pid) =>
      (At(w, pid, Doubtful) || At(w, pid, Confirmed))
      && var p := w.publishers[pid]; Current(w.authority, p.run.context) == Some(p.published)
    case SeeAnchor(pid) =>
      (At(w, pid, DoubtfulSeen) || At(w, pid, ConfirmedSeen))
      && var p := w.publishers[pid];
         Anchors(rules, w.authority, p.run.context, p.name, p.content.manifest) && w.latest == Some(p.name)
    case Raise(pid) => pid in w.publishers && w.publishers[pid].pc.Inside?
    case Crash(pid) => pid in w.publishers && w.publishers[pid].pc.Inside?
  }

  predicate Enabled(rules: Rules, w: World, a: Action) {
    if IsReaderAction(a) then ReaderEnabled(rules, w, a) else WriterEnabled(rules, w, a)
  }

  function Put(w: World, pid: nat, p: Publisher): World { w.(publishers := w.publishers[pid := p]) }

  /** The same publisher at its next stage. */
  function Next(w: World, pid: nat, stage: Stage): World
    requires pid in w.publishers
  {
    Put(w, pid, w.publishers[pid].(pc := Inside(stage)))
  }

  /** The same publisher out of the lock. */
  function Out(w: World, pid: nat, pc: Pc): World
    requires pid in w.publishers
  {
    Put(w, pid, w.publishers[pid].(pc := pc)).(lock := None)
  }

  function RMove(w: World, rid: nat, r: Reader): World { w.(readers := w.readers[rid := r]) }

  function Confirm(w: World, pid: nat): World
    requires pid in w.publishers
  {
    Put(w, pid, w.publishers[pid].(pc := Inside(Confirmed), finalized := true))
  }

  /** finalize_attested_generation: complete the active run and bind its manifest, atomically. */
  function Commit(rules: Rules, w: World, pid: nat): World
    requires pid in w.publishers
  {
    var p := w.publishers[pid];
    var a := Advance(w.authority, p.published);
    var digest := Digest(rules, p.content.manifest);
    w.(authority := a.(anchors := a.anchors[(p.run.context, p.name) := digest],
                       finals := a.finals + {Finalized(p.published, digest)}),
       publishers := w.publishers[pid := p.(committed := true)])
  }

  /** Leave by an error: before confirmation, take back the pointer if it still names this generation. */
  function Leave(w: World, pid: nat): World
    requires pid in w.publishers
  {
    var p := w.publishers[pid];
    if p.finalized then Out(w, pid, RaisedConfirmed)
    else Out(w, pid, Raised).(latest := if p.switched && w.latest == Some(p.name) then None else w.latest)
  }

  /** What one step makes of the reader that takes it. */
  function ReaderNext(rules: Rules, w: World, a: Action): Reader
    requires IsReaderAction(a) && ReaderEnabled(rules, w, a)
  {
    match a
    case Resolve(rid, context, source) =>
      Reader(context, source, Current(w.authority, context).value, |LogOf(w.authority, context)|, None, None, false,
             None, Resolved)
    case ReadName(rid) => w.readers[rid].(name := w.latest, pc := Named)
    case ReadManifest(rid) =>
      w.readers[rid].(manifest := Some(w.generations[w.readers[rid].name.value].manifest), pc := Read)
    case CheckAnchor(rid) => w.readers[rid].(anchored := true, pc := Anchored)
    case CheckCurrent(rid) => w.readers[rid].(pc := Rechecked)
    case ReadLogs(rid) =>
      w.readers[rid].(logs := Some(w.generations[w.readers[rid].name.value].logs), pc := Loaded)
    case ReadNameAgain(rid) => w.readers[rid].(pc := Renamed)
    case Close(rid) => w.readers[rid].(pc := Done)
  }

  function Apply(rules: Rules, w: World, a: Action): (v: World)
    requires Enabled(rules, w, a)
    ensures !IsReaderAction(a) ==> v.readers == w.readers
    ensures IsReaderAction(a) ==>
              a.rid in v.readers && v == w.(readers := w.readers[a.rid := v.readers[a.rid]])
  {
    if IsReaderAction(a) then RMove(w, a.rid, ReaderNext(rules, w, a)) else WriterNext(rules, w, a)
  }

  /** What one step of the authority or of a publish call makes of the world. */
  function WriterNext(rules: Rules, w: World, a: Action): (v: World)
    requires !IsReaderAction(a) && WriterEnabled(rules, w, a)
    ensures v.readers == w.readers
  {
    match a
    case Begin(run) => w.(authority := Advance(w.authority, run))
    case CompleteFailed(run, finishedAt) =>
      w.(authority := Advance(w.authority, run.(finishedAt := Some(finishedAt), phase := Failed)))
    case Enter(pid, run, name, finishedAt, records, outputs) =>
      var published := Published(run, name, finishedAt);
      w.(publishers := w.publishers[pid :=
        Publisher(run, finishedAt, published, name, Generation(ManifestOf(published, records), outputs), Entered,
                  false, false, false, false)])
    case TakeLock(pid) => Next(w, pid, Locked).(lock := Some(pid))
    case Verify(pid) => Next(w, pid, Verified)
    case Place(pid) =>
      var p := w.publishers[pid];
      Put(w, pid, p.(pc := Inside(Placed), placed := true)).(generations := w.generations[p.name := p.content])
    case Reverify(pid) => Next(w, pid, Reverified)
    case Point(pid) => Next(w, pid, Pointed)
    case Switch(pid) =>
      var p := w.publishers[pid];
      Put(w, pid, p.(pc := Inside(Switched), switched := true)).(latest := Some(p.name))
    case Finalize(pid, reply) =>
      match reply {
        case Accepted => Confirm(Commit(rules, w, pid), pid)
        case Lost => Next(Commit(rules, w, pid), pid, Doubtful)
        case Refused => Next(w, pid, Doubtful)
      }
    case SeeCurrent(pid) => Next(w, pid, if At(w, pid, Doubtful) then DoubtfulSeen else ConfirmedSeen)
    case SeeAnchor(pid) =>
      if At(w, pid, DoubtfulSeen) then Confirm(w, pid) else Out(w, pid, Returned)
    case Raise(pid) => Leave(w, pid)
    case Crash(pid) => Out(w, pid, Crashed)
  }

  const START: World := World(Authority(map[], map[], {}), None, map[], None, map[], map[])

  /** Every action of the sequence was enabled when it was taken. */
  ghost predicate Possible(rules: Rules, actions: seq<Action>)
    decreases |actions|, 0
  {
    actions == [] ||
    (Possible(rules, actions[..|actions| - 1])
     && Enabled(rules, After(rules, actions[..|actions| - 1]), actions[|actions| - 1]))
  }

  ghost function After(rules: Rules, actions: seq<Action>): World
    requires Possible(rules, actions)
    decreases |actions|, 1
  {
    if actions == [] then START
    else Apply(rules, After(rules, actions[..|actions| - 1]), actions[|actions| - 1])
  }
}
