/** Concurrent turn requests on Runs: the striped locks, the pinned selection and the store's own check
    (api.py:540-551, 2248-2361; store.py:2933-3012). */
module TurnPinning {

  datatype Option<+T> = None | Some(value: T)

  type RunId = int

  type Model = string

  type Provider = string

  datatype Selection = Selection(provider: Provider, model: Model)

  datatype Request = Request(run: RunId, model: Model)

  datatype Outcome =
    | NotFound | Malformed | SelectionLocked | Unavailable | CallFailed | WrongModel
    | Discarded(reported: Provider)
    | Recorded

  /** Where one request is. From Holding to Answered it holds its Run's lock. */
  datatype Stage =
    | Arrived | Waiting | Holding | Selected | Calling
    | Answered(reported: Provider)
    | Done(outcome: Outcome)

  /** `parse` is the provider a model's name names, if it is well formed; `stripe` is the lock of a Run. */
  datatype Setup = Setup(parse: Model -> Option<Provider>, stripe: RunId -> nat, requests: seq<Request>)

  /** `calls` lists the requests that contacted a provider, in order. */
  datatype World = World(stages: seq<Stage>, holder: map<nat, nat>, turns: map<RunId, seq<Selection>>, calls: seq<nat>)

  datatype Input =
    | Found(present: bool)
    | Acquire
    | Check
    | Gate(available: bool)
    | Answer(reported: Option<Selection>)
    | Store

  function Turns(w: World, r: RunId): seq<Selection> { if r in w.turns then w.turns[r] else [] }

  function Lock(e: Setup, t: nat): nat
    requires t < |e.requests|
  {
    e.stripe(e.requests[t].run)
  }

  predicate Critical(s: Stage) { s.Holding? || s.Selected? || s.Calling? || s.Answered? }

  /** The selection a request asks for. */
  function Asked(e: Setup, t: nat): Option<Selection>
    requires t < |e.requests|
  {
    match e.parse(e.requests[t].model) case None => None case Some(p) => Some(Selection(p, e.requests[t].model))
  }

  // ----- steps -----

  predicate Enabled(e: Setup, w: World, t: nat, i: Input) {
    && t < |e.requests| && |w.stages| == |e.requests|
    && match w.stages[t]
       case Arrived => i.Found?
       case Waiting => i.Acquire? && Lock(e, t) !in w.holder
       case Holding => i.Check?
       case Selected => i.Gate?
       case Calling => i.Answer?
       case Answered(_) => i.Store?
       case Done(_) => false
  }

  function To(w: World, t: nat, s: Stage): World
    requires t < |w.stages|
  {
    w.(stages := w.stages[t := s])
  }

  /** Leaving the guarded region, however it ends, releases the lock. */
  function Leave(e: Setup, w: World, t: nat, o: Outcome): World
    requires t < |w.stages| && t < |e.requests|
  {
    To(w, t, Done(o)).(holder := w.holder - {Lock(e, t)})
  }

  /** The store pins the first completed selection and refuses any other, in one transaction. */
  function StoreTurn(e: Setup, w: World, t: nat, chosen: Selection): World
    requires t < |w.stages| && t < |e.requests|
  {
    var r := e.requests[t].run;
    if Turns(w, r) != [] && Turns(w, r)[0] != chosen then Leave(e, w, t, Discarded(chosen.provider))
    else Leave(e, w, t, Recorded).(turns := w.turns[r := Turns(w, r) + [chosen]])
  }

  function Next(e: Setup, w: World, t: nat, i: Input): World
    requires Enabled(e, w, t, i)
  {
    var q := e.requests[t];
    match i
    case Found(present) =>
      if !present then To(w, t, Done(NotFound))
      else if e.parse(q.model).None? then To(w, t, Done(Malformed))
      else To(w, t, Waiting)
    case Acquire => To(w, t, Holding).(holder := w.holder[Lock(e, t) := t])
    case Check =>
      var turns := Turns(w, q.run);
      if turns != [] && Some(turns[0]) != Asked(e, t) then Leave(e, w, t, SelectionLocked) else To(w, t, Selected)
    case Gate(available) => if available then To(w, t, Calling).(calls := w.calls + [t])
        else Leave(e, w, t, Unavailable)
    case Answer(reported) =>
      (match reported
       case None => Leave(e, w, t, CallFailed)
       case Some(s) => if s.model != q.model then Leave(e, w, t, WrongModel) else To(w, t, Answered(s.provider)))
    case Store => StoreTurn(e, w, t, Selection(w.stages[t].reported, q.model))
  }

  function Start(e: Setup, turns: map<RunId, seq<Selection>>): World {
    World(seq(|e.requests|, _ => Arrived), map[], turns, [])
  }

  predicate Possible(e: Setup, w: World, steps: seq<(nat, Input)>)
    decreases |steps|
  {
    steps == [] || (Enabled(e, w, steps[0].0, steps[0].1)
        && Possible(e, Next(e, w, steps[0].0, steps[0].1), steps[1..]))
  }

  function After(e: Setup, w: World, steps: seq<(nat, Input)>): World
    requires Possible(e, w, steps)
    decreases |steps|
  {
    if steps == [] then w else After(e, Next(e, w, steps[0].0, steps[0].1), steps[1..])
  }

  // ----- what every interleaving keeps -----

  predicate OneSelection(turns: seq<Selection>) { forall k :: 0 <= k < |turns| ==> turns[k] == turns[0] }

  predicate Pinned(turns: map<RunId, seq<Selection>>) { forall r :: r in turns ==> OneSelection(turns[r]) }

  /** A lock is held by the one request inside its region, and each request inside holds its own. */
  predicate Mutex(e: Setup, w: World)
    requires |w.stages| == |e.requests|
  {
    && (forall t :: 0 <= t < |w.stages| && Critical(w.stages[t]) ==>
        Lock(e, t) in w.holder && w.holder[Lock(e, t)] == t)
    && (forall s :: s in w.holder ==>
          w.holder[s] < |w.stages| && Critical(w.stages[w.holder[s]]) && Lock(e, w.holder[s]) == s)
  }

  /** What is known of one request at its stage. */
  predicate RequestSound(e: Setup, w: World, t: nat)
    requires t < |w.stages| == |e.requests|
  {
    var turns := Turns(w, e.requests[t].run);
    && (!w.stages[t].Arrived? && w.stages[t] != Done(NotFound) && w.stages[t] != Done(Malformed) ==> Asked(e, t).Some?)
    && (w.stages[t].Selected? || w.stages[t].Calling? || w.stages[t].Answered? ==>
          turns == [] || Some(turns[0]) == Asked(e, t))
    && (w.stages[t].Done? && w.stages[t].outcome.Discarded? ==>
          Asked(e, t).Some? && w.stages[t].outcome.reported != Asked(e, t).value.provider)
    && (t in w.calls <==> Called(w.stages[t]))
  }

  predicate Called(s: Stage) {
    || s.Calling? || s.Answered?
    || (s.Done? && (s.outcome.CallFailed? || s.outcome.WrongModel? || s.outcome.Discarded? || s.outcome.Recorded?))
  }

  predicate CallsOnce(calls: seq<nat>) { forall i, j :: 0 <= i < j < |calls| ==> calls[i] != calls[j] }

  predicate Inv(e: Setup, w: World) {
    && |w.stages| == |e.requests|
    && Mutex(e, w)
    && (forall t :: 0 <= t < |w.stages| ==> RequestSound(e, w, t))
    && Pinned(w.turns)
    && CallsOnce(w.calls)
  }

  lemma MutexKeeps(e: Setup, w: World, t: nat, i: Input)
    requires Inv(e, w) && Enabled(e, w, t, i)
    ensures Mutex(e, Next(e, w, t, i))
  {
    hide RequestSound, Pinned, CallsOnce;
  }

  /** No other request inside a region on the same Run sees its turns change. */
  lemma OtherSound(e: Setup, w: World, t: nat, i: Input, u: nat)
    requires Inv(e, w) && Enabled(e, w, t, i) && u < |w.stages| && u != t
    ensures RequestSound(e, Next(e, w, t, i), u)
  {
    hide Pinned, CallsOnce;
    var v := Next(e, w, t, i);
    assert RequestSound(e, w, u) && v.stages[u] == w.stages[u];
    if Critical(w.stages[u]) && e.requests[u].run == e.requests[t].run {
      assert !Critical(w.stages[t]);
    }
  }

  lemma OwnSound(e: Setup, w: World, t: nat, i: Input)
    requires Inv(e, w) && Enabled(e, w, t, i)
    ensures RequestSound(e, Next(e, w, t, i), t)
  {
    hide Mutex, Pinned, CallsOnce;
    assert RequestSound(e, w, t);
  }

  lemma PinnedKeeps(e: Setup, w: World, t: nat, i: Input)
    requires Inv(e, w) && Enabled(e, w, t, i)
    ensures Pinned(Next(e, w, t, i).turns) && CallsOnce(Next(e, w, t, i).calls)
  {
    hide Mutex;
    assert RequestSound(e, w, t);
    assert OneSelection(Turns(w, e.requests[t].run));
  }

  lemma StepKeeps(e: Setup, w: World, t: nat, i: Input)
    requires Inv(e, w) && Enabled(e, w, t, i)
    ensures Inv(e, Next(e, w, t, i))
  {
    MutexKeeps(e, w, t, i);
    PinnedKeeps(e, w, t, i);
    forall u | 0 <= u < |w.stages|
      ensures RequestSound(e, Next(e, w, t, i), u)
    {
      if u == t { OwnSound(e, w, t, i); } else { OtherSound(e, w, t, i, u); }
    }
  }

  lemma {:induction false} RunKeeps(e: Setup, w: World, steps: seq<(nat, Input)>)
    requires Inv(e, w) && Possible(e, w, steps)
    ensures Inv(e, After(e, w, steps))
    decreases |steps|
  {
    if steps != [] {
      StepKeeps(e, w, steps[0].0, steps[0].1);
      RunKeeps(e, Next(e, w, steps[0].0, steps[0].1), steps[1..]);
    }
  }

  lemma Reachable(e: Setup, turns: map<RunId, seq<Selection>>, steps: seq<(nat, Input)>)
    requires Pinned(turns) && Possible(e, Start(e, turns), steps)
    ensures Inv(e, After(e, Start(e, turns), steps))
  {
    RunKeeps(e, Start(e, turns), steps);
  }

  // ----- the theorems -----

  /** In every interleaving all turns of a Run carry the selection of its first, provider and model. */
  lemma TurnsNeverMix(e: Setup, turns: map<RunId, seq<Selection>>, steps: seq<(nat, Input)>, r: RunId)
    requires Pinned(turns) && Possible(e, Start(e, turns), steps)
    ensures OneSelection(Turns(After(e, Start(e, turns), steps), r))
  {
    Reachable(e, turns, steps);
  }

  /** A request refused for its selection never contacted a provider, and none contacts one twice. */
  lemma RefusedBeforeAnyCall(e: Setup, turns: map<RunId, seq<Selection>>, steps: seq<(nat, Input)>, t: nat)
    requires Pinned(turns) && Possible(e, Start(e, turns), steps) && t < |e.requests|
    ensures var w := After(e, Start(e, turns), steps);
            && |w.stages| == |e.requests| && CallsOnce(w.calls)
            && (w.stages[t] == Done(SelectionLocked) ==> t !in w.calls)
  {
    Reachable(e, turns, steps);
    assert RequestSound(e, After(e, Start(e, turns), steps), t);
  }

  /** What the lock is for: no completed call is thrown away by the store, unless the provider reported itself as
      another than the one the model names. The store's check alone would discard one of two racing selections. */
  lemma NoCallIsWasted(e: Setup, turns: map<RunId, seq<Selection>>, steps: seq<(nat, Input)>, t: nat)
    requires Pinned(turns) && Possible(e, Start(e, turns), steps) && t < |e.requests|
    ensures var w := After(e, Start(e, turns), steps);
            && |w.stages| == |e.requests|
            && (w.stages[t].Done? && w.stages[t].outcome.Discarded? ==>
                  e.parse(e.requests[t].model) != Some(w.stages[t].outcome.reported))
  {
    Reachable(e, turns, steps);
    assert RequestSound(e, After(e, Start(e, turns), steps), t);
  }

  /** No request waits for ever: while one is unfinished, some request can move. */
  lemma NeverStuck(e: Setup, turns: map<RunId, seq<Selection>>, steps: seq<(nat, Input)>, t: nat)
    requires Pinned(turns) && Possible(e, Start(e, turns), steps) && t < |e.requests|
    requires var w := After(e, Start(e, turns), steps); |w.stages| == |e.requests| && !w.stages[t].Done?
    ensures exists u, i :: Enabled(e, After(e, Start(e, turns), steps), u, i)
  {
    var w := After(e, Start(e, turns), steps);
    Reachable(e, turns, steps);
    var u := if w.stages[t].Waiting? && Lock(e, t) in w.holder then w.holder[Lock(e, t)] else t;
    var i := match w.stages[u]
             case Arrived => Found(true)
             case Waiting => Acquire
             case Holding => Check
             case Selected => Gate(true)
             case Calling => Answer(None)
             case _ => Store;
    assert Enabled(e, w, u, i);
  }

  /** The selection of a Run with a turn is one that some request can still ask for. */
  predicate Reusable(e: Setup, first: Selection) { e.parse(first.model) == Some(first.provider) }

  /** Once a Run's first turn was recorded under another provider than its model names, no later request on the Run
      is ever accepted. */
  lemma {:induction false} MislabelledRunIsClosed(e: Setup, w: World, steps: seq<(nat, Input)>, r: RunId)
    requires Inv(e, w) && Possible(e, w, steps)
    requires Turns(w, r) != [] && !Reusable(e, Turns(w, r)[0])
    ensures Turns(After(e, w, steps), r) == Turns(w, r)
    decreases |steps|
  {
    if steps != [] {
      var t, i := steps[0].0, steps[0].1;
      assert RequestSound(e, w, t);
      StepKeeps(e, w, t, i);
      MislabelledRunIsClosed(e, Next(e, w, t, i), steps[1..], r);
    }
  }

  // ----- when a Run can still grow -----

  /** The way of one request that finds its Run, waits for nobody and is answered with `s`. */
  function Course(t: nat, s: Selection): seq<(nat, Input)> {
    [(t, Found(true)), (t, Acquire), (t, Check), (t, Gate(true)), (t, Answer(Some(s))), (t, Store)]
  }

  predicate Ready(e: Setup, w: World, t: nat) {
    && t < |e.requests| && |w.stages| == |e.requests|
    && w.stages[t].Arrived? && Lock(e, t) !in w.holder
  }

  lemma OneStep(e: Setup, w: World, step: (nat, Input), rest: seq<(nat, Input)>)
    requires Enabled(e, w, step.0, step.1)
    ensures Possible(e, w, [step] + rest) <==> Possible(e, Next(e, w, step.0, step.1), rest)
    ensures Possible(e, w, [step] + rest) ==>
              After(e, w, [step] + rest) == After(e, Next(e, w, step.0, step.1), rest)
  {
    assert ([step] + rest)[1..] == rest;
  }

  /** The world once such a request holds its lock and has passed the check. */
  function Admitted(e: Setup, w: World, t: nat): World
    requires t < |w.stages| && t < |e.requests|
  {
    w.(stages := w.stages[t := Selected], holder := w.holder[Lock(e, t) := t])
  }

  /** The world once its turn is recorded. */
  function WithTurn(e: Setup, w: World, t: nat, s: Selection): World
    requires t < |w.stages| && t < |e.requests|
  {
    var r := e.requests[t].run;
    w.(stages := w.stages[t := Done(Recorded)], calls := w.calls + [t], turns := w.turns[r := Turns(w, r) + [s]])
  }

  lemma FirstHalf(e: Setup, w: World, t: nat, rest: seq<(nat, Input)>)
    requires Ready(e, w, t) && Asked(e, t).Some?
    requires
      var turns := Turns(w, e.requests[t].run);
      turns == [] || Some(turns[0]) == Asked(e, t)
    ensures
      var steps := [(t, Found(true))] + ([(t, Acquire)] + ([(t, Check)] + rest));
      && (Possible(e, w, steps) <==> Possible(e, Admitted(e, w, t), rest))
      && (Possible(e, w, steps) ==> After(e, w, steps) == After(e, Admitted(e, w, t), rest))
  {
    hide Possible, After;
    var w1 := Next(e, w, t, Found(true));
    var w2 := Next(e, w1, t, Acquire);
    assert Next(e, w2, t, Check) == Admitted(e, w, t);
    OneStep(e, w2, (t, Check), rest);
    OneStep(e, w1, (t, Acquire), [(t, Check)] + rest);
    OneStep(e, w, (t, Found(true)), [(t, Acquire)] + ([(t, Check)] + rest));
  }

  lemma SecondHalf(e: Setup, w: World, t: nat, s: Selection)
    requires Ready(e, w, t) && s.model == e.requests[t].model
    requires
      var turns := Turns(w, e.requests[t].run);
      turns == [] || s == turns[0]
    ensures
      var steps := [(t, Gate(true))] + ([(t, Answer(Some(s)))] + ([(t, Store)] + []));
      && Possible(e, Admitted(e, w, t), steps)
      && After(e, Admitted(e, w, t), steps) == WithTurn(e, w, t, s)
  {
    var w3 := Admitted(e, w, t);
    var w4 := Next(e, w3, t, Gate(true));
    var w5 := Next(e, w4, t, Answer(Some(s)));
    assert w5.holder - {Lock(e, t)} == w.holder;
    assert Next(e, w5, t, Store) == WithTurn(e, w, t, s);
    Ends(e, WithTurn(e, w, t, s));
    hide Possible, After;
    OneStep(e, w5, (t, Store), []);
    OneStep(e, w4, (t, Answer(Some(s))), [(t, Store)] + []);
    OneStep(e, w3, (t, Gate(true)), [(t, Answer(Some(s)))] + ([(t, Store)] + []));
  }

  lemma Ends(e: Setup, w: World)
    ensures Possible(e, w, []) && After(e, w, []) == w
  {}

  /** Nothing stops such a request, and the answer becomes the Run's next turn, if it is the Run's first turn or is the
      first turn's selection, which was also asked for. Nothing else changes but the record of the call. */
  lemma CourseRecords(e: Setup, w: World, t: nat, s: Selection)
    requires Ready(e, w, t) && Asked(e, t).Some? && s.model == e.requests[t].model
    requires
      var turns := Turns(w, e.requests[t].run);
      turns == [] || (Some(turns[0]) == Asked(e, t) && s == turns[0])
    ensures Possible(e, w, Course(t, s)) && After(e, w, Course(t, s)) == WithTurn(e, w, t, s)
  {
    var rest := [(t, Gate(true))] + ([(t, Answer(Some(s)))] + ([(t, Store)] + []));
    assert Course(t, s) == [(t, Found(true))] + ([(t, Acquire)] + ([(t, Check)] + rest));
    hide Possible, After, Next;
    FirstHalf(e, w, t, rest);
    SecondHalf(e, w, t, s);
  }

  /** The Run's first turn has another selection than this request asks for. */
  predicate Locked(e: Setup, w: World, t: nat)
    requires t < |e.requests|
  {
    var turns := Turns(w, e.requests[t].run);
    turns != [] && Some(turns[0]) != Asked(e, t)
  }

  lemma LockedStep(e: Setup, w: World, t: nat, u: nat, i: Input)
    requires Inv(e, w) && Enabled(e, w, u, i) && t < |e.requests| && Locked(e, w, t) && w.stages[t] != Done(Recorded)
    ensures Locked(e, Next(e, w, u, i), t)
    ensures |Next(e, w, u, i).stages| == |e.requests| && Next(e, w, u, i).stages[t] != Done(Recorded)
  {
    hide Mutex, Pinned, CallsOnce;
    assert RequestSound(e, w, t);
  }

  lemma {:induction false} LockedForEver(e: Setup, w: World, t: nat, steps: seq<(nat, Input)>)
    requires Inv(e, w) && Possible(e, w, steps) && t < |e.requests| && Locked(e, w, t)
    requires w.stages[t] != Done(Recorded)
    ensures |After(e, w, steps).stages| == |e.requests| && After(e, w, steps).stages[t] != Done(Recorded)
    decreases |steps|
  {
    hide Inv, Locked, Next;
    if steps == [] {
      RunKeeps(e, w, steps);
      StageCount(e, w);
    } else {
      var u, i := steps[0].0, steps[0].1;
      StepKeeps(e, w, u, i);
      LockedStep(e, w, t, u, i);
      LockedForEver(e, Next(e, w, u, i), t, steps[1..]);
    }
  }

  lemma StageCount(e: Setup, w: World)
    requires Inv(e, w)
    ensures |w.stages| == |e.requests|
  {}

  /** These steps end with the request's turn recorded. */
  predicate Succeeds(e: Setup, w: World, t: nat, steps: seq<(nat, Input)>) {
    Possible(e, w, steps) && t < |After(e, w, steps).stages| && After(e, w, steps).stages[t] == Done(Recorded)
  }

  /** A request that has just arrived at a free lock can still get a turn recorded, in some continuation, exactly when
      its model is well formed and the Run has no turn yet or its first turn is the very selection asked for. */
  lemma RecordableIff(e: Setup, turns: map<RunId, seq<Selection>>, before: seq<(nat, Input)>, t: nat)
    requires Pinned(turns) && Possible(e, Start(e, turns), before) && Ready(e, After(e, Start(e, turns), before), t)
    ensures
      var w := After(e, Start(e, turns), before);
      (exists steps :: Succeeds(e, w, t, steps)) <==> Asked(e, t).Some? && !Locked(e, w, t)
  {
    var w := After(e, Start(e, turns), before);
    Reachable(e, turns, before);
    if Asked(e, t).Some? && !Locked(e, w, t) {
      CourseRecords(e, w, t, Asked(e, t).value);
      assert Succeeds(e, w, t, Course(t, Asked(e, t).value));
    }
    forall steps | Succeeds(e, w, t, steps)
      ensures Asked(e, t).Some? && !Locked(e, w, t)
    {
      RunKeeps(e, w, steps);
      assert RequestSound(e, After(e, w, steps), t);
      if Locked(e, w, t) {
        LockedForEver(e, w, t, steps);
      }
    }
  }

  predicate Grows(e: Setup, w: World, r: RunId, steps: seq<(nat, Input)>) {
    Possible(e, w, steps) && |Turns(After(e, w, steps), r)| > |Turns(w, r)|
  }

  /** A Run gets another turn, in some continuation, exactly when it has none yet or its first is labelled as its model
      names, given one request for it, for that model, that has just arrived at a free lock. */
  lemma RunOpenIff(e: Setup, turns: map<RunId, seq<Selection>>, before: seq<(nat, Input)>, t: nat)
    requires Pinned(turns) && Possible(e, Start(e, turns), before) && Ready(e, After(e, Start(e, turns), before), t)
    requires Asked(e, t).Some?
    requires
      var first := Turns(After(e, Start(e, turns), before), e.requests[t].run);
      first != [] ==> first[0].model == e.requests[t].model
    ensures
      var w, r := After(e, Start(e, turns), before), e.requests[t].run;
      (exists steps :: Grows(e, w, r, steps)) <==> Turns(w, r) == [] || Reusable(e, Turns(w, r)[0])
  {
    var w, r := After(e, Start(e, turns), before), e.requests[t].run;
    Reachable(e, turns, before);
    if Turns(w, r) == [] || Reusable(e, Turns(w, r)[0]) {
      CourseRecords(e, w, t, Asked(e, t).value);
      assert Grows(e, w, r, Course(t, Asked(e, t).value));
    } else {
      forall steps | Possible(e, w, steps)
        ensures !Grows(e, w, r, steps)
      {
        MislabelledRunIsClosed(e, w, steps, r);
      }
    }
  }

  /** Every model names provider "a"; two requests are for one Run. */
  const MISNAMED: Setup := Setup(_ => Some("a"), _ => 0, [Request(0, "m"), Request(0, "m")])

  /** A Run does close this way: the client of the first request reports another provider than its model names. From
      then on no continuation records a turn, whoever asks. */
  lemma MislabelHappens(steps: seq<(nat, Input)>)
    ensures
      var start, course := Start(MISNAMED, map[]), Course(0, Selection("b", "m"));
      && Possible(MISNAMED, start, course)
      && var w := After(MISNAMED, start, course);
      && Turns(w, 0) == [Selection("b", "m")] && !Reusable(MISNAMED, Turns(w, 0)[0]) && Ready(MISNAMED, w, 1)
      && !Grows(MISNAMED, w, 0, steps)
  {
    var start := Start(MISNAMED, map[]);
    var s := Selection("b", "m");
    CourseRecords(MISNAMED, start, 0, s);
    var w := After(MISNAMED, start, Course(0, s));
    Reachable(MISNAMED, map[], Course(0, s));
    if Possible(MISNAMED, w, steps) {
      MislabelledRunIsClosed(MISNAMED, w, steps, 0);
    }
  }
}
